/** The part of `System.DateTime` the model needs: proleptic Gregorian calendar
    dates from 0001-01-01 to 9999-12-31, without a time of day. */
module Calendar {

  datatype DateValue = DateValue(year: int, month: int, day: int)

  predicate IsLeapYear(year: int) {
    year % 4 == 0 && (year % 100 != 0 || year % 400 == 0)
  }

  function DaysInMonth(year: int, month: int): (days: int)
    requires 1 <= month <= 12
    ensures 28 <= days <= 31
    ensures days == 29 <==> month == 2 && IsLeapYear(year)
  {
    if month == 2 then (if IsLeapYear(year) then 29 else 28)
    else if month == 4 || month == 6 || month == 9 || month == 11 then 30
    else 31
  }

  /** What `new DateTime(year, month, day)` accepts without throwing. */
  predicate IsValidDate(d: DateValue) {
    && 1 <= d.year <= 9999
    && 1 <= d.month <= 12
    && 1 <= d.day <= DaysInMonth(d.year, d.month)
  }

  type Date = d: DateValue | IsValidDate(d) witness DateValue(1, 1, 1)

  /** `new DateTime(0)`: zero ticks, which is 0001-01-01 at midnight. */
  const MinValue: Date := DateValue(1, 1, 1)
}
