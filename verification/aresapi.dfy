/** AresAPI: a company record assembled from the ARES registry's answer for one
    identification number, the free-text address read back into the address fields,
    and the VAT number picked from the registry's search by company name.

    The XML documents are represented by what the code reads out of them: the
    registry answer by the parsed record count and the inner text of the first
    element of each name, the name search by its `dtt:S` entries in document order. */
module AresApi {
  import opened Outcomes
  import opened Text
  import opened Calendar
  import opened Companies
  import opened TextAddress

  // ---------------------------------------------------------------- the documents

  const DateElement := "are:Datum_vzniku"
  const NameElement := "are:Obchodni_firma"
  const CityElement := "dtt:Nazev_obce"
  const StreetElement := "dtt:Nazev_ulice"
  const HouseNumberElement := "dtt:Cislo_domovni"
  const OrientationElement := "dtt:Cislo_orientacni"
  const AddressNumberElement := "dtt:Cislo_do_adresy"
  const ZipElement := "dtt:PSC"
  const TextAddressElement := "dtt:Adresa_textem"

  /** The registry's answer: `count` is `int.Parse` of the `are:Pocet_zaznamu` text
      (`None` when the element is missing or its text is not a number), and
      `elements` maps an element name to the inner text of its first occurrence. */
  datatype RegistryResponse = RegistryResponse(count: Option<int>, elements: map<string, string>)

  /** One `dtt:S` entry of the name search: the inner text of its first `dtt:ico`
      and of its first `dtt:p_dph`, when present. */
  datatype VatEntry = VatEntry(ico: Option<string>, pDph: Option<string>)

  /** The record returned when the registry knows no company of that number. */
  function NotFound(idno: string): CompanyRecord {
    Blank(idno).(name := "Nenalezeno")
  }

  // ---------------------------------------------------------------- creation date

  /** The "yyyy-MM-dd" text of `are:Datum_vzniku` as a date: the first three
      '-'-separated parts read as numbers, `None` where the code's exception
      handler leaves the date unset (fewer than three parts, a part that is not a
      number, or no such calendar day). */
  function ParseAresDate(text: string): (d: Option<Date>)
    ensures |Split(text, '-')| < 3 ==> d.None?
    ensures d.Some? ==> ParseNat(Split(text, '-')[0]) == Some(d.value.year)
    ensures d.Some? ==> ParseNat(Split(text, '-')[1]) == Some(d.value.month)
    ensures d.Some? ==> ParseNat(Split(text, '-')[2]) == Some(d.value.day)
    ensures var parts := Split(text, '-');
      (&& |parts| >= 3 && ParseNat(parts[0]).Some? && ParseNat(parts[1]).Some? && ParseNat(parts[2]).Some?
       && IsValidDate(DateValue(ParseNat(parts[0]).value, ParseNat(parts[1]).value, ParseNat(parts[2]).value)))
      ==> d == Some(DateValue(ParseNat(parts[0]).value, ParseNat(parts[1]).value, ParseNat(parts[2]).value))
  {
    var parts := Split(text, '-');
    if |parts| < 3 then None
    else
      match (ParseNat(parts[0]), ParseNat(parts[1]), ParseNat(parts[2]))
      case (Some(y), Some(m), Some(dd)) =>
        if IsValidDate(DateValue(y, m, dd)) then Some(DateValue(y, m, dd)) else None
      case _ => None
  }

  /** Any three texts of digits naming a valid day, joined by '-', are read as
      that day, leading zeros or not. */
  lemma DateFromDigitParts(y: string, m: string, dd: string)
    requires y != [] && AllDigits(y) && m != [] && AllDigits(m) && dd != [] && AllDigits(dd)
    requires IsValidDate(DateValue(DigitsValue(y), DigitsValue(m), DigitsValue(dd)))
    ensures ParseAresDate(Join('-', [y, m, dd])) == Some(DateValue(DigitsValue(y), DigitsValue(m), DigitsValue(dd)))
  {
    var parts := [y, m, dd];
    forall k | 0 <= k < |parts| ensures '-' !in parts[k] {
      assert AllDigits(parts[k]);
    }
    SplitJoin('-', parts);
  }

  /** The registry's "yyyy-MM-dd" rendering of a date, the year padded to four
      digits and month and day to two, is read back as that date. */
  lemma ParseAresDatePaddedRoundTrip(d: Date)
    ensures ParseAresDate(Join('-', [PadLeft(Decimal(d.year), 4, '0'), TwoDigits(d.month), TwoDigits(d.day)]))
         == Some(d)
  {
    var year := PadLeft(Decimal(d.year), 4, '0');
    LeadingZeros(year[..|year| - |Decimal(d.year)|], Decimal(d.year));
    assert year == year[..|year| - |Decimal(d.year)|] + Decimal(d.year);
    ParseDecimal(d.year);
    DateFromDigitParts(year, TwoDigits(d.month), TwoDigits(d.day));
  }

  /** The text "2001-02-03" is read as 3 February 2001. */
  lemma ParseAresDateExample()
    ensures ParseAresDate("2001-02-03") == Some(DateValue(2001, 2, 3))
  {
    ExampleDigitValues();
    DateFromDigitParts("2001", "02", "03");
    assert Join('-', ["2001", "02", "03"]) == "2001-02-03";
  }

  lemma ExampleDigitValues()
    ensures AllDigits("2001") && DigitsValue("2001") == 2001
    ensures AllDigits("02") && DigitsValue("02") == 2
    ensures AllDigits("03") && DigitsValue("03") == 3
  {
    assert "2001"[..3] == "200" && "200"[..2] == "20" && "20"[..1] == "2" && "2"[..0] == "";
    assert "02"[..1] == "0" && "03"[..1] == "0" && "0"[..0] == "";
  }

  /** A date written without leading zeros is read back as that date. */
  lemma ParseAresDateRoundTrip(d: Date)
    ensures ParseAresDate(Join('-', [Decimal(d.year), Decimal(d.month), Decimal(d.day)])) == Some(d)
  {
    var parts := [Decimal(d.year), Decimal(d.month), Decimal(d.day)];
    forall k | 0 <= k < |parts| ensures '-' !in parts[k] {
      assert AllDigits(parts[k]);
    }
    SplitJoin('-', parts);
    ParseDecimal(d.year);
    ParseDecimal(d.month);
    ParseDecimal(d.day);
  }

  /** Only the first three parts are read: anything after a third '-' is ignored. */
  lemma ParseAresDateIgnoresRest(parts: seq<string>)
    requires |parts| >= 3
    requires forall k :: 0 <= k < |parts| ==> '-' !in parts[k]
    ensures ParseAresDate(Join('-', parts)) == ParseAresDate(Join('-', parts[..3]))
  {
    SplitJoin('-', parts);
    SplitJoin('-', parts[..3]);
  }

  /** A day that does not exist leaves the date unset. */
  lemma ParseAresDateRejectsFebruary30()
    ensures ParseAresDate(Join('-', ["2001", "02", "30"])) == None
  {
    SplitJoin('-', ["2001", "02", "30"]);
    assert DigitsValue("02") == 2 by { assert "02"[..1] == "0" && "0"[..0] == ""; }
    assert DigitsValue("30") == 30 by { assert "30"[..1] == "3" && "3"[..0] == ""; }
    assert !IsValidDate(DateValue(2001, 2, 30));
  }

  // ---------------------------------------------------------------- text address

  /** parseTextAddress on field values: with a match, the house and orientation
      numbers are taken together when the house number is empty, and the street,
      postal code (its spaces removed) and city each when that field is empty; the
      groups are trimmed. Without a match nothing changes. */
  function Backfill(rec: CompanyRecord, m: Option<Capture>): (r: CompanyRecord)
    ensures m.None? ==> r == rec
    ensures rec.houseNumber != "" ==> r.houseNumber == rec.houseNumber && r.locationNumber == rec.locationNumber
    ensures rec.street != "" ==> r.street == rec.street
    ensures rec.zip != "" ==> r.zip == rec.zip
    ensures rec.city != "" ==> r.city == rec.city
    ensures m.Some? && rec.houseNumber == "" ==>
              r.houseNumber == Trim(m.value.houseNumber) && r.locationNumber == Trim(m.value.locationNumber)
    ensures m.Some? && rec.street == "" ==> r.street == Trim(m.value.street)
    ensures m.Some? && rec.zip == "" ==> r.zip == Trim(RemoveAll(m.value.zip, " "))
    ensures m.Some? && rec.city == "" ==> r.city == Trim(m.value.city)
    ensures r.name == rec.name && r.idno == rec.idno && r.taxpf == rec.taxpf
    ensures r.taxno == rec.taxno && r.created == rec.created
  {
    match m
    case None => rec
    case Some(g) =>
      var numbered :=
        if rec.houseNumber == "" then
          rec.(houseNumber := Trim(g.houseNumber), locationNumber := Trim(g.locationNumber))
        else rec;
      numbered.(
        street := if rec.street == "" then Trim(g.street) else rec.street,
        zip := if rec.zip == "" then Trim(RemoveAll(g.zip, " ")) else rec.zip,
        city := if rec.city == "" then Trim(g.city) else rec.city)
  }

  /** Reading the same address a second time changes nothing more. */
  lemma BackfillIdempotent(rec: CompanyRecord, m: Option<Capture>)
    ensures Backfill(Backfill(rec, m), m) == Backfill(rec, m)
  {
  }

  /** parseTextAddress: fills the empty address fields of `company` from the
      groups of the address pattern's match. */
  method ParseTextAddress(company: Company, textAddress: string, isLetter: char -> bool)
    modifies company
    ensures company.Record() == Backfill(old(company.Record()), Match(textAddress, isLetter))
  {
    var matches := Match(textAddress, isLetter);
    // The pattern is anchored at the start, so there is one match or none, and a
    // match always has its five groups.
    if matches.None? {
      return;
    }
    FillFromGroups(company, matches.value);
  }

  /** The assignments parseTextAddress makes from the groups of a match. */
  method FillFromGroups(company: Company, groups: Capture)
    modifies company
    ensures company.Record() == Backfill(old(company.Record()), Some(groups))
  {
    ghost var rec := company.Record();
    if company.houseNumber == "" {
      company.houseNumber := Trim(groups.houseNumber);
      company.locationNumber := Trim(groups.locationNumber);
    }
    ghost var numbered := company.Record();
    assert numbered == if rec.houseNumber == "" then
        rec.(houseNumber := Trim(groups.houseNumber), locationNumber := Trim(groups.locationNumber))
      else rec;
    if company.street == "" {
      company.street := Trim(groups.street);
    }
    ghost var named := company.Record();
    assert named == numbered.(street := if rec.street == "" then Trim(groups.street) else rec.street);
    if company.zip == "" {
      company.zip := Trim(RemoveAll(groups.zip, " "));
    }
    ghost var zipped := company.Record();
    assert zipped == named.(zip := if rec.zip == "" then Trim(RemoveAll(groups.zip, " ")) else rec.zip);
    if company.city == "" {
      company.city := Trim(groups.city);
    }
    assert company.Record() == zipped.(city := if rec.city == "" then Trim(groups.city) else rec.city);
  }

  /** The address line in the layout the registry writes it:
      "street house[/orientation] ddd dd, city". */
  function AddressText(street: string, house: string, orientation: string,
                       zipHead: string, zipTail: string, city: string): string
  {
    StreetLine(street, house, orientation) + " " + zipHead + " " + zipTail + ", " + city
  }

  /** Reading an address line in the registry's layout into a record with empty
      address fields recovers the street, the numbers, the postal code without its
      space, and the city. */
  lemma {:induction false} AddressTextRoundTrip(rec: CompanyRecord, street: string, house: string,
                                                orientation: string, zipHead: string, zipTail: string,
                                                city: string, isLetter: char -> bool)
    requires LetterClass(isLetter)
    requires rec.street == "" && rec.houseNumber == "" && rec.zip == "" && rec.city == ""
    requires IsTrimmed(street) && forall n :: 0 <= n < |street| ==> isLetter(street[n]) || IsWhiteSpace(street[n])
    requires house != "" && AllDigits(house)
    requires |orientation| <= 1 && AllDigits(orientation)
    requires |zipHead| == 3 && AllDigits(zipHead) && |zipTail| == 2 && AllDigits(zipTail)
    requires city != "" && forall n :: 0 <= n < |city| ==> isLetter(city[n])
    ensures Backfill(rec, Match(AddressText(street, house, orientation, zipHead, zipTail, city), isLetter))
         == rec.(street := street, houseNumber := house, locationNumber := orientation,
                 zip := zipHead + zipTail, city := city)
  {
    var s := AddressText(street, house, orientation, zipHead, zipTail, city);
    var x := AddressPath(s, street, house, orientation, zipHead, zipTail, city, isLetter);
    MatchIffMatches(s, CaptureOf(s, x), isLetter);
    GroupsTrim(street, house, orientation, zipHead, zipTail, city, isLetter);
  }

  /** The captured groups of an address line in the registry's layout trim back to
      its parts. */
  lemma GroupsTrim(street: string, house: string, orientation: string,
                   zipHead: string, zipTail: string, city: string, isLetter: char -> bool)
    requires LetterClass(isLetter)
    requires IsTrimmed(street)
    requires AllDigits(house) && AllDigits(orientation)
    requires AllDigits(zipHead) && AllDigits(zipTail)
    requires forall n :: 0 <= n < |city| ==> isLetter(city[n])
    ensures Trim(street + " ") == street
    ensures Trim(house) == house && Trim(orientation) == orientation
    ensures Trim(RemoveAll(zipHead + " " + zipTail, " ")) == zipHead + zipTail
    ensures Trim(city) == city
  {
    TrimDropsTrailingSpace(street, ' ');
    TrimOfDigits(house);
    TrimOfDigits(orientation);
    DigitGroupsJoin(zipHead, zipTail);
    if city != "" {
      assert isLetter(city[0]) && isLetter(city[|city| - 1]);
    }
    TrimOfTrimmed(city);
  }

  /** Two digit groups separated by one space, the space removed and the result
      trimmed, are the two groups joined. */
  lemma DigitGroupsJoin(a: string, b: string)
    requires AllDigits(a) && AllDigits(b)
    ensures Trim(RemoveAll(a + " " + b, " ")) == a + b
  {
    assert ' ' !in a && ' ' !in b by {
      assert forall n :: 0 <= n < |a| ==> IsDigit(a[n]);
      assert forall n :: 0 <= n < |b| ==> IsDigit(b[n]);
    }
    RemoveSpaceBetween(a, b);
    assert AllDigits(a + b);
    TrimOfDigits(a + b);
  }

  /** Where the parts of an address line sit after its street line. */
  lemma AddressTextLayout(street: string, house: string, orientation: string,
                          zipHead: string, zipTail: string, city: string)
    requires |zipHead| == 3 && |zipTail| == 2
    ensures var s := AddressText(street, house, orientation, zipHead, zipTail, city);
      var line := StreetLine(street, house, orientation);
      var l := |line|;
      && |s| == l + 9 + |city|
      && s[..l] == line
      && s[l] == ' ' && s[l + 4] == ' ' && s[l + 7] == ',' && s[l + 8] == ' '
      && s[l + 1..l + 4] == zipHead && s[l + 5..l + 7] == zipTail
      && s[l + 1..l + 7] == zipHead + " " + zipTail
      && s[l + 9..] == city
  {
    var s := AddressText(street, house, orientation, zipHead, zipTail, city);
    var line := StreetLine(street, house, orientation);
    var l := |line|;
    var rest := " " + zipHead + " " + zipTail + ", " + city;
    assert s == line + rest;
    assert s[l..] == rest;
    assert rest[1..4] == zipHead && rest[5..7] == zipTail && rest[1..7] == zipHead + " " + zipTail;
    assert rest[9..] == city;
  }

  /** The positions at which the address pattern matches a line in the registry's
      layout, and the groups it captures there. */
  lemma AddressPath(s: string, street: string, house: string, orientation: string,
                    zipHead: string, zipTail: string, city: string, isLetter: char -> bool)
    returns (x: Path)
    requires LetterClass(isLetter)
    requires s == AddressText(street, house, orientation, zipHead, zipTail, city)
    requires forall n :: 0 <= n < |street| ==> isLetter(street[n]) || IsWhiteSpace(street[n])
    requires house != "" && AllDigits(house)
    requires |orientation| <= 1 && AllDigits(orientation)
    requires |zipHead| == 3 && AllDigits(zipHead) && |zipTail| == 2 && AllDigits(zipTail)
    requires city != "" && forall n :: 0 <= n < |city| ==> isLetter(city[n])
    ensures IsPath(s, x, isLetter) && IsPreferred(s, x, isLetter)
    ensures CaptureOf(s, x) == Capture(street + " ", house, orientation, zipHead + " " + zipTail, city)
  {
    var line := StreetLine(street, house, orientation);
    AddressTextLayout(street, house, orientation, zipHead, zipTail, city);
    var i := |street| + 1;
    var j := i + |house|;
    var k := if orientation == "" then j else j + 1;
    var l := |line|;
    x := Path(i, j, k, l, l + 5, l + 7, l + 9, |s|);
    assert s[..i] == street + " " by { assert s[..l][..i] == s[..i]; }
    assert s[i..j] == house by { assert s[..l][i..j] == s[i..j]; }
    assert s[k..l] == orientation by { assert s[..l][k..l] == s[k..l]; }
    assert s[j] == (if orientation == "" then ' ' else '/') by {
      if orientation != "" {
        assert s[..l][j] == s[j];
      }
    }
    assert orientation != "" ==> IsDigit(s[k]) by {
      if orientation != "" {
        assert s[k..l][0] == s[k];
      }
    }
    PathParts(s, x, street, city, isLetter);
  }

  /** The pattern's parts, given what sits at the path's positions. */
  lemma PathParts(s: string, x: Path, street: string, city: string, isLetter: char -> bool)
    requires LetterClass(isLetter)
    requires 0 < x.i < x.j <= x.k <= x.l && x.q == x.l + 5 && x.r == x.l + 7 && x.t == x.l + 9
    requires x.u == |s| == x.t + |city| && city != ""
    requires s[..x.i] == street + " "
    requires forall n :: 0 <= n < |street| ==> isLetter(street[n]) || IsWhiteSpace(street[n])
    requires AllDigits(s[x.i..x.j])
    requires s[x.j] == ' ' || s[x.j] == '/'
    requires x.k == x.j || (x.k == x.j + 1 && s[x.j] == '/')
    requires x.l == x.k || (x.l == x.k + 1 && IsDigit(s[x.k]))
    requires s[x.l] == ' ' && s[x.l + 4] == ' ' && s[x.l + 7] == ',' && s[x.l + 8] == ' '
    requires AllDigits(s[x.l + 1..x.l + 4]) && AllDigits(s[x.l + 5..x.l + 7])
    requires s[x.t..] == city && forall n :: 0 <= n < |city| ==> isLetter(city[n])
    ensures IsPath(s, x, isLetter) && IsPreferred(s, x, isLetter)
  {
    forall n | 0 <= n < x.i ensures isLetter(s[n]) || IsWhiteSpace(s[n]) {
      assert s[n] == s[..x.i][n];
    }
    forall n | x.t <= n < x.u ensures isLetter(s[n]) {
      assert s[n] == s[x.t..][n - x.t];
    }
  }

  /** The pattern allows at most one orientation digit: a street line whose
      orientation number has two or more digits is not read, whatever follows it. */
  lemma LongOrientationDoesNotMatch(street: string, house: string, orientation: string,
                                    rest: string, isLetter: char -> bool)
    requires LetterClass(isLetter)
    requires forall n :: 0 <= n < |street| ==> isLetter(street[n]) || IsWhiteSpace(street[n])
    requires house != "" && AllDigits(house)
    requires |orientation| >= 2 && AllDigits(orientation)
    ensures Match(StreetLine(street, house, orientation) + rest, isLetter) == None
  {
    var s := StreetLine(street, house, orientation) + rest;
    var j := |street| + 1 + |house|;
    LongOrientationSpans(street, house, orientation, rest, isLetter);
    var g := Greedy(s, isLetter);
    assert g.l == j + 2;
    assert !IsWhiteSpace(s[j + 2]);
  }

  /** The spans the pattern takes over a street line with a long orientation
      number: the street, the house number, the '/', and two more digits. */
  lemma LongOrientationSpans(street: string, house: string, orientation: string,
                             rest: string, isLetter: char -> bool)
    requires LetterClass(isLetter)
    requires forall n :: 0 <= n < |street| ==> isLetter(street[n]) || IsWhiteSpace(street[n])
    requires house != "" && AllDigits(house)
    requires |orientation| >= 2 && AllDigits(orientation)
    ensures var s := StreetLine(street, house, orientation) + rest;
      var i := |street| + 1;
      var j := i + |house|;
      && j + 2 < |s|
      && Span(s, 0, LetterOrSpace(isLetter)) == i
      && Span(s, i, IsDigit) == j
      && s[j] == '/' && IsDigit(s[j + 1]) && IsDigit(s[j + 2])
  {
    var line := StreetLine(street, house, orientation);
    var s := line + rest;
    var i := |street| + 1;
    var j := i + |house|;
    assert s[..|line|] == line;
    forall n | 0 <= n < i ensures LetterOrSpace(isLetter)(s[n]) {
      assert s[n] == line[..i][n];
    }
    assert s[i] == house[0] by { assert s[i] == line[i..j][0]; }
    SpanIs(s, 0, LetterOrSpace(isLetter), i);
    forall n | i <= n < j ensures IsDigit(s[n]) {
      assert s[n] == line[i..j][n - i];
    }
    assert s[j] == '/';
    SpanIs(s, i, IsDigit, j);
    assert s[j + 1] == orientation[0] && s[j + 2] == orientation[1] by {
      assert line[j + 1..][0] == line[j + 1] && line[j + 1..][1] == line[j + 2];
    }
  }

  // ---------------------------------------------------------------- VAT number

  /** An entry of the name search that `getTaxno` takes its answer from: its
      identification number is the one asked for and it has a `p_dph` element. */
  predicate Qualifies(e: VatEntry, idno: string) {
    e.ico == Some(idno) && e.pDph.Some?
  }

  /** The position of the first entry from `i` on that qualifies, or `|entries|`. */
  function FirstQualifying(entries: seq<VatEntry>, idno: string, i: nat): (k: nat)
    requires i <= |entries|
    ensures i <= k <= |entries|
    ensures forall j :: i <= j < k ==> !Qualifies(entries[j], idno)
    ensures k < |entries| ==> Qualifies(entries[k], idno)
    decreases |entries| - i
  {
    if i == |entries| || Qualifies(entries[i], idno) then i else FirstQualifying(entries, idno, i + 1)
  }

  /** The VAT number the name search yields: the `p_dph` text of the first entry
      that qualifies, with every "dic=" removed, or "" when none does. */
  function SelectTaxno(entries: seq<VatEntry>, idno: string): (taxno: string)
    ensures (forall k :: 0 <= k < |entries| ==> !Qualifies(entries[k], idno)) ==> taxno == ""
    ensures forall k :: 0 <= k < |entries| && Qualifies(entries[k], idno) &&
                        (forall j :: 0 <= j < k ==> !Qualifies(entries[j], idno)) ==>
                          taxno == RemoveAll(entries[k].pDph.value, "dic=")
  {
    var k := FirstQualifying(entries, idno, 0);
    if k == |entries| then "" else RemoveAll(entries[k].pDph.value, "dic=")
  }

  /** getTaxno: scans the entries in order for the first that qualifies. */
  method GetTaxno(idno: string, entries: seq<VatEntry>) returns (taxno: string)
    ensures taxno == SelectTaxno(entries, idno)
  {
    for i := 0 to |entries|
      invariant forall j :: 0 <= j < i ==> !Qualifies(entries[j], idno)
    {
      var node := entries[i];
      if node.ico.Some? && node.ico.value == idno {
        if node.pDph.Some? {
          return RemoveAll(node.pDph.value, "dic=");
        }
      }
    }
    return "";
  }

  /** An entry for another company listed first does not hide the one asked for. */
  lemma SelectTaxnoSkipsOtherCompanies()
    ensures SelectTaxno([VatEntry(Some("12345679"), Some("dic=CZ12345679")),
                         VatEntry(Some("25596641"), Some("dic=CZ25596641"))], "25596641")
         == "CZ25596641"
  {
    var entries := [VatEntry(Some("12345679"), Some("dic=CZ12345679")),
                    VatEntry(Some("25596641"), Some("dic=CZ25596641"))];
    assert "dic=CZ25596641" == "dic=" + "CZ25596641";
    RemoveAllPrefix("dic=", "CZ25596641");
    RemoveAllWithout("CZ25596641", "dic=");
    assert !Qualifies(entries[0], "25596641");
    assert Qualifies(entries[1], "25596641");
  }

  // ---------------------------------------------------------------- the company

  /** The structured elements of the registry's answer, copied in the code's
      order: the creation date when it parses, then the name, city, street, house
      number, orientation number, the address number (which overrides the house
      number) and the postal code, each when its element is present. */
  function StructuredFields(rec: CompanyRecord, e: map<string, string>): CompanyRecord {
    var dated := Dated(rec, e);
    var named := dated.(name := ElementOr(e, NameElement, dated.name));
    var placed := named.(city := ElementOr(e, CityElement, named.city));
    var streeted := placed.(street := ElementOr(e, StreetElement, placed.street));
    var housed := streeted.(houseNumber := ElementOr(e, HouseNumberElement, streeted.houseNumber));
    var oriented := housed.(locationNumber := ElementOr(e, OrientationElement, housed.locationNumber));
    var addressed := oriented.(houseNumber := ElementOr(e, AddressNumberElement, oriented.houseNumber));
    addressed.(zip := ElementOr(e, ZipElement, addressed.zip))
  }

  /** What `StructuredFields` copies: each element present sets its field (the
      address number winning over the house number, the date only when it
      parses), and every other field keeps its value. */
  lemma StructuredFieldsCopies(rec: CompanyRecord, e: map<string, string>)
    ensures var r := StructuredFields(rec, e);
      (DateElement in e && ParseAresDate(e[DateElement]).Some? ==> r.created == ParseAresDate(e[DateElement]).value)
      && (!(DateElement in e && ParseAresDate(e[DateElement]).Some?) ==> r.created == rec.created)
      && (NameElement in e ==> r.name == e[NameElement])
      && (CityElement in e ==> r.city == e[CityElement])
      && (StreetElement in e ==> r.street == e[StreetElement])
      && (AddressNumberElement in e ==> r.houseNumber == e[AddressNumberElement])
      && (AddressNumberElement !in e && HouseNumberElement in e ==> r.houseNumber == e[HouseNumberElement])
      && (OrientationElement in e ==> r.locationNumber == e[OrientationElement])
      && (ZipElement in e ==> r.zip == e[ZipElement])
      && (NameElement !in e ==> r.name == rec.name)
      && (CityElement !in e ==> r.city == rec.city)
      && (StreetElement !in e ==> r.street == rec.street)
      && (AddressNumberElement !in e && HouseNumberElement !in e ==> r.houseNumber == rec.houseNumber)
      && (OrientationElement !in e ==> r.locationNumber == rec.locationNumber)
      && (ZipElement !in e ==> r.zip == rec.zip)
      && (r.idno == rec.idno && r.taxpf == rec.taxpf && r.taxno == rec.taxno)
  {
  }

  /** The record with the creation date set when `are:Datum_vzniku` is present and parses. */
  function Dated(rec: CompanyRecord, e: map<string, string>): CompanyRecord {
    if DateElement in e && ParseAresDate(e[DateElement]).Some? then
      rec.(created := ParseAresDate(e[DateElement]).value)
    else rec
  }

  /** The text of element `name` when the answer has one, `otherwise` when not. */
  function ElementOr(e: map<string, string>, name: string, otherwise: string): string {
    if name in e then e[name] else otherwise
  }

  /** The record before the VAT number is looked up: the structured elements over a
      blank record, then the free-text address for whatever they left empty. */
  function Registered(idno: string, e: map<string, string>, isLetter: char -> bool): CompanyRecord {
    Backfill(StructuredFields(Blank(idno), e), TextMatch(e, isLetter))
  }

  /** The structured elements copied over a blank record: the IČO and "CZ" with
      no VAT number, and each field its element's text, or empty without one. */
  lemma BlankStructured(idno: string, e: map<string, string>)
    ensures var r := StructuredFields(Blank(idno), e);
      && r.idno == idno && r.taxpf == "CZ" && r.taxno == ""
      && r.name == ElementOr(e, NameElement, "")
      && r.created == (if DateElement in e && ParseAresDate(e[DateElement]).Some?
                       then ParseAresDate(e[DateElement]).value else MinValue)
      && r.street == ElementOr(e, StreetElement, "")
      && r.city == ElementOr(e, CityElement, "")
      && r.zip == ElementOr(e, ZipElement, "")
      && r.houseNumber == ElementOr(e, AddressNumberElement, ElementOr(e, HouseNumberElement, ""))
      && r.locationNumber == ElementOr(e, OrientationElement, "")
  {
    StructuredFieldsCopies(Blank(idno), e);
  }

  /** The free-text address's match, when the answer has one and it matches. */
  function TextMatch(e: map<string, string>, isLetter: char -> bool): Option<Capture> {
    if TextAddressElement in e then Match(e[TextAddressElement], isLetter) else None
  }

  /** What the registered record holds: the IČO, "CZ" and no VAT number yet; the
      name and date elements; each non-empty street, city, postal-code or house
      element. Without a match of the free-text address the structured elements
      are all there is. */
  lemma RegisteredFields(idno: string, e: map<string, string>, isLetter: char -> bool)
    ensures var r := Registered(idno, e, isLetter);
      var house := ElementOr(e, AddressNumberElement, ElementOr(e, HouseNumberElement, ""));
      && r.idno == idno && r.taxpf == "CZ" && r.taxno == ""
      && r.name == ElementOr(e, NameElement, "")
      && r.created == (if DateElement in e && ParseAresDate(e[DateElement]).Some?
                       then ParseAresDate(e[DateElement]).value else MinValue)
      && (TextMatch(e, isLetter).None? ==> r == StructuredFields(Blank(idno), e))
      && (ElementOr(e, StreetElement, "") != "" ==> r.street == e[StreetElement])
      && (ElementOr(e, CityElement, "") != "" ==> r.city == e[CityElement])
      && (ElementOr(e, ZipElement, "") != "" ==> r.zip == e[ZipElement])
      && (house != "" ==> r.houseNumber == house && r.locationNumber == ElementOr(e, OrientationElement, ""))
  {
    BlankStructured(idno, e);
    assert Registered(idno, e, isLetter) == Backfill(StructuredFields(Blank(idno), e), TextMatch(e, isLetter));
  }

  /** The fields the structured elements leave empty get the trimmed groups of
      the free-text address when it matches. */
  lemma RegisteredFromText(idno: string, e: map<string, string>, isLetter: char -> bool)
    requires TextMatch(e, isLetter).Some?
    ensures var r := Registered(idno, e, isLetter);
      var g := TextMatch(e, isLetter).value;
      var house := ElementOr(e, AddressNumberElement, ElementOr(e, HouseNumberElement, ""));
      && (ElementOr(e, StreetElement, "") == "" ==> r.street == Trim(g.street))
      && (ElementOr(e, CityElement, "") == "" ==> r.city == Trim(g.city))
      && (ElementOr(e, ZipElement, "") == "" ==> r.zip == Trim(RemoveAll(g.zip, " ")))
      && (house == "" ==> r.houseNumber == Trim(g.houseNumber) && r.locationNumber == Trim(g.locationNumber))
  {
    BlankStructured(idno, e);
    assert Registered(idno, e, isLetter) == Backfill(StructuredFields(Blank(idno), e), TextMatch(e, isLetter));
  }

  /** getCompanyByIdno on values. An unreadable record count and more than one
      record are failures; no record gives the "Nenalezeno" placeholder without a
      VAT lookup; one record gives the registered fields, the structured elements
      taking precedence over the free-text address, and the VAT number found by
      searching for the company's name. */
  function Assemble(idno: string, response: RegistryResponse, vatLookup: string -> seq<VatEntry>,
                    isLetter: char -> bool): (r: Result<CompanyRecord>)
    ensures response.count.None? <==> r == Err(RecordCountUnreadable)
    ensures response.count == Some(0) ==> r == Ok(NotFound(idno))
    ensures (response.count.Some? && response.count.value != 0 && response.count.value != 1)
              <==> r == Err(MultipleRecordsFound)
    ensures r.Ok? ==> r.value.idno == idno && r.value.taxpf == "CZ"
    ensures response.count == Some(1) ==>
              r.Ok? && r.value.taxno == SelectTaxno(vatLookup(r.value.name), idno)
    ensures response.count == Some(1) && NameElement in response.elements ==>
              r.value.name == response.elements[NameElement]
    ensures response.count == Some(1) && StreetElement in response.elements &&
            response.elements[StreetElement] != "" ==>
              r.value.street == response.elements[StreetElement]
    ensures response.count == Some(1) && CityElement in response.elements &&
            response.elements[CityElement] != "" ==>
              r.value.city == response.elements[CityElement]
    ensures response.count == Some(1) && ZipElement in response.elements &&
            response.elements[ZipElement] != "" ==>
              r.value.zip == response.elements[ZipElement]
  {
    match response.count
    case None => Err(RecordCountUnreadable)
    case Some(count) =>
      if count == 0 then Ok(NotFound(idno))
      else if count != 1 then Err(MultipleRecordsFound)
      else
        StructuredFieldsCopies(Blank(idno), response.elements);
        var rec := Registered(idno, response.elements, isLetter);
        Ok(rec.(taxno := SelectTaxno(vatLookup(rec.name), idno)))
  }

  /** getCompanyByIdno: a fresh `Company` filled in from the registry's answer. */
  method GetCompanyByIdno(idno: string, response: RegistryResponse, vatLookup: string -> seq<VatEntry>,
                          isLetter: char -> bool) returns (r: Result<Company>)
    ensures r.Ok? <==> Assemble(idno, response, vatLookup, isLetter).Ok?
    ensures r.Err? ==> r.failure == Assemble(idno, response, vatLookup, isLetter).failure
    ensures r.Ok? ==> fresh(r.value) && r.value.Record() == Assemble(idno, response, vatLookup, isLetter).value
  {
    if response.count.None? {
      return Err(RecordCountUnreadable);
    }
    var count := response.count.value;
    var c := new Company(idno);
    if count == 0 {
      c.name := "Nenalezeno";
      return Ok(c);
    }
    if count != 1 {
      return Err(MultipleRecordsFound);
    }
    var e := response.elements;
    CopyStructuredFields(c, e);
    assert c.Record() == StructuredFields(Blank(idno), e);
    if TextAddressElement in e {
      ParseTextAddress(c, e[TextAddressElement], isLetter);
    }
    assert c.Record() == Registered(idno, e, isLetter);
    c.taxno := GetTaxno(idno, vatLookup(c.name));
    return Ok(c);
  }

  /** The element-by-element copies getCompanyByIdno makes before it reads the
      free-text address. */
  method CopyStructuredFields(c: Company, e: map<string, string>)
    modifies c
    ensures c.created == Dated(old(c.Record()), e).created
    ensures c.name == ElementOr(e, NameElement, old(c.name))
    ensures c.city == ElementOr(e, CityElement, old(c.city))
    ensures c.street == ElementOr(e, StreetElement, old(c.street))
    ensures c.houseNumber == ElementOr(e, AddressNumberElement, ElementOr(e, HouseNumberElement, old(c.houseNumber)))
    ensures c.locationNumber == ElementOr(e, OrientationElement, old(c.locationNumber))
    ensures c.zip == ElementOr(e, ZipElement, old(c.zip))
    ensures c.idno == old(c.idno) && c.taxpf == old(c.taxpf) && c.taxno == old(c.taxno)
  {
    if DateElement in e {
      var date := ParseAresDate(e[DateElement]);
      if date.Some? {
        c.created := date.value;
      }
    }
    // Each element, when present, overwrites its field.
    c.name := ElementOr(e, NameElement, c.name);
    c.city := ElementOr(e, CityElement, c.city);
    c.street := ElementOr(e, StreetElement, c.street);
    c.houseNumber := ElementOr(e, HouseNumberElement, c.houseNumber);
    c.locationNumber := ElementOr(e, OrientationElement, c.locationNumber);
    c.houseNumber := ElementOr(e, AddressNumberElement, c.houseNumber);
    c.zip := ElementOr(e, ZipElement, c.zip);
  }
}
