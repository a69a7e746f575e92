/** The `Company` record of Program.cs: its fields, the formatting of its output
    line, and the normalisation and checksum of the company identifier (IČO). */
module Companies {
  import opened Outcomes
  import opened Text
  import opened Calendar

  /** The widest a name line of the output may be. */
  const NameWidth := 35

  // ---------------------------------------------------------------- name wrap

  /** Where a name longer than `NameWidth` is cut: the last space before position
      `NameWidth`, or `NameWidth` itself (mid-word) when there is none. */
  function WrapIndex(name: string): (w: nat)
    requires |name| > NameWidth
    ensures w <= NameWidth
    ensures w == NameWidth ==> forall k :: 0 <= k < NameWidth ==> name[k] != ' '
    ensures w < NameWidth ==> name[w] == ' ' && forall k :: w < k < NameWidth ==> name[k] != ' '
  {
    var last := LastIndexOf(name[..NameWidth], ' ');
    if last < 0 then NameWidth else last
  }

  /** The first name line: the whole name when it fits, else the part before the cut. */
  function NameLine1(name: string): (line: string)
    ensures |line| <= NameWidth && |line| <= |name| && line == name[..|line|]
    ensures |name| <= NameWidth ==> line == name
  {
    if |name| <= NameWidth then name else name[..WrapIndex(name)]
  }

  /** The second name line: empty when the name fits, else the part from the cut
      on with its leading white space removed. */
  function NameLine2(name: string): (line: string)
    ensures |name| <= NameWidth ==> line == ""
    ensures |line| <= |name| && line == name[|name| - |line|..]
    ensures line == [] || !IsWhiteSpace(line[0])
  {
    if |name| <= NameWidth then "" else TrimStart(name[WrapIndex(name)..])
  }

  /** The two lines cut the name at one point: line 1, then only white space,
      then line 2 make up the whole name. */
  lemma NameLinesCoverName(name: string)
    ensures |NameLine1(name)| + |NameLine2(name)| <= |name|
    ensures name == NameLine1(name) + name[|NameLine1(name)|..|name| - |NameLine2(name)|] + NameLine2(name)
    ensures forall k :: |NameLine1(name)| <= k < |name| - |NameLine2(name)| ==> IsWhiteSpace(name[k])
  {
    var l1, l2 := NameLine1(name), NameLine2(name);
    GapIsWhiteSpace(name);
    var m := |name| - |l2|;
    assert name[..m] == name[..|l1|] + name[|l1|..m];
    assert name == name[..m] + name[m..];
  }

  lemma GapIsWhiteSpace(name: string)
    ensures |NameLine1(name)| + |NameLine2(name)| <= |name|
    ensures forall k :: |NameLine1(name)| <= k < |name| - |NameLine2(name)| ==> IsWhiteSpace(name[k])
  {
    var l1, l2 := NameLine1(name), NameLine2(name);
    if |name| > NameWidth {
      var w := WrapIndex(name);
      var rest := name[w..];
      assert l1 == name[..w];
      assert l2 == TrimStart(rest);
      assert forall k :: 0 <= k < |rest| - |l2| ==> IsWhiteSpace(rest[k]);
      assert forall k :: w <= k < |name| - |l2| ==> name[k] == rest[k - w];
    }
  }

  /** A name without spaces is cut mid-word at `NameWidth`: 41 letters give 35 + 6. */
  lemma WrapWithoutSpaces()
    ensures NameLine1(seq(41, _ => 'A')) == seq(35, _ => 'A')
    ensures NameLine2(seq(41, _ => 'A')) == seq(6, _ => 'A')
  {
    var name := seq(41, _ => 'A');
    assert WrapIndex(name) == NameWidth;
    assert name[NameWidth..] == seq(6, _ => 'A');
  }

  /** A name with spaces is cut at the last space before position 35. */
  lemma WrapAtLastSpace()
    ensures NameLine1("Company Name That Is Quite Long Indeed Yes") == "Company Name That Is Quite Long"
    ensures NameLine2("Company Name That Is Quite Long Indeed Yes") == "Indeed Yes"
  {
    var name := "Company Name That Is Quite Long Indeed Yes";
    ExampleWrapIndex();
    assert name[..31] == "Company Name That Is Quite Long";
    ExampleSecondLine();
  }

  lemma ExampleWrapIndex()
    ensures WrapIndex("Company Name That Is Quite Long Indeed Yes") == 31
  {
    var name := "Company Name That Is Quite Long Indeed Yes";
    var head := name[..NameWidth];
    assert head == "Company Name That Is Quite Long Ind";
    LastIndexOfIs(head, ' ', 31);
  }

  lemma ExampleSecondLine()
    ensures TrimStart("Company Name That Is Quite Long Indeed Yes"[31..]) == "Indeed Yes"
  {
    var rest := "Company Name That Is Quite Long Indeed Yes"[31..];
    assert rest == " Indeed Yes";
    TrimStartOneSpace(rest);
  }

  lemma TrimStartOneSpace(s: string)
    requires |s| >= 2 && IsWhiteSpace(s[0]) && !IsWhiteSpace(s[1])
    ensures TrimStart(s) == s[1..]
  {
  }

  /** `LastIndexOf` finds the occurrence after which there is no other. */
  lemma LastIndexOfIs(s: string, c: char, i: nat)
    requires i < |s| && s[i] == c && forall k :: i < k < |s| ==> s[k] != c
    ensures LastIndexOf(s, c) == i
  {
  }

  /** The cut point of a long name is the last space of the prefix that is left
      once every later space has been stripped. */
  lemma LastSpaceBelowWidth(s: string)
    requires |s| >= NameWidth && LastIndexOf(s, ' ') < NameWidth
    ensures LastIndexOf(s, ' ') == LastIndexOf(s[..NameWidth], ' ')
  {
    var r := LastIndexOf(s, ' ');
    var head := s[..NameWidth];
    if r >= 0 {
      LastIndexOfIs(head, ' ', r);
    } else {
      assert forall k :: 0 <= k < |head| ==> head[k] == s[k];
    }
  }

  // ---------------------------------------------------------------- address and date

  /** The street line: "street house/orientation", or "street house" when there is
      no orientation number. */
  function StreetLine(street: string, houseNumber: string, locationNumber: string): (line: string)
    ensures var j := |street| + 1 + |houseNumber|;
      && |line| == (if locationNumber == "" then j else j + 1 + |locationNumber|)
      && line[..j] == street + " " + houseNumber
      && line[..|street| + 1] == street + " "
      && line[|street| + 1..j] == houseNumber
      && (locationNumber != "" ==> line[j] == '/' && line[j + 1..] == locationNumber)
    ensures '/' !in street + houseNumber ==> ('/' in line <==> locationNumber != "")
  {
    var head := street + " " + houseNumber;
    assert head[..|street| + 1] == street + " ";
    assert head[|street| + 1..] == houseNumber;
    if locationNumber == "" then head
    else
      assert (head + "/" + locationNumber)[..|head|] == head;
      head + "/" + locationNumber
  }

  /** The creation date as "dd.MM.yy", or "" for the zero-tick default. */
  function FormatCreated(created: Date): (text: string)
    ensures text == "" <==> created == MinValue
    ensures text != "" ==> |text| == 8 && text[2] == '.' && text[5] == '.'
    ensures text != "" ==> ParseNat(text[..2]) == Some(created.day)
    ensures text != "" ==> ParseNat(text[3..5]) == Some(created.month)
    ensures text != "" ==> ParseNat(text[6..]) == Some(created.year % 100)
  {
    if created == MinValue then ""
    else
      var dd, mm, yy := TwoDigits(created.day), TwoDigits(created.month), TwoDigits(created.year % 100);
      var text := dd + "." + mm + "." + yy;
      assert text[..2] == dd && text[3..5] == mm && text[6..] == yy;
      text
  }

  // ---------------------------------------------------------------- identifier

  /** The weighted sum of the first `n` digits, digit `i` weighing 8 - i. */
  function WeightedSum(s: string, n: nat): nat
    requires n <= 7 && n <= |s| && AllDigits(s)
  {
    if n == 0 then 0 else WeightedSum(s, n - 1) + DigitValue(s[n - 1]) * (8 - (n - 1))
  }

  /** The check digit the first seven digits call for. */
  function CheckDigit(s: string): (c: nat)
    requires |s| >= 7 && AllDigits(s)
    ensures c <= 9
  {
    var a := WeightedSum(s, 7) % 11;
    if a == 0 then 1 else if a == 1 then 0 else 11 - a
  }

  /** A valid IČO: exactly eight ASCII digits, the last one the check digit. */
  predicate IsIco(s: string) {
    |s| == 8 && AllDigits(s) && DigitValue(s[7]) == CheckDigit(s)
  }

  lemma {:induction false} WeightedSumOfPrefix(s: string, t: string, n: nat)
    requires n <= 7 && n <= |s| && AllDigits(s) && AllDigits(s + t)
    ensures WeightedSum(s + t, n) == WeightedSum(s, n)
  {
    if n > 0 {
      WeightedSumOfPrefix(s, t, n - 1);
      assert (s + t)[n - 1] == s[n - 1];
    }
  }

  /** Any seven digits are completed to a valid IČO by exactly one eighth digit. */
  lemma CheckDigitIsUnique(prefix: string, d: char)
    requires |prefix| == 7 && AllDigits(prefix) && IsDigit(d)
    ensures IsIco(prefix + [d]) <==> DigitValue(d) == CheckDigit(prefix)
  {
    WeightedSumOfPrefix(prefix, [d], 7);
  }

  /** A real identifier is accepted; "25" padded to "00000025" is not. */
  lemma IcoExamples()
    ensures IsIco("25596641")
    ensures PadLeft("25", 8, '0') == "00000025" && !IsIco("00000025")
  {
    assert WeightedSum("25596641", 7) == 176;
    assert WeightedSum("00000025", 7) == 4;
  }

  // ---------------------------------------------------------------- the record

  /** The values of a `Company`'s fields, for stating what operations do to them. */
  datatype CompanyRecord = CompanyRecord(
    name: string, idno: string, taxpf: string, taxno: string,
    street: string, houseNumber: string, locationNumber: string,
    city: string, zip: string, created: Date)

  /** A freshly constructed `Company`: the identifier set, the VAT prefix "CZ",
      every other text empty and the date at zero ticks. */
  function Blank(idno: string): CompanyRecord {
    CompanyRecord("", idno, "CZ", "", "", "", "", "", "", MinValue)
  }

  class Company {
    var name: string
    var idno: string
    var taxpf: string
    var taxno: string
    var street: string
    var houseNumber: string
    var locationNumber: string
    var city: string
    var zip: string
    var created: Date

    constructor (idno: string)
      ensures Record() == Blank(idno)
    {
      this.name := "";
      this.idno := idno;
      this.taxpf := "CZ";
      this.taxno := "";
      this.street := "";
      this.houseNumber := "";
      this.locationNumber := "";
      this.city := "";
      this.zip := "";
      this.created := MinValue;
    }

    function Record(): CompanyRecord
      reads this
    {
      CompanyRecord(name, idno, taxpf, taxno, street, houseNumber, locationNumber, city, zip, created)
    }

    /** getName1: strips the name back to its last space until that space lies
        before position 35. */
    method GetName1() returns (line: string)
      ensures line == NameLine1(name)
    {
      if |name| <= NameWidth {
        return name;
      }
      var iSpace := LastIndexOf(name, ' ');
      var n := if iSpace < 0 then name else name[..iSpace];
      if iSpace < NameWidth {
        LastSpaceBelowWidth(name);
      }
      while iSpace >= NameWidth
        invariant |n| <= |name| && n == name[..|n|]
        invariant iSpace >= NameWidth ==> |n| == iSpace
        invariant iSpace < NameWidth ==> iSpace == LastIndexOf(name[..NameWidth], ' ')
        decreases iSpace
      {
        assert n[..NameWidth] == name[..NameWidth];
        iSpace := LastIndexOf(n, ' ');
        if iSpace < NameWidth {
          LastSpaceBelowWidth(n);
        }
        n := if iSpace < 0 then n else n[..iSpace];
      }
      if iSpace < 0 {
        iSpace := NameWidth;
      }
      line := name[..iSpace];
    }

    /** getName2: the same search for the cut point, returning what follows it. */
    method GetName2() returns (line: string)
      ensures line == NameLine2(name)
    {
      if |name| <= NameWidth {
        return "";
      }
      var iSpace := LastIndexOf(name, ' ');
      var n := if iSpace < 0 then name else name[..iSpace];
      if iSpace < NameWidth {
        LastSpaceBelowWidth(name);
      }
      while iSpace >= NameWidth
        invariant |n| <= |name| && n == name[..|n|]
        invariant iSpace >= NameWidth ==> |n| == iSpace
        invariant iSpace < NameWidth ==> iSpace == LastIndexOf(name[..NameWidth], ' ')
        decreases iSpace
      {
        assert n[..NameWidth] == name[..NameWidth];
        iSpace := LastIndexOf(n, ' ');
        if iSpace < NameWidth {
          LastSpaceBelowWidth(n);
        }
        n := if iSpace < 0 then n else n[..iSpace];
      }
      if iSpace < 0 {
        iSpace := NameWidth;
      }
      line := TrimStart(name[iSpace..]);
    }

    function GetStreet(): string
      reads this
    {
      StreetLine(street, houseNumber, locationNumber)
    }

    function GetCreated(): string
      reads this
    {
      FormatCreated(created)
    }

    /** The values `serialize` writes, in its order. */
    function Fields(): seq<string>
      reads this
    {
      [idno, GetCreated(), NameLine1(name), NameLine2(name), GetStreet(), city, zip, taxpf, taxno]
    }

    /** serialize: the nine values joined by ';'. Splitting at ';' gives them back,
        in order, whenever none of them contains a ';'. */
    function Serialize(): (line: string)
      reads this
      ensures (forall k :: 0 <= k < |Fields()| ==> ';' !in Fields()[k]) ==>
                Split(line, ';') == Fields() && |Split(line, ';')| == 9
    {
      if forall k :: 0 <= k < |Fields()| ==> ';' !in Fields()[k] then
        SplitJoin(';', Fields());
        Join(';', Fields())
      else
        Join(';', Fields())
    }

    /** isValidIdno: the pattern ^\d{8}$, then the weighted mod-11 checksum. */
    static method IsValidIdno(idno: string) returns (valid: bool)
      ensures valid <==> IsIco(idno)
    {
      if !(|idno| == 8 && AllDigits(idno)) {
        return false;
      }
      var a := 0;
      for i := 0 to 7
        invariant a == WeightedSum(idno, i)
      {
        a := a + DigitValue(idno[i]) * (8 - i);
      }
      a := a % 11;
      var c;
      if a == 0 {
        c := 1;
      } else if a == 1 {
        c := 0;
      } else {
        c := 11 - a;
      }
      valid := DigitValue(idno[7]) == c;
    }

    /** formatIco: left-pads with '0' to eight characters, then rejects anything
        that is not a valid IČO. */
    static method FormatIco(idno: string) returns (r: Result<string>)
      ensures r.Ok? <==> IsIco(PadLeft(idno, 8, '0'))
      ensures r.Err? ==> r.failure == IcoInvalid
      ensures |idno| > 8 ==> r.Err?
      ensures r.Ok? ==> |r.value| == 8 && IsIco(r.value) && r.value[8 - |idno|..] == idno
      ensures r.Ok? ==> forall k :: 0 <= k < 8 - |idno| ==> r.value[k] == '0'
      ensures IsIco(idno) ==> r == Ok(idno)
    {
      var padded := PadLeft(idno, 8, '0');
      var valid := IsValidIdno(padded);
      if !valid {
        return Err(IcoInvalid);
      }
      return Ok(padded);
    }
  }
}
