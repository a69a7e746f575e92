/** The .NET string operations the modelled code relies on, over `seq<char>`. */
module Text {
  import opened Outcomes

  /** An ASCII decimal digit: the class `[0-9]`, and what `int.Parse` is given here. */
  predicate IsDigit(c: char) {
    '0' <= c <= '9'
  }

  function DigitValue(c: char): (v: nat)
    requires IsDigit(c)
    ensures v < 10
  {
    (c as int - '0' as int) as nat
  }

  function DigitChar(v: nat): (c: char)
    requires v < 10
    ensures IsDigit(c) && DigitValue(c) == v
  {
    ('0' as int + v) as char
  }

  predicate AllDigits(s: string) {
    forall k :: 0 <= k < |s| ==> IsDigit(s[k])
  }

  /** `Char.IsWhiteSpace`, which is also the class `\s` of .NET regular expressions:
      U+0009..U+000D, the space separators, U+0085, U+2028 and U+2029. */
  predicate IsWhiteSpace(c: char) {
    || ('\t' <= c <= '\r')
    || c == ' '
    || c == '\U{85}'
    || c == '\U{A0}'
    || c == '\U{1680}'
    || ('\U{2000}' <= c <= '\U{200A}')
    || c == '\U{2028}'
    || c == '\U{2029}'
    || c == '\U{202F}'
    || c == '\U{205F}'
    || c == '\U{3000}'
  }

  /** White space, digits, ',' and '/' are separate classes, which the address
      pattern relies on to tell its parts apart. */
  lemma WhiteSpaceIsNoSeparator(c: char)
    requires IsWhiteSpace(c)
    ensures !IsDigit(c) && c != ',' && c != '/'
  {
  }

  /** `s.LastIndexOf(c)`: the position of the last `c` in `s`, or -1. */
  function LastIndexOf(s: string, c: char): (r: int)
    ensures -1 <= r < |s|
    ensures r == -1 ==> forall k :: 0 <= k < |s| ==> s[k] != c
    ensures 0 <= r ==> s[r] == c && forall k :: r < k < |s| ==> s[k] != c
  {
    if |s| == 0 then -1
    else if s[|s| - 1] == c then |s| - 1
    else LastIndexOf(s[..|s| - 1], c)
  }

  /** `s.IndexOf(c)`: the position of the first `c` in `s`, or -1. */
  function IndexOf(s: string, c: char): (r: int)
    ensures -1 <= r < |s|
    ensures r == -1 ==> forall k :: 0 <= k < |s| ==> s[k] != c
    ensures 0 <= r ==> s[r] == c && forall k :: 0 <= k < r ==> s[k] != c
  {
    if |s| == 0 then -1
    else if s[0] == c then 0
    else
      var r := IndexOf(s[1..], c);
      if r < 0 then -1 else r + 1
  }

  /** Where the white space at the start of `s[i..]` ends. */
  function SpaceEnd(s: string, i: nat): (j: nat)
    requires i <= |s|
    ensures i <= j <= |s|
    ensures forall k :: i <= k < j ==> IsWhiteSpace(s[k])
    ensures j == |s| || !IsWhiteSpace(s[j])
    decreases |s| - i
  {
    if i < |s| && IsWhiteSpace(s[i]) then SpaceEnd(s, i + 1) else i
  }

  /** Where the white space at the end of `s[..j]` starts. */
  function SpaceStart(s: string, j: nat): (i: nat)
    requires j <= |s|
    ensures i <= j
    ensures forall k :: i <= k < j ==> IsWhiteSpace(s[k])
    ensures i == 0 || !IsWhiteSpace(s[i - 1])
  {
    if j > 0 && IsWhiteSpace(s[j - 1]) then SpaceStart(s, j - 1) else j
  }

  /** `s.TrimStart()`: `s` without its leading white space. */
  function TrimStart(s: string): string
  {
    s[SpaceEnd(s, 0)..]
  }

  /** `s.TrimEnd()`: `s` without its trailing white space. */
  function TrimEnd(s: string): string
  {
    s[..SpaceStart(s, |s|)]
  }

  /** `s.Trim()`: white space removed from both ends. */
  function Trim(s: string): string {
    TrimEnd(TrimStart(s))
  }

  /** What `TrimStart` removes is white space, and what it keeps is a suffix
      that does not start with white space. */
  lemma TrimStartIsSuffix(s: string)
    ensures var r := TrimStart(s);
      && |r| <= |s| && r == s[|s| - |r|..]
      && (forall k :: 0 <= k < |s| - |r| ==> IsWhiteSpace(s[k]))
      && (r == [] || !IsWhiteSpace(r[0]))
  {
  }

  /** What `TrimEnd` removes is white space, and what it keeps is a prefix that
      does not end with white space. */
  lemma TrimEndIsPrefix(s: string)
    ensures var r := TrimEnd(s);
      && |r| <= |s| && r == s[..|r|]
      && (forall k :: |r| <= k < |s| ==> IsWhiteSpace(s[k]))
      && (r == [] || !IsWhiteSpace(r[|r| - 1]))
  {
  }

  /** `Trim` gives a slice of its input with white space at neither end, and
      drops only white space around it. */
  lemma TrimIsTrimmedSlice(s: string)
    ensures var r := Trim(s); var i := |s| - |TrimStart(s)|;
      && IsTrimmed(r)
      && i + |r| <= |s| && r == s[i..i + |r|]
      && (forall k :: 0 <= k < i ==> IsWhiteSpace(s[k]))
      && (forall k :: i + |r| <= k < |s| ==> IsWhiteSpace(s[k]))
  {
    var t := TrimStart(s);
    var r := Trim(s);
    var i := |s| - |t|;
    TrimStartIsSuffix(s);
    TrimEndIsPrefix(t);
    assert r == [] || r[0] == t[0];
    assert r == s[i..i + |r|];
    forall k | i + |r| <= k < |s| ensures IsWhiteSpace(s[k]) {
      assert s[k] == t[k - i];
    }
  }

  /** A string that `Trim` leaves as it is. */
  predicate IsTrimmed(s: string) {
    s == [] || (!IsWhiteSpace(s[0]) && !IsWhiteSpace(s[|s| - 1]))
  }

  lemma TrimOfTrimmed(s: string)
    requires IsTrimmed(s)
    ensures Trim(s) == s
  {
  }

  /** No digit is white space, so a text of digits is its own trim. */
  lemma TrimOfDigits(s: string)
    requires AllDigits(s)
    ensures Trim(s) == s
  {
    if s != [] {
      assert IsDigit(s[0]) && IsDigit(s[|s| - 1]);
    }
    TrimOfTrimmed(s);
  }

  /** Trimming a trimmed text followed by one white-space character gives the text back. */
  lemma TrimDropsTrailingSpace(s: string, w: char)
    requires IsTrimmed(s) && IsWhiteSpace(w)
    ensures Trim(s + [w]) == s
  {
    if s == [] {
      assert TrimStart([w]) == TrimStart([]);
    } else {
      assert TrimStart(s + [w]) == s + [w];
      assert (s + [w])[..|s|] == s;
    }
  }

  /** `s.PadLeft(width, pad)`: `pad` characters prepended until `s` is `width` long;
      a longer `s` is returned as it is, never truncated. */
  function PadLeft(s: string, width: nat, pad: char): (r: string)
    ensures |r| == if |s| < width then width else |s|
    ensures r[|r| - |s|..] == s
    ensures forall k :: 0 <= k < |r| - |s| ==> r[k] == pad
  {
    if |s| < width then seq(width - |s|, _ => pad) + s else s
  }

  /** `pat` occurs in `s` at position `k`. */
  predicate OccursAt(s: string, pat: string, k: nat) {
    k + |pat| <= |s| && s[k..k + |pat|] == pat
  }

  /** `s.Replace(pat, "")`: every occurrence of `pat`, scanned left to right without
      overlap, removed. */
  function RemoveAll(s: string, pat: string): (r: string)
    requires pat != []
    ensures |r| <= |s|
    ensures (forall k: nat :: !OccursAt(s, pat, k)) ==> r == s
    decreases |s|
  {
    if |s| < |pat| then s
    else if s[..|pat|] == pat then
      assert OccursAt(s, pat, 0);
      RemoveAll(s[|pat|..], pat)
    else
      assert forall k: nat :: OccursAt(s[1..], pat, k) ==> OccursAt(s, pat, k + 1);
      [s[0]] + RemoveAll(s[1..], pat)
  }

  /** A leading occurrence is dropped and the rest is processed as on its own. */
  lemma RemoveAllPrefix(pat: string, s: string)
    requires pat != []
    ensures RemoveAll(pat + s, pat) == RemoveAll(s, pat)
  {
    assert (pat + s)[..|pat|] == pat;
    assert (pat + s)[|pat|..] == s;
  }

  /** An occurrence of the pattern with none before it is removed, and the text
      before it kept. */
  lemma {:induction false} RemoveAllSplits(a: string, pat: string, b: string)
    requires pat != []
    requires forall k :: 0 <= k < |a| ==> !OccursAt(a + pat + b, pat, k)
    ensures RemoveAll(a + pat + b, pat) == a + RemoveAll(b, pat)
    decreases |a|
  {
    if a == [] {
      assert a + pat + b == pat + b;
      RemoveAllPrefix(pat, b);
    } else {
      var s := a + pat + b;
      RemoveAllStep(s, pat);
      NoOccurrenceInTail(s, pat, |a|);
      assert s[1..] == a[1..] + pat + b;
      RemoveAllSplits(a[1..], pat, b);
      ConsPrefix(a, RemoveAll(b, pat));
    }
  }

  /** Without an occurrence at the start, the first character is kept. */
  lemma RemoveAllStep(s: string, pat: string)
    requires pat != [] && |pat| <= |s| && !OccursAt(s, pat, 0)
    ensures RemoveAll(s, pat) == [s[0]] + RemoveAll(s[1..], pat)
  {
    assert s[..|pat|] != pat;
  }

  lemma ConsPrefix(a: string, rest: string)
    requires a != []
    ensures a + rest == [a[0]] + (a[1..] + rest)
  {
    assert a == [a[0]] + a[1..];
  }

  /** No occurrence before position `n` of `s` means none before `n - 1` of `s[1..]`. */
  lemma NoOccurrenceInTail(s: string, pat: string, n: nat)
    requires 0 < n <= |s|
    requires forall k :: 0 <= k < n ==> !OccursAt(s, pat, k)
    ensures forall k :: 0 <= k < n - 1 ==> !OccursAt(s[1..], pat, k)
  {
    forall k | 0 <= k < n - 1 ensures !OccursAt(s[1..], pat, k) {
      assert !OccursAt(s, pat, k + 1);
      if k + |pat| <= |s[1..]| {
        assert s[1..][k..k + |pat|] == s[k + 1..k + 1 + |pat|];
      }
    }
  }

  /** A text without the pattern's first character is left as it is. */
  lemma RemoveAllWithout(s: string, pat: string)
    requires pat != [] && pat[0] !in s
    ensures RemoveAll(s, pat) == s
  {
    assert forall k: nat :: !OccursAt(s, pat, k);
  }

  /** Removing the spaces from two space-free texts joined by one space joins them. */
  lemma RemoveSpaceBetween(a: string, b: string)
    requires ' ' !in a && ' ' !in b
    ensures RemoveAll(a + " " + b, " ") == a + b
  {
    var s := a + " " + b;
    forall k | 0 <= k < |a|
      ensures !OccursAt(s, " ", k)
    {
      assert s[k..k + 1][0] == s[k] == a[k];
    }
    RemoveAllSplits(a, " ", b);
    RemoveAllWithout(b, " ");
  }

  /** `string.Split(sep)`: the pieces between the separators, empty ones included. */
  function Split(s: string, sep: char): (parts: seq<string>)
    ensures |parts| >= 1
    ensures forall part <- parts :: sep !in part
    decreases |s|
  {
    var i := IndexOf(s, sep);
    if i < 0 then [s]
    else
      var rest := Split(s[i + 1..], sep);
      assert sep !in s[..i] by {
        assert forall k :: 0 <= k < i ==> s[..i][k] == s[k];
      }
      [s[..i]] + rest
  }

  /** `string.Join(sep, parts)`: the text starts with the first part, followed
      by the separator when there are more parts. */
  function Join(sep: char, parts: seq<string>): (r: string)
    ensures |parts| >= 1 ==> |parts[0]| <= |r| && r[..|parts[0]|] == parts[0]
    ensures |parts| >= 2 ==> |parts[0]| < |r| && r[|parts[0]|] == sep
  {
    if |parts| == 0 then ""
    else if |parts| == 1 then parts[0]
    else
      var rest := Join(sep, parts[1..]);
      assert (parts[0] + [sep] + rest)[..|parts[0]|] == parts[0];
      parts[0] + [sep] + rest
  }

  /** Joining the parts of a split gives the text back. */
  lemma {:induction false} JoinSplit(s: string, sep: char)
    ensures Join(sep, Split(s, sep)) == s
    decreases |s|
  {
    var i := IndexOf(s, sep);
    if i >= 0 {
      var rest := s[i + 1..];
      JoinSplit(rest, sep);
      JoinCons(s[..i], sep, Split(rest, sep));
      assert s == s[..i] + [sep] + rest;
    }
  }

  /** Joining a head before a non-empty list puts one separator between them. */
  lemma JoinCons(head: string, sep: char, parts: seq<string>)
    requires |parts| >= 1
    ensures Join(sep, [head] + parts) == head + [sep] + Join(sep, parts)
  {
    assert ([head] + parts)[1..] == parts;
  }

  /** A separator after a separator-free head splits off exactly that head. */
  lemma SplitCons(head: string, sep: char, tail: string)
    requires sep !in head
    ensures Split(head + [sep] + tail, sep) == [head] + Split(tail, sep)
  {
    var s := head + [sep] + tail;
    assert s[|head|] == sep;
    assert forall k :: 0 <= k < |head| ==> s[k] == head[k];
    assert IndexOf(s, sep) == |head|;
    assert s[..|head|] == head;
    assert s[|head| + 1..] == tail;
  }

  /** Splitting a joined list at the separator gives the list back, when no
      element contains the separator. */
  lemma {:induction false} SplitJoin(sep: char, parts: seq<string>)
    requires |parts| >= 1
    requires forall k :: 0 <= k < |parts| ==> sep !in parts[k]
    ensures Split(Join(sep, parts), sep) == parts
    decreases |parts|
  {
    if |parts| == 1 {
      assert IndexOf(parts[0], sep) == -1;
    } else {
      SplitCons(parts[0], sep, Join(sep, parts[1..]));
      SplitJoin(sep, parts[1..]);
    }
  }

  /** The value of a string of ASCII digits, most significant first. */
  function DigitsValue(s: string): nat
    requires AllDigits(s)
  {
    if s == [] then 0 else DigitsValue(s[..|s| - 1]) * 10 + DigitValue(s[|s| - 1])
  }

  /** Leading zeros do not change the value of a string of digits. */
  lemma {:induction false} LeadingZeros(zeros: string, s: string)
    requires forall k :: 0 <= k < |zeros| ==> zeros[k] == '0'
    requires AllDigits(s)
    ensures AllDigits(zeros + s) && DigitsValue(zeros + s) == DigitsValue(s)
    decreases |s|, |zeros|
  {
    var z := zeros + s;
    assert forall k :: 0 <= k < |z| ==> z[k] == (if k < |zeros| then zeros[k] else s[k - |zeros|]);
    if s == [] {
      if zeros != [] {
        assert z[..|z| - 1] == zeros[..|zeros| - 1] + [];
        LeadingZeros(zeros[..|zeros| - 1], []);
      }
    } else {
      assert z[..|z| - 1] == zeros + s[..|s| - 1];
      LeadingZeros(zeros, s[..|s| - 1]);
    }
  }

  /** `int.Parse` restricted to ASCII digits: `None` stands for the exception it
      throws on an empty or non-numeric text. */
  function ParseNat(s: string): (r: Option<nat>)
    ensures r.Some? <==> s != [] && AllDigits(s)
  {
    if s != [] && AllDigits(s) then Some(DigitsValue(s)) else None
  }

  /** The decimal digits of `n`, without leading zeros. */
  function Decimal(n: nat): (s: string)
    ensures s != [] && AllDigits(s)
  {
    if n < 10 then [DigitChar(n)] else Decimal(n / 10) + [DigitChar(n % 10)]
  }

  lemma {:induction false} ParseDecimal(n: nat)
    ensures ParseNat(Decimal(n)) == Some(n)
  {
    var s := Decimal(n);
    if n < 10 {
      assert s[..|s| - 1] == [];
    } else {
      ParseDecimal(n / 10);
      assert s[..|s| - 1] == Decimal(n / 10);
      assert DigitsValue(s) == (n / 10) * 10 + n % 10;
    }
  }

  /** The custom format "00" (also "dd", "MM", "yy"): exactly two digits, a leading zero
      when needed. */
  function TwoDigits(n: nat): (s: string)
    requires n < 100
    ensures |s| == 2 && AllDigits(s) && DigitsValue(s) == n
  {
    var s := [DigitChar(n / 10), DigitChar(n % 10)];
    assert s[..1] == [DigitChar(n / 10)] && s[..1][..0] == [];
    assert DigitsValue(s[..1]) == n / 10;
    assert DigitsValue(s) == (n / 10) * 10 + n % 10;
    s
  }
}
