/** The regular expression that AresAPI.parseTextAddress applies to a free-text
    address line,

        ^([\p{L}\s]+)([0-9]+)/?([0-9]?)\s([0-9]{3}\s?[0-9]{2})\s?,\s?([\p{L}]+)

    written out as a deterministic left-to-right matcher (`Match`), together with a
    relational reading of the same pattern (`IsPath`, `IsPreferred`, `Matches`) that
    the matcher is proved to agree with. The letter class `\p{L}` is a parameter. */
module TextAddress {
  import opened Outcomes
  import opened Text

  /** The five groups of a match, as captured (before any trimming). */
  datatype Capture = Capture(street: string, houseNumber: string, locationNumber: string, zip: string, city: string)

  /** What the model needs of `\p{L}`, and what the Unicode letter categories
      satisfy: no letter is an ASCII digit or a white-space character. */
  ghost predicate LetterClass(isLetter: char -> bool) {
    forall c :: isLetter(c) ==> !IsDigit(c) && !IsWhiteSpace(c)
  }

  /** The class `[\p{L}\s]`. */
  function LetterOrSpace(isLetter: char -> bool): char -> bool {
    c => isLetter(c) || IsWhiteSpace(c)
  }

  /** The end of the longest run of characters satisfying `p` that starts at `i`. */
  function Span(s: string, i: nat, p: char -> bool): (j: nat)
    requires i <= |s|
    ensures i <= j <= |s|
    ensures forall k :: i <= k < j ==> p(s[k])
    ensures j == |s| || !p(s[j])
    decreases |s| - i
  {
    if i < |s| && p(s[i]) then Span(s, i + 1, p) else i
  }

  /** A run that cannot be extended is the one `Span` finds. */
  lemma SpanIs(s: string, i: nat, p: char -> bool, j: nat)
    requires i <= j <= |s|
    requires forall k :: i <= k < j ==> p(s[k])
    requires j == |s| || !p(s[j])
    ensures Span(s, i, p) == j
  {
  }

  /** Where the parts of one match of the pattern end: the street group ends at `i`,
      the house number at `j`, the optional '/' at `k`, the orientation number at `l`;
      `s[l]` is the single white space, the postal code's last two digits start at
      `q`, the comma is at `r`, and the city runs from `t` to `u`. */
  datatype Path = Path(i: nat, j: nat, k: nat, l: nat, q: nat, r: nat, t: nat, u: nat)

  /** `([\p{L}\s]+)([0-9]+)`: the street group, then the house number. */
  ghost predicate StreetAndHouse(s: string, x: Path, isLetter: char -> bool)
    requires x.j <= |s|
  {
    && 0 < x.i < x.j
    && (forall n :: 0 <= n < x.i ==> isLetter(s[n]) || IsWhiteSpace(s[n]))
    && AllDigits(s[x.i..x.j])
  }

  /** `/?([0-9]?)\s`: an optional slash, an optional orientation digit, one white space. */
  ghost predicate Orientation(s: string, x: Path)
    requires x.j <= x.k <= x.l < |s|
  {
    && (x.k == x.j || (x.k == x.j + 1 && s[x.j] == '/'))
    && (x.l == x.k || (x.l == x.k + 1 && IsDigit(s[x.k])))
    && IsWhiteSpace(s[x.l])
  }

  /** `([0-9]{3}\s?[0-9]{2})\s?,\s?`: the postal code, then the comma. */
  ghost predicate ZipAndComma(s: string, x: Path)
    requires x.l < x.q < x.r < x.t <= |s|
  {
    && x.l + 4 <= x.q && AllDigits(s[x.l + 1..x.l + 4])
    && (x.q == x.l + 4 || (x.q == x.l + 5 && IsWhiteSpace(s[x.l + 4])))
    && x.q + 2 <= x.r && AllDigits(s[x.q..x.q + 2])
    && (x.r == x.q + 2 || (x.r == x.q + 3 && IsWhiteSpace(s[x.q + 2])))
    && s[x.r] == ','
    && (x.t == x.r + 1 || (x.t == x.r + 2 && IsWhiteSpace(s[x.r + 1])))
  }

  /** `([\p{L}]+)`: the city. */
  ghost predicate City(s: string, x: Path, isLetter: char -> bool)
    requires x.t < x.u <= |s|
  {
    forall n :: x.t <= n < x.u ==> isLetter(s[n])
  }

  /** `x` is a way for the pattern to match a prefix of `s`. */
  ghost predicate IsPath(s: string, x: Path, isLetter: char -> bool) {
    && 0 < x.i < x.j <= x.k <= x.l < x.q < x.r < x.t < x.u <= |s|
    && StreetAndHouse(s, x, isLetter)
    && Orientation(s, x)
    && ZipAndComma(s, x)
    && City(s, x, isLetter)
  }

  /** The path a backtracking engine reports among all paths: the greedy `[0-9]+`
      takes the whole digit run and the greedy `[\p{L}]+` the whole letter run
      (every other choice of the pattern is forced by the character classes). */
  ghost predicate IsPreferred(s: string, x: Path, isLetter: char -> bool)
    requires x.j < |s| && x.u <= |s|
  {
    !IsDigit(s[x.j]) && (x.u == |s| || !isLetter(s[x.u]))
  }

  function CaptureOf(s: string, x: Path): Capture
    requires x.i <= x.j <= x.k <= x.l < x.q + 2 <= x.t <= x.u <= |s|
  {
    Capture(s[..x.i], s[x.i..x.j], s[x.k..x.l], s[x.l + 1..x.q + 2], s[x.t..x.u])
  }

  /** The pattern matches `s` with groups `c`. */
  ghost predicate Matches(s: string, c: Capture, isLetter: char -> bool) {
    exists x :: IsPath(s, x, isLetter) && IsPreferred(s, x, isLetter) && CaptureOf(s, x) == c
  }

  /** `s[n]` is consumed by an optional part `p?` when it is there and satisfies `p`. */
  function Optional(s: string, n: nat, p: char -> bool): (m: nat)
    ensures m == n || (m == n + 1 && n < |s| && p(s[n]))
  {
    if n < |s| && p(s[n]) then n + 1 else n
  }

  predicate IsSlash(c: char) {
    c == '/'
  }

  /** The positions the pattern's parts reach when read left to right from the
      start of `s` (the pattern has no end anchor), each optional part taken
      whenever the next character allows it, as the backtracking engine's first
      success does. */
  function Greedy(s: string, isLetter: char -> bool): Path {
    var i := Span(s, 0, LetterOrSpace(isLetter));     // ([\p{L}\s]+)
    var j := Span(s, i, IsDigit);                      // ([0-9]+)
    var k := Optional(s, j, IsSlash);                  // /?
    var l := Optional(s, k, IsDigit);                  // ([0-9]?), then \s at l
    var q := Optional(s, l + 4, IsWhiteSpace);         // [0-9]{3}\s?
    var r := Optional(s, q + 2, IsWhiteSpace);         // [0-9]{2}\s?, then ',' at r
    var t := Optional(s, r + 1, IsWhiteSpace);         // \s?
    var u := if t <= |s| then Span(s, t, isLetter) else t;  // ([\p{L}]+)
    Path(i, j, k, l, q, r, t, u)
  }

  /** The mandatory parts are there at the positions `Greedy` reached. */
  predicate Complete(s: string, x: Path) {
    && 0 < x.i < x.j
    && x.l < |s| && IsWhiteSpace(s[x.l])
    && x.l + 4 <= |s| && AllDigits(s[x.l + 1..x.l + 4])
    && x.q + 2 <= |s| && AllDigits(s[x.q..x.q + 2])
    && x.r < |s| && s[x.r] == ','
    && x.t < x.u
  }

  /** The pattern's match at the start of `s`, if there is one. Every path it
      returns is the preferred match. */
  function FindPath(s: string, isLetter: char -> bool): (x: Option<Path>)
    ensures x.Some? ==> IsPath(s, x.value, isLetter) && IsPreferred(s, x.value, isLetter)
  {
    var x := Greedy(s, isLetter);
    if Complete(s, x) then
      GreedySound(s, isLetter);
      Some(x)
    else
      None
  }

  /** The greedy positions, once the mandatory parts are found there, are a
      path, and the preferred one. */
  lemma GreedySound(s: string, isLetter: char -> bool)
    requires Complete(s, Greedy(s, isLetter))
    ensures IsPath(s, Greedy(s, isLetter), isLetter) && IsPreferred(s, Greedy(s, isLetter), isLetter)
  {
    var x := Greedy(s, isLetter);
    assert Span(s, 0, LetterOrSpace(isLetter)) == x.i;
    assert x.i <= |s| && Span(s, x.i, IsDigit) == x.j;
    assert x.k == Optional(s, x.j, IsSlash);
    assert x.l == Optional(s, x.k, IsDigit);
    assert x.q == Optional(s, x.l + 4, IsWhiteSpace);
    assert x.r == Optional(s, x.q + 2, IsWhiteSpace);
    assert x.t == Optional(s, x.r + 1, IsWhiteSpace);
    assert x.t <= |s|;
    assert Span(s, x.t, isLetter) == x.u;
    SpansArePath(s, x, isLetter);
  }

  /** A complete path whose positions end the greedy readings of their parts is
      the preferred match. */
  lemma SpansArePath(s: string, x: Path, isLetter: char -> bool)
    requires Complete(s, x)
    requires Span(s, 0, LetterOrSpace(isLetter)) == x.i
    requires x.i <= |s| && Span(s, x.i, IsDigit) == x.j
    requires x.k == Optional(s, x.j, IsSlash)
    requires x.l == Optional(s, x.k, IsDigit)
    requires x.q == Optional(s, x.l + 4, IsWhiteSpace)
    requires x.r == Optional(s, x.q + 2, IsWhiteSpace)
    requires x.t == Optional(s, x.r + 1, IsWhiteSpace)
    requires x.t <= |s| && Span(s, x.t, isLetter) == x.u
    ensures IsPath(s, x, isLetter) && IsPreferred(s, x, isLetter)
  {
    HouseSpan(s, x.i, x.j, isLetter);
    assert Orientation(s, x);
    assert ZipAndComma(s, x);
  }

  /** The street and house-number spans read `([\p{L}\s]+)([0-9]+)`. */
  lemma HouseSpan(s: string, i: nat, j: nat, isLetter: char -> bool)
    requires 0 < i < j && i <= |s|
    requires Span(s, 0, LetterOrSpace(isLetter)) == i
    requires Span(s, i, IsDigit) == j
    ensures forall n :: 0 <= n < i ==> isLetter(s[n]) || IsWhiteSpace(s[n])
    ensures AllDigits(s[i..j])
  {
    forall n | 0 <= n < j - i ensures IsDigit(s[i..j][n]) {
      assert s[i..j][n] == s[i + n];
    }
  }

  /** The groups of the pattern's match at the start of `s`, if it matches. */
  function Match(s: string, isLetter: char -> bool): (m: Option<Capture>)
    ensures m.Some? ==> Matches(s, m.value, isLetter)
  {
    match FindPath(s, isLetter)
    case None => None
    case Some(x) => Some(CaptureOf(s, x))
  }

  /** When the pattern matches, `FindPath` finds that very path. */
  lemma FindPathComplete(s: string, x: Path, isLetter: char -> bool)
    requires LetterClass(isLetter)
    requires IsPath(s, x, isLetter) && IsPreferred(s, x, isLetter)
    ensures FindPath(s, isLetter) == Some(x)
  {
    LeadingSpans(s, x, isLetter);
    MiddlePositions(s, x, isLetter);
    TrailingPositions(s, x, isLetter);
    GreedyIs(s, x, isLetter);
  }

  /** `Greedy` reaches the positions of `x` when each of them is where the
      greedy reading of its part ends. */
  lemma GreedyIs(s: string, x: Path, isLetter: char -> bool)
    requires x.i <= |s| && x.t <= |s|
    requires Span(s, 0, LetterOrSpace(isLetter)) == x.i
    requires Span(s, x.i, IsDigit) == x.j
    requires x.k == Optional(s, x.j, IsSlash)
    requires x.l == Optional(s, x.k, IsDigit)
    requires x.q == Optional(s, x.l + 4, IsWhiteSpace)
    requires x.r == Optional(s, x.q + 2, IsWhiteSpace)
    requires x.t == Optional(s, x.r + 1, IsWhiteSpace)
    requires Span(s, x.t, isLetter) == x.u
    ensures Greedy(s, isLetter) == x
  {
    GreedyHead(s, x, isLetter);
    GreedyTail(s, x, isLetter);
  }

  lemma GreedyHead(s: string, x: Path, isLetter: char -> bool)
    requires x.i <= |s|
    requires Span(s, 0, LetterOrSpace(isLetter)) == x.i
    requires Span(s, x.i, IsDigit) == x.j
    requires x.k == Optional(s, x.j, IsSlash)
    requires x.l == Optional(s, x.k, IsDigit)
    ensures Greedy(s, isLetter).i == x.i && Greedy(s, isLetter).j == x.j
    ensures Greedy(s, isLetter).k == x.k && Greedy(s, isLetter).l == x.l
  {
  }

  lemma GreedyTail(s: string, x: Path, isLetter: char -> bool)
    requires x.t <= |s|
    requires Greedy(s, isLetter).l == x.l
    requires x.q == Optional(s, x.l + 4, IsWhiteSpace)
    requires x.r == Optional(s, x.q + 2, IsWhiteSpace)
    requires x.t == Optional(s, x.r + 1, IsWhiteSpace)
    requires Span(s, x.t, isLetter) == x.u
    ensures Greedy(s, isLetter).q == x.q && Greedy(s, isLetter).r == x.r
    ensures Greedy(s, isLetter).t == x.t && Greedy(s, isLetter).u == x.u
  {
  }

  /** On a path, the slash and the orientation digit are there exactly when the
      next character allows them. */
  lemma MiddlePositions(s: string, x: Path, isLetter: char -> bool)
    requires IsPath(s, x, isLetter)
    ensures x.k == Optional(s, x.j, IsSlash)
    ensures x.l == Optional(s, x.k, IsDigit)
  {
    assert Orientation(s, x);
  }

  /** On a path, each optional white space is there exactly when the next
      character is white space, and the city is the longest letter run. */
  lemma TrailingPositions(s: string, x: Path, isLetter: char -> bool)
    requires LetterClass(isLetter)
    requires IsPath(s, x, isLetter) && IsPreferred(s, x, isLetter)
    ensures x.q == Optional(s, x.l + 4, IsWhiteSpace)
    ensures x.r == Optional(s, x.q + 2, IsWhiteSpace)
    ensures x.t == Optional(s, x.r + 1, IsWhiteSpace)
    ensures Span(s, x.t, isLetter) == x.u
    ensures Complete(s, x)
  {
    ZipPositions(s, x, isLetter);
    assert City(s, x, isLetter);
    SpanIs(s, x.t, isLetter, x.u);
  }

  /** On any path, each optional white space after the orientation number is
      there exactly when the next character is white space. */
  lemma ZipPositions(s: string, x: Path, isLetter: char -> bool)
    requires LetterClass(isLetter)
    requires IsPath(s, x, isLetter)
    ensures x.q == Optional(s, x.l + 4, IsWhiteSpace)
    ensures x.r == Optional(s, x.q + 2, IsWhiteSpace)
    ensures x.t == Optional(s, x.r + 1, IsWhiteSpace)
    ensures Complete(s, x)
  {
    assert ZipAndComma(s, x) && City(s, x, isLetter);
    assert s[x.q..x.q + 2][0] == s[x.q] && IsDigit(s[x.q..x.q + 2][0]);
    assert isLetter(s[x.t]);
  }

  /** A run of characters satisfying `p` from `i` to `j` lies within the one
      `Span` finds. */
  lemma {:induction false} SpanCovers(s: string, i: nat, p: char -> bool, j: nat)
    requires i <= j <= |s|
    requires forall k :: i <= k < j ==> p(s[k])
    ensures Span(s, i, p) >= j
    decreases j - i
  {
    if i < j {
      SpanCovers(s, i + 1, p, j);
    }
  }

  /** On any path, the street group is the longest run of letters and white
      space: the house number's first digit ends it. */
  lemma StreetEnd(s: string, x: Path, isLetter: char -> bool)
    requires LetterClass(isLetter)
    requires IsPath(s, x, isLetter)
    ensures Span(s, 0, LetterOrSpace(isLetter)) == x.i
  {
    var digits := s[x.i..x.j];
    assert IsDigit(digits[0]);
    SpanIs(s, 0, LetterOrSpace(isLetter), x.i);
  }

  /** On any path, the greedy house number, the optional '/' and the optional
      orientation digit that follow it end where the path's orientation number
      ends: a longer house number can only have taken the path's orientation digit. */
  lemma HouseEnd(s: string, x: Path, isLetter: char -> bool)
    requires IsPath(s, x, isLetter)
    ensures var j := Span(s, x.i, IsDigit);
      j >= x.j && Optional(s, Optional(s, j, IsSlash), IsDigit) == x.l
  {
    var digits := s[x.i..x.j];
    forall n | x.i <= n < x.j
      ensures IsDigit(s[n])
    {
      assert s[n] == digits[n - x.i];
    }
    SpanCovers(s, x.i, IsDigit, x.j);
    assert Orientation(s, x);
    if Span(s, x.i, IsDigit) > x.j {
      assert IsDigit(s[x.j]);
      SpanIs(s, x.i, IsDigit, x.l);
    }
  }

  /** Whenever some path of the pattern matches the start of `s`, `FindPath`
      finds one: the greedy reading never misses a match. */
  lemma AnyPathFound(s: string, x: Path, isLetter: char -> bool)
    requires LetterClass(isLetter)
    requires IsPath(s, x, isLetter)
    ensures FindPath(s, isLetter).Some?
  {
    GreedyOfPath(s, x, isLetter);
    ZipPositions(s, x, isLetter);
    CompleteWithLongerRuns(s, x, Greedy(s, isLetter));
  }

  /** On any path, the greedy positions agree with the path's from the
      orientation number on, and the greedy house number and city are at least
      as long as the path's. */
  lemma GreedyOfPath(s: string, x: Path, isLetter: char -> bool)
    requires LetterClass(isLetter)
    requires IsPath(s, x, isLetter)
    ensures var g := Greedy(s, isLetter);
      && g.i == x.i && x.j <= g.j && g.l == x.l
      && g.q == x.q && g.r == x.r && g.t == x.t && x.u <= g.u
  {
    StreetEnd(s, x, isLetter);
    HouseEnd(s, x, isLetter);
    ZipPositions(s, x, isLetter);
    assert City(s, x, isLetter);
    SpanCovers(s, x.t, isLetter, x.u);
    GreedyFromSpans(s, x, isLetter);
  }

  /** Where the greedy positions are when the street run ends at `x.i`, the
      orientation part after the greedy house number ends at `x.l`, and the
      optional white space after it sits as in `x`. */
  lemma GreedyFromSpans(s: string, x: Path, isLetter: char -> bool)
    requires x.i <= |s| && x.t <= |s|
    requires Span(s, 0, LetterOrSpace(isLetter)) == x.i
    requires Optional(s, Optional(s, Span(s, x.i, IsDigit), IsSlash), IsDigit) == x.l
    requires x.q == Optional(s, x.l + 4, IsWhiteSpace)
    requires x.r == Optional(s, x.q + 2, IsWhiteSpace)
    requires x.t == Optional(s, x.r + 1, IsWhiteSpace)
    ensures var g := Greedy(s, isLetter);
      && g.i == x.i && g.j == Span(s, x.i, IsDigit) && g.l == x.l
      && g.q == x.q && g.r == x.r && g.t == x.t && g.u == Span(s, x.t, isLetter)
  {
    var j := Span(s, x.i, IsDigit);
    var y := Path(x.i, j, Optional(s, j, IsSlash), x.l, x.q, x.r, x.t, Span(s, x.t, isLetter));
    GreedyIs(s, y, isLetter);
  }

  /** Longer house-number and city runs keep the mandatory parts complete. */
  lemma CompleteWithLongerRuns(s: string, x: Path, y: Path)
    requires Complete(s, x)
    requires y.i == x.i && x.j <= y.j && y.l == x.l
    requires y.q == x.q && y.r == x.r && y.t == x.t && x.u <= y.u
    ensures Complete(s, y)
  {
  }

  /** Under `LetterClass`, `Match` finds groups exactly when some path of the
      pattern matches the start of `s`. */
  lemma MatchIffSomePath(s: string, isLetter: char -> bool)
    requires LetterClass(isLetter)
    ensures Match(s, isLetter).Some? <==> exists x :: IsPath(s, x, isLetter)
  {
    if x :| IsPath(s, x, isLetter) {
      AnyPathFound(s, x, isLetter);
    }
  }

  /** On a path, the street group and the house number are the longest runs. */
  lemma LeadingSpans(s: string, x: Path, isLetter: char -> bool)
    requires LetterClass(isLetter)
    requires IsPath(s, x, isLetter) && IsPreferred(s, x, isLetter)
    ensures Span(s, 0, LetterOrSpace(isLetter)) == x.i
    ensures Span(s, x.i, IsDigit) == x.j
  {
    var digits := s[x.i..x.j];
    assert IsDigit(digits[0]);
    SpanIs(s, 0, LetterOrSpace(isLetter), x.i);
    forall n | x.i <= n < x.j
      ensures IsDigit(s[n])
    {
      assert s[n] == digits[n - x.i];
    }
    SpanIs(s, x.i, IsDigit, x.j);
  }

  /** Under `LetterClass`, `Match` returns exactly the groups of the pattern's
      match, and nothing when the pattern does not match. */
  lemma MatchIffMatches(s: string, c: Capture, isLetter: char -> bool)
    requires LetterClass(isLetter)
    ensures Match(s, isLetter) == Some(c) <==> Matches(s, c, isLetter)
  {
    if Matches(s, c, isLetter) {
      var x :| IsPath(s, x, isLetter) && IsPreferred(s, x, isLetter) && CaptureOf(s, x) == c;
      FindPathComplete(s, x, isLetter);
    }
  }
}
