/**
 * The fixed-width regular expressions of the PAN parser as explicit
 * character-class sequences, and the leftmost-first search a regular
 * expression engine performs when `match` scans a string.
 */
module Patterns {
  import opened Common
  import opened Text

  /**
   * The leftmost position in `[from, n)` satisfying `P`: a regular
   * expression engine tries start positions from left to right and reports
   * the first one at which the pattern matches.
   */
  function FirstWhere(n: nat, from: nat, P: nat -> bool): (r: Option<nat>)
    decreases n - from
    ensures r.Some? ==> from <= r.value < n && P(r.value)
    ensures r.Some? ==> forall j | from <= j < r.value :: !P(j)
    ensures r.None? ==> forall j | from <= j < n :: !P(j)
  {
    if from >= n then None
    else if P(from) then Some(from)
    else FirstWhere(n, from + 1, P)
  }

  /**
   * A left-to-right scan that has rejected every position before `j` stops
   * at `j` if `j` passes, and finds nothing if `j` is the end.
   */
  lemma FirstWhereStops(n: nat, from: nat, P: nat -> bool, j: nat)
    requires from <= j
    requires forall k | from <= k < j && k < n :: !P(k)
    ensures j < n && P(j) ==> FirstWhere(n, from, P) == Some(j)
    ensures j >= n ==> FirstWhere(n, from, P) == None
  {
  }

  /** A character class of the parser's patterns: `[A-Z]`, `[0-9]` (or `\d`), `[\/\-\.]`. */
  datatype CharClass = Letter | Digit | DateSep

  predicate InClass(c: char, k: CharClass)
  {
    match k
    case Letter => IsUpper(c)
    case Digit => IsDigit(c)
    case DateSep => c == '/' || c == '-' || c == '.'
  }

  lemma ClassExcludesWs(c: char, k: CharClass)
    requires InClass(c, k)
    ensures !IsWs(c)
  {
  }

  /** The pattern matches the text starting at position `i`. */
  predicate MatchesAt(s: string, i: nat, pat: seq<CharClass>)
  {
    i + |pat| <= |s| && forall k | 0 <= k < |pat| :: InClass(s[i + k], pat[k])
  }

  function MatchesAtFn(s: string, pat: seq<CharClass>): nat -> bool
  {
    (i: nat) => MatchesAt(s, i, pat)
  }

  /** The start of the leftmost match of `pat` in `s`. */
  function MatchIndex(s: string, pat: seq<CharClass>): (r: Option<nat>)
    ensures r.Some? ==> MatchesAt(s, r.value, pat) && forall j: nat | j < r.value :: !MatchesAt(s, j, pat)
    ensures r.None? ==> forall j: nat | j <= |s| :: !MatchesAt(s, j, pat)
  {
    var P := MatchesAtFn(s, pat);
    assert forall j: nat :: P(j) == MatchesAt(s, j, pat);
    FirstWhere(|s| + 1, 0, P)
  }

  /** `s.match(pattern)?.[0]` for an unanchored fixed-width pattern. */
  function FirstMatch(s: string, pat: seq<CharClass>): (r: Option<string>)
    ensures r.Some? <==> MatchIndex(s, pat).Some?
    ensures r.Some? ==> |r.value| == |pat| && MatchesAt(r.value, 0, pat)
    ensures r.Some? ==> r.value == s[MatchIndex(s, pat).value..MatchIndex(s, pat).value + |pat|]
  {
    match MatchIndex(s, pat)
    case None => None
    case Some(i) =>
      var m := s[i..i + |pat|];
      assert forall k | 0 <= k < |pat| :: m[k] == s[i + k];
      Some(m)
  }

  /** `/[A-Z]{5}[0-9]{4}[A-Z]/` */
  const PanPattern: seq<CharClass> := [Letter, Letter, Letter, Letter, Letter, Digit, Digit, Digit, Digit, Letter]

  /** `/\d{2}[\/\-\.]\d{2}[\/\-\.]\d{4}/` */
  const DobPattern: seq<CharClass> := [Digit, Digit, DateSep, Digit, Digit, DateSep, Digit, Digit, Digit, Digit]

  /** `/^[A-Z]{5}[0-9]{4}[A-Z]$/` */
  predicate IsPanShape(s: string)
  {
    |s| == 10 && MatchesAt(s, 0, PanPattern)
  }

  /** A match of a pattern contains no white space, in particular no space. */
  lemma MatchHasNoWs(s: string, i: nat, pat: seq<CharClass>)
    requires MatchesAt(s, i, pat)
    ensures forall k | i <= k < i + |pat| :: !IsWs(s[k])
  {
    forall k | i <= k < i + |pat|
      ensures !IsWs(s[k])
    {
      ClassExcludesWs(s[i + (k - i)], pat[k - i]);
    }
  }
}
