/**
 * `OcrService.parseChequeText` (`src/modules/ocr/ocr.service.ts`): the
 * cheque fields a regular-expression search finds in the upper-cased,
 * space-joined Vision lines.
 *
 * Each regular expression is stated as a predicate over a start position,
 * and `match` reports the leftmost start at which the predicate holds
 * (`Patterns.FirstWhere`). Where a pattern has a variable repetition, the
 * lemmas show that at a given start at most one repetition count can match,
 * so the order in which a backtracking engine tries them does not matter.
 */
module ChequeText {
  import opened Common
  import opened Text
  import opened Patterns

  /** `\b` at position `i`: exactly one of the two characters around it is a word character. */
  predicate WordBoundary(s: string, i: nat)
  {
    (0 < i <= |s| && IsWordChar(s[i - 1])) != (i < |s| && IsWordChar(s[i]))
  }

  /** The classes a greedy repetition consumes: `\d`, `[\d,]` and `\s`. */
  datatype RunClass = Digits | DigitsOrCommas | Spaces

  predicate InRun(c: char, k: RunClass)
  {
    match k
    case Digits => IsDigit(c)
    case DigitsOrCommas => IsDigit(c) || c == ','
    case Spaces => IsWs(c)
  }

  /** The longest stretch of class `k` from `i` on: what a greedy `k*` consumes (none past the end). */
  function RunLength(s: string, i: nat, k: RunClass): (n: nat)
    ensures n == 0 || i + n <= |s|
    ensures forall j | i <= j < i + n :: InRun(s[j], k)
    ensures i + n >= |s| || !InRun(s[i + n], k)
    decreases |s| - i
  {
    if i < |s| && InRun(s[i], k) then 1 + RunLength(s, i + 1, k) else 0
  }

  /** A stretch of the class is no longer than the run, and is the run when it ends at a character outside it. */
  lemma {:induction false} RunIsMaximal(s: string, i: nat, k: RunClass, n: nat)
    requires i + n <= |s|
    requires forall j | i <= j < i + n :: InRun(s[j], k)
    ensures n <= RunLength(s, i, k)
    ensures (i + n == |s| || !InRun(s[i + n], k)) ==> n == RunLength(s, i, k)
    decreases n
  {
    if n > 0 {
      RunIsMaximal(s, i + 1, k, n - 1);
    }
  }

  // ---------------------------------------------------------------------------
  // \b\d{lo,hi}\b
  // ---------------------------------------------------------------------------

  /** `\b\d{lo,hi}\b` can match `s[i..i + len]`. */
  predicate DigitWordOfLength(s: string, i: nat, len: nat, lo: nat, hi: nat)
  {
    lo <= len <= hi && i + len <= |s| && WordBoundary(s, i) && WordBoundary(s, i + len) &&
    forall j | i <= j < i + len :: IsDigit(s[j])
  }

  /** The match at `i`, if any, is the whole digit run from `i`. */
  predicate DigitWordAt(s: string, i: nat, lo: nat, hi: nat)
  {
    i <= |s| && DigitWordOfLength(s, i, RunLength(s, i, Digits), lo, hi)
  }

  /** Only one repetition count can match at a start: the length of the digit run there. */
  lemma DigitWordUnique(s: string, i: nat, len: nat, lo: nat, hi: nat)
    requires 1 <= lo && DigitWordOfLength(s, i, len, lo, hi)
    ensures len == RunLength(s, i, Digits) && DigitWordAt(s, i, lo, hi)
  {
    assert IsWordChar(s[i + len - 1]);
    RunIsMaximal(s, i, Digits, len);
  }

  function DigitWordAtFn(s: string, lo: nat, hi: nat): nat -> bool
  {
    (i: nat) => DigitWordAt(s, i, lo, hi)
  }

  /** The start of the leftmost match of `\b\d{lo,hi}\b`. */
  function DigitWordIndex(s: string, lo: nat, hi: nat): (r: Option<nat>)
    ensures r.Some? ==> DigitWordAt(s, r.value, lo, hi) && forall j: nat | j < r.value :: !DigitWordAt(s, j, lo, hi)
    ensures r.None? ==> forall j: nat | j <= |s| :: !DigitWordAt(s, j, lo, hi)
  {
    var P := DigitWordAtFn(s, lo, hi);
    assert forall j: nat :: P(j) == DigitWordAt(s, j, lo, hi);
    FirstWhere(|s| + 1, 0, P)
  }

  /** `s.match(/\b\d{lo,hi}\b/)?.[0]` */
  function FirstDigitWord(s: string, lo: nat, hi: nat): (r: Option<string>)
    ensures r.Some? <==> DigitWordIndex(s, lo, hi).Some?
    ensures r.Some? ==> lo <= |r.value| <= hi && forall t | 0 <= t < |r.value| :: IsDigit(r.value[t])
    ensures r.Some? ==> DigitWordIndex(s, lo, hi).value + |r.value| <= |s| &&
                        r.value == s[DigitWordIndex(s, lo, hi).value..DigitWordIndex(s, lo, hi).value + |r.value|]
  {
    match DigitWordIndex(s, lo, hi)
    case None => None
    case Some(i) => Some(s[i..i + RunLength(s, i, Digits)])
  }

  /**
   * Two matches of digit words of disjoint length ranges never overlap: a
   * match is a whole digit run, and two runs either coincide or are apart.
   */
  lemma DigitWordsApart(s: string, i: nat, lo: nat, hi: nat, i': nat, lo': nat, hi': nat)
    requires 1 <= lo && 1 <= lo' && hi < lo'
    requires DigitWordAt(s, i, lo, hi) && DigitWordAt(s, i', lo', hi')
    ensures i + RunLength(s, i, Digits) <= i' || i' + RunLength(s, i', Digits) <= i
  {
  }

  // ---------------------------------------------------------------------------
  // \b[A-Z]{4}\d{7}\b
  // ---------------------------------------------------------------------------

  /** `\b[A-Z]{4}\d{7}\b` matches at `i`; the pattern has a fixed width. */
  predicate IfscAt(s: string, i: nat)
  {
    i + 11 <= |s| && WordBoundary(s, i) && WordBoundary(s, i + 11) &&
    (forall k | i <= k < i + 4 :: IsUpper(s[k])) && (forall k | i + 4 <= k < i + 11 :: IsDigit(s[k]))
  }

  /** Four capital letters, then seven digits. */
  predicate IsIfscShape(v: string)
  {
    |v| == 11 && (forall t | 0 <= t < 4 :: IsUpper(v[t])) && (forall t | 4 <= t < 11 :: IsDigit(v[t]))
  }

  function IfscAtFn(s: string): nat -> bool
  {
    (i: nat) => IfscAt(s, i)
  }

  /** `s.match(/\b[A-Z]{4}\d{7}\b/)?.[0]`: the leftmost match. */
  function FirstIfsc(s: string): (r: Option<string>)
    ensures r.Some? ==> IsIfscShape(r.value)
    ensures r.Some? ==> exists i: nat | i + 11 <= |s| :: IfscAt(s, i) && r.value == s[i..i + 11] &&
                                                         forall j: nat | j < i :: !IfscAt(s, j)
    ensures r.None? ==> forall j: nat | j <= |s| :: !IfscAt(s, j)
  {
    var P := IfscAtFn(s);
    assert forall j: nat :: P(j) == IfscAt(s, j);
    match FirstWhere(|s| + 1, 0, P)
    case None => None
    case Some(i) =>
      var m := s[i..i + 11];
      assert forall k | 0 <= k < 11 :: m[k] == s[i + k];
      Some(m)
  }

  // ---------------------------------------------------------------------------
  // \b\d{1,2}[/-]\d{1,2}[/-]\d{2,4}\b
  // ---------------------------------------------------------------------------

  predicate IsDateSep(c: char)
  {
    c == '/' || c == '-'
  }

  /** `\b\d{a}[/-]\d{b}[/-]\d{c}\b` matches at `i` with these repetition counts. */
  predicate DateOfShape(s: string, i: nat, a: nat, b: nat, c: nat)
  {
    1 <= a <= 2 && 1 <= b <= 2 && 2 <= c <= 4 && i + a + b + c + 2 <= |s| &&
    WordBoundary(s, i) && WordBoundary(s, i + a + b + c + 2) &&
    (forall j | i <= j < i + a :: IsDigit(s[j])) &&
    IsDateSep(s[i + a]) &&
    (forall j | i + a + 1 <= j < i + a + 1 + b :: IsDigit(s[j])) &&
    IsDateSep(s[i + a + 1 + b]) &&
    (forall j | i + a + b + 2 <= j < i + a + b + 2 + c :: IsDigit(s[j]))
  }

  /** `\b\d{1,2}[/-]\d{1,2}[/-]\d{2,4}\b` matches at `i`, with some choice of repetition counts. */
  predicate DateAt(s: string, i: nat)
  {
    exists a: nat, b: nat, c: nat | 1 <= a <= 2 && 1 <= b <= 2 && 2 <= c <= 4 :: DateOfShape(s, i, a, b, c)
  }

  /** A digit stretch followed by a word boundary is the whole digit run. */
  lemma DigitsToBoundary(s: string, j: nat, n: nat)
    requires 1 <= n && j + n <= |s| && WordBoundary(s, j + n)
    requires forall t | j <= t < j + n :: IsDigit(s[t])
    ensures n == RunLength(s, j, Digits)
  {
    assert IsWordChar(s[j + n - 1]);
    RunIsMaximal(s, j, Digits, n);
  }

  /** The repetition counts of a date match are the digit runs at its start. */
  lemma DateShapeRuns(s: string, i: nat, a: nat, b: nat, c: nat)
    requires DateOfShape(s, i, a, b, c)
    ensures a == RunLength(s, i, Digits)
    ensures b == RunLength(s, i + a + 1, Digits)
    ensures c == RunLength(s, i + a + b + 2, Digits)
  {
    RunIsMaximal(s, i, Digits, a);
    RunIsMaximal(s, i + a + 1, Digits, b);
    DigitsToBoundary(s, i + a + b + 2, c);
  }

  /** The digit runs at `i` and after the two separators, with the separators. */
  function DateRunSum(s: string, i: nat): nat
  {
    var a := RunLength(s, i, Digits);
    var b := RunLength(s, i + a + 1, Digits);
    a + b + RunLength(s, i + a + b + 2, Digits) + 2
  }

  lemma DateRunSumOfShapes(s: string, i: nat)
    requires DateAt(s, i)
    ensures forall a: nat, b: nat, c: nat | DateOfShape(s, i, a, b, c) :: DateRunSum(s, i) == a + b + c + 2
    ensures 6 <= DateRunSum(s, i) <= 10 && i + DateRunSum(s, i) <= |s|
  {
    forall a: nat, b: nat, c: nat | DateOfShape(s, i, a, b, c) ensures DateRunSum(s, i) == a + b + c + 2 {
      DateShapeRuns(s, i, a, b, c);
    }
  }

  /** The length of the date match at `i`, whichever counts match. */
  function DateLength(s: string, i: nat): (n: nat)
    requires DateAt(s, i)
    ensures 6 <= n <= 10 && i + n <= |s|
    ensures forall a: nat, b: nat, c: nat | DateOfShape(s, i, a, b, c) :: n == a + b + c + 2
  {
    DateRunSumOfShapes(s, i);
    DateRunSum(s, i)
  }

  function DateAtFn(s: string): nat -> bool
  {
    (i: nat) => DateAt(s, i)
  }

  /** The start of the leftmost date match. */
  function DateIndex(s: string): (r: Option<nat>)
    ensures r.Some? ==> DateAt(s, r.value) && forall j: nat | j < r.value :: !DateAt(s, j)
    ensures r.None? ==> forall j: nat | j <= |s| :: !DateAt(s, j)
  {
    var P := DateAtFn(s);
    assert forall j: nat :: P(j) == DateAt(s, j);
    FirstWhere(|s| + 1, 0, P)
  }

  /** `s.match(/\b\d{1,2}[/-]\d{1,2}[/-]\d{2,4}\b/)?.[0]` */
  function FirstDate(s: string): (r: Option<string>)
    ensures r.Some? <==> DateIndex(s).Some?
    ensures r.Some? ==> 6 <= |r.value| <= 10 && (IsDateSep(r.value[1]) || IsDateSep(r.value[2]))
    ensures r.Some? ==> IsDigit(r.value[0]) && IsDigit(r.value[|r.value| - 1])
    ensures r.Some? ==> DateIndex(s).value + |r.value| <= |s| &&
                        r.value == s[DateIndex(s).value..DateIndex(s).value + |r.value|]
  {
    match DateIndex(s)
    case None => None
    case Some(i) =>
      var m := s[i..i + DateLength(s, i)];
      assert m[RunLength(s, i, Digits)] == s[i + RunLength(s, i, Digits)];
      Some(m)
  }

  // ---------------------------------------------------------------------------
  // ₹\s*([\d,]+\.?\d*)
  // ---------------------------------------------------------------------------

  const Rupee: char := '\U{20B9}'

  /** Where the amount's group starts, after the rupee sign and the greedy `\s*`. */
  function AmountStart(s: string, i: nat): (j: nat)
    requires i < |s|
    ensures j <= |s|
  {
    i + 1 + RunLength(s, i + 1, Spaces)
  }

  /**
   * `₹\s*([\d,]+\.?\d*)` matches at `i`. Giving back white space cannot
   * help, since `[\d,]` accepts no white space, and the tail `\.?\d*` always
   * matches, so the greedy reading is the one the engine reports.
   */
  predicate AmountAt(s: string, i: nat)
  {
    i < |s| && s[i] == Rupee && RunLength(s, AmountStart(s, i), DigitsOrCommas) >= 1
  }

  /** Group 1 of the amount match at `i`: the digits and commas, then a point and digits if present. */
  function AmountGroup(s: string, i: nat): (g: string)
    requires AmountAt(s, i)
    ensures g != "" && (IsDigit(g[0]) || g[0] == ',')
    ensures forall t | 0 <= t < |g| :: IsDigit(g[t]) || g[t] == ',' || g[t] == '.'
    ensures forall t | 0 <= t < |g| && g[t] == '.' :: forall u | t < u < |g| :: IsDigit(g[u])
  {
    var j := AmountStart(s, i);
    var k := j + RunLength(s, j, DigitsOrCommas);
    if k < |s| && s[k] == '.' then s[j..k + 1 + RunLength(s, k + 1, Digits)] else s[j..k]
  }

  function AmountAtFn(s: string): nat -> bool
  {
    (i: nat) => AmountAt(s, i)
  }

  /** `s.match(/₹\s*([\d,]+\.?\d*)/)?.[1]`, from the leftmost match. */
  function FirstAmount(s: string): (r: Option<string>)
    ensures r.Some? ==> exists i: nat | i < |s| :: AmountAt(s, i) && r.value == AmountGroup(s, i) &&
                                                   forall j: nat | j < i :: !AmountAt(s, j)
    ensures r.None? ==> forall j: nat | j <= |s| :: !AmountAt(s, j)
    ensures Rupee !in s ==> r.None?
  {
    var P := AmountAtFn(s);
    assert forall j: nat :: P(j) == AmountAt(s, j);
    match FirstWhere(|s| + 1, 0, P)
    case None => None
    case Some(i) => Some(AmountGroup(s, i))
  }

  // ---------------------------------------------------------------------------
  // parseChequeText
  // ---------------------------------------------------------------------------

  /** The object `parseChequeText` returns; an unset field is `None`. */
  datatype ChequeFields = ChequeFields(
    accountNumber: Option<string>, ifscCode: Option<string>, chequeNumber: Option<string>,
    date: Option<string>, amount: Option<string>, payeeName: Option<string>, bankName: Option<string>)

  /** `lines.join(' ').toUpperCase()` */
  function SearchText(lines: seq<string>): string
  {
    ToUpper(Join(lines, " "))
  }

  /** `parseChequeText(lines)` */
  function ParseCheque(lines: seq<string>): (f: ChequeFields)
    ensures f.payeeName.None? && f.bankName.None?
    ensures f.accountNumber == FirstDigitWord(SearchText(lines), 9, 18)
    ensures f.ifscCode == FirstIfsc(SearchText(lines))
    ensures f.chequeNumber == FirstDigitWord(SearchText(lines), 6, 8)
    ensures f.date == FirstDate(SearchText(lines))
    ensures f.amount == FirstAmount(SearchText(lines))
  {
    var text := SearchText(lines);
    ChequeFields(FirstDigitWord(text, 9, 18), FirstIfsc(text), FirstDigitWord(text, 6, 8),
                 FirstDate(text), FirstAmount(text), None, None)
  }

  /**
   * The account number and the cheque number are found at different,
   * non-overlapping places of the text: the first is a run of 9 to 18
   * digits, the second a run of 6 to 8.
   */
  lemma AccountAndChequeApart(lines: seq<string>)
    requires ParseCheque(lines).accountNumber.Some? && ParseCheque(lines).chequeNumber.Some?
    ensures ParseCheque(lines).accountNumber != ParseCheque(lines).chequeNumber
    ensures var s := SearchText(lines);
            var i, i' := DigitWordIndex(s, 9, 18).value, DigitWordIndex(s, 6, 8).value;
            i' + RunLength(s, i', Digits) <= i || i + RunLength(s, i, Digits) <= i'
  {
    var s := SearchText(lines);
    DigitWordsApart(s, DigitWordIndex(s, 6, 8).value, 6, 8, DigitWordIndex(s, 9, 18).value, 9, 18);
  }

  /** Every match of a number, date or IFSC pattern holds a digit: at its start, or after the IFSC's letters. */
  lemma MatchHasDigit(s: string, i: nat)
    ensures DigitWordAt(s, i, 9, 18) ==> i < |s| && IsDigit(s[i])
    ensures DigitWordAt(s, i, 6, 8) ==> i < |s| && IsDigit(s[i])
    ensures IfscAt(s, i) ==> IsDigit(s[i + 4])
    ensures DateAt(s, i) ==> i < |s| && IsDigit(s[i])
  {
  }

  /** A text without digits has no account number, cheque number, IFSC or date. */
  lemma NoDigitsNoNumbers(lines: seq<string>)
    requires forall t | 0 <= t < |SearchText(lines)| :: !IsDigit(SearchText(lines)[t])
    ensures ParseCheque(lines).accountNumber.None? && ParseCheque(lines).chequeNumber.None?
    ensures ParseCheque(lines).ifscCode.None? && ParseCheque(lines).date.None?
  {
    var s := SearchText(lines);
    forall i: nat
      ensures !DigitWordAt(s, i, 9, 18) && !DigitWordAt(s, i, 6, 8) && !IfscAt(s, i) && !DateAt(s, i)
    {
      MatchHasDigit(s, i);
    }
  }
}
