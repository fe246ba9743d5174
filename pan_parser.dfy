/**
 * The PAN card text parser (`src/utils/pan-parser.util.ts`) as specification
 * functions: one function per stage of `parsePanText`, in the order the
 * source runs them, and the two pure helpers `isValidPanFormat` and
 * `maskPan`. The step-by-step method that mirrors the source's loops is in
 * module PanParserImpl and is proved equal to `ParsePan`.
 */
module PanParser {
  import opened Common
  import opened Text
  import opened Patterns

  /** The four fields `parsePanText` extracts; `None` is `null`. */
  datatype PanParseResult = PanParseResult(
    panNumber: Option<string>,
    name: Option<string>,
    dob: Option<string>,
    fatherName: Option<string>)

  const NoFields := PanParseResult(None, None, None, None)

  /** A string field that JavaScript reads as truthy: present and non-empty. */
  predicate Filled(o: Option<string>)
  {
    o.Some? && o.value != ""
  }

  // ---------------------------------------------------------------------------
  // The keyword lists
  // ---------------------------------------------------------------------------

  const SkipKeywords: seq<string> := [
    "INCOME TAX", "TAX DEPARTMENT", "DEPARTMENT", "GOVT", "GOVT OF INDIA",
    "PERMANENT", "ACCOUNT", "NUMBER", "CARD", "SIGNATURE", "PHOTO", "ADDRESS",
    "Signe", "हस्ताक्षर", "आयकर", "विभाग", "भारत", "सरकार", "सत्यमेव जयते",
    "स्थायी", "लेखा", "कार्ड", "OFFICIAL", "GOVRNMENT"]

  const NameLabels: seq<string> := ["NAME", "नाम", "NAM", "NAME:"]

  const FatherLabels: seq<string> := ["FATHER", "पिता", "F/N", "S/O", "FATHER NAME", "FATHERS NAME", "FATHER'S NAME"]

  const DobLabels: seq<string> := ["DATE OF BIRTH", "DOB", "जन्म", "BIRTH", "DOB:"]

  // ---------------------------------------------------------------------------
  // Line predicates
  // ---------------------------------------------------------------------------

  /** `shouldSkipLine`: no capital letter at all, or some skip keyword occurs. */
  predicate ShouldSkip(line: string)
  {
    !HasUpper(line) || ContainsAny(line, SkipKeywords)
  }

  /** The `isLabel` test: a name, father or date-of-birth label occurs. */
  predicate IsLabelLine(line: string)
  {
    ContainsAny(line, NameLabels) || ContainsAny(line, FatherLabels) || ContainsAny(line, DobLabels)
  }

  /** `/^[\d\/\-\.\s]+$/`: a non-empty line of digits, `/`, `-`, `.` and white space. */
  predicate IsDigitsPunct(line: string)
  {
    |line| > 0 &&
    forall k | 0 <= k < |line| :: IsDigit(line[k]) || line[k] == '/' || line[k] == '-' || line[k] == '.' || IsWs(line[k])
  }

  /** The test a line after a name or father label must pass to be taken as the value. */
  predicate IsValueLine(line: string)
  {
    line != "" && !IsDigitsPunct(line) && |line| > 2 && !IsLabelLine(line) && !ShouldSkip(line)
  }

  /** A word of the name pattern starts at `k`: a capital not preceded by a capital. */
  predicate WordStart(s: string, k: nat)
    requires k < |s|
  {
    IsUpper(s[k]) && (k == 0 || !IsUpper(s[k - 1]))
  }

  /** The number of maximal runs of capitals in `s`. */
  function WordCount(s: string): nat
  {
    if |s| == 0 then 0
    else WordCount(s[..|s| - 1]) + (if WordStart(s, |s| - 1) then 1 else 0)
  }

  /**
   * `/^[A-Z]{2,}(?:\s+[A-Z]{2,}){1,4}$/`: capitals and white space only,
   * beginning and ending with a capital, every run of capitals at least two
   * long, and two to five such runs.
   */
  predicate IsNameLine(s: string)
  {
    && |s| > 0 && IsUpper(s[0]) && IsUpper(s[|s| - 1])
    && (forall k | 0 <= k < |s| :: IsUpper(s[k]) || IsWs(s[k]))
    && (forall k | 0 <= k < |s| && WordStart(s, k) :: k + 1 < |s| && IsUpper(s[k + 1]))
    && 2 <= WordCount(s) <= 5
  }

  // ---------------------------------------------------------------------------
  // Preparing the lines
  // ---------------------------------------------------------------------------

  /** `lines.map(line => line.trim())` */
  function OriginalLines(lines: seq<string>): (r: seq<string>)
    ensures |r| == |lines| && forall i | 0 <= i < |lines| :: r[i] == Trim(lines[i])
  {
    seq(|lines|, i requires 0 <= i < |lines| => Trim(lines[i]))
  }

  /** `lines.map(line => line.toUpperCase().trim())` */
  function UpperLines(lines: seq<string>): (r: seq<string>)
    ensures |r| == |lines| && forall i | 0 <= i < |lines| :: r[i] == Trim(ToUpper(lines[i]))
  {
    seq(|lines|, i requires 0 <= i < |lines| => Trim(ToUpper(lines[i])))
  }

  /** The PAN scan: the leftmost PAN-shaped run of the space-joined upper lines. */
  function FindPan(upper: seq<string>): Option<string>
  {
    FirstMatch(Join(upper, " "), PanPattern)
  }

  // ---------------------------------------------------------------------------
  // The label scan
  // ---------------------------------------------------------------------------

  datatype LabelKind = NameLabel | FatherLabel | DobLabel

  /** An entry of `labelIndices`: the kind, the label line's index and the value found. */
  datatype LabelHit = LabelHit(kind: LabelKind, index: nat, value: string)

  function IsValueLineAt(upper: seq<string>): nat -> bool
  {
    (j: nat) => j < |upper| && IsValueLine(upper[j])
  }

  function HasDobAt(upper: seq<string>): nat -> bool
  {
    (j: nat) => j < |upper| && FirstMatch(upper[j], DobPattern).Some?
  }

  /** The first line from `from` on that passes `IsValueLine`. */
  function ValueLineFrom(upper: seq<string>, from: nat): (r: Option<nat>)
    ensures r.Some? ==> from <= r.value < |upper| && IsValueLine(upper[r.value])
    ensures forall k | from <= k < |upper| && (r.None? || k < r.value) :: !IsValueLine(upper[k])
  {
    var P := IsValueLineAt(upper);
    assert forall j: nat :: P(j) == (j < |upper| && IsValueLine(upper[j]));
    FirstWhere(|upper|, from, P)
  }

  /** The first line from `from` on holding a date of birth. */
  function DobLineFrom(upper: seq<string>, from: nat): (r: Option<nat>)
    ensures r.Some? ==> from <= r.value < |upper| && FirstMatch(upper[r.value], DobPattern).Some?
    ensures forall k | from <= k < |upper| && (r.None? || k < r.value) :: FirstMatch(upper[k], DobPattern).None?
  {
    var P := HasDobAt(upper);
    assert forall j: nat :: P(j) == (j < |upper| && FirstMatch(upper[j], DobPattern).Some?);
    FirstWhere(|upper|, from, P)
  }

  /** How a forward scan for a value line ends: at the first line that passes, or at the end. */
  lemma ValueLineFromStops(upper: seq<string>, from: nat, j: nat)
    requires from <= j
    requires forall k | from <= k < j && k < |upper| :: !IsValueLine(upper[k])
    ensures j < |upper| && IsValueLine(upper[j]) ==> ValueLineFrom(upper, from) == Some(j)
    ensures j >= |upper| ==> ValueLineFrom(upper, from) == None
  {
    FirstWhereStops(|upper|, from, IsValueLineAt(upper), j);
  }

  lemma DobLineFromStops(upper: seq<string>, from: nat, j: nat)
    requires from <= j
    requires forall k | from <= k < j && k < |upper| :: FirstMatch(upper[k], DobPattern).None?
    ensures j < |upper| && FirstMatch(upper[j], DobPattern).Some? ==> DobLineFrom(upper, from) == Some(j)
    ensures j >= |upper| ==> DobLineFrom(upper, from) == None
  {
    FirstWhereStops(|upper|, from, HasDobAt(upper), j);
  }

  /** The value a name or father label on line `i` records: the original text of the next value line. */
  function ValueAfter(upper: seq<string>, orig: seq<string>, i: nat): Option<string>
    requires |orig| == |upper|
  {
    match ValueLineFrom(upper, i + 1)
    case Some(j) => Some(orig[j])
    case None => None
  }

  /** The value a date-of-birth label on line `i` records: the date in the next line holding one. */
  function DobAfter(upper: seq<string>, i: nat): Option<string>
  {
    match DobLineFrom(upper, i + 1)
    case Some(j) => FirstMatch(upper[j], DobPattern)
    case None => None
  }

  /**
   * The hits one `for (const label of labels)` loop pushes for line `i`: one
   * per label that the line includes, as long as the forward scan found a value.
   */
  function HitsFor(kind: LabelKind, labels: seq<string>, line: string, i: nat, value: Option<string>): seq<LabelHit>
    decreases |labels|
  {
    if |labels| == 0 then []
    else
      HitsFor(kind, labels[..|labels| - 1], line, i, value)
      + (if Contains(line, labels[|labels| - 1]) && value.Some? then [LabelHit(kind, i, value.value)] else [])
  }

  function LabelsOf(kind: LabelKind): seq<string>
  {
    match kind
    case NameLabel => NameLabels
    case FatherLabel => FatherLabels
    case DobLabel => DobLabels
  }

  /** The value the forward scan from a label of this kind on line `i` finds. */
  function KindValue(upper: seq<string>, orig: seq<string>, kind: LabelKind, i: nat): Option<string>
    requires |orig| == |upper|
  {
    if kind == DobLabel then DobAfter(upper, i) else ValueAfter(upper, orig, i)
  }

  function KindHits(upper: seq<string>, orig: seq<string>, kind: LabelKind, i: nat): seq<LabelHit>
    requires |orig| == |upper| && i < |upper|
  {
    HitsFor(kind, LabelsOf(kind), upper[i], i, KindValue(upper, orig, kind, i))
  }

  /** All hits pushed while visiting line `i`: name labels, then father labels, then date-of-birth labels. */
  function HitsAt(upper: seq<string>, orig: seq<string>, i: nat): seq<LabelHit>
    requires |orig| == |upper| && i < |upper|
  {
    KindHits(upper, orig, NameLabel, i) + KindHits(upper, orig, FatherLabel, i) + KindHits(upper, orig, DobLabel, i)
  }

  /** `labelIndices` after visiting the first `n` lines. */
  function LabelHits(upper: seq<string>, orig: seq<string>, n: nat): seq<LabelHit>
    requires |orig| == |upper| && n <= |upper|
  {
    if n == 0 then [] else LabelHits(upper, orig, n - 1) + HitsAt(upper, orig, n - 1)
  }

  /** `labelIndices.find(l => l.type === kind)` */
  function FindKind(hits: seq<LabelHit>, kind: LabelKind): (r: Option<LabelHit>)
    ensures r.Some? ==> r.value in hits && r.value.kind == kind
    ensures r.None? ==> forall h | h in hits :: h.kind != kind
  {
    if |hits| == 0 then None
    else if hits[0].kind == kind then Some(hits[0])
    else FindKind(hits[1..], kind)
  }

  /** `find` returns the hit at the first index holding the kind, and nothing when no index does. */
  lemma {:induction false} FindKindIsFirst(hits: seq<LabelHit>, kind: LabelKind) returns (j: nat)
    ensures FindKind(hits, kind).None? <==> forall i | 0 <= i < |hits| :: hits[i].kind != kind
    ensures FindKind(hits, kind).Some? ==>
              && j < |hits| && FindKind(hits, kind) == Some(hits[j])
              && forall i | 0 <= i < j :: hits[i].kind != kind
  {
    j := 0;
    if |hits| > 0 && hits[0].kind != kind {
      var k := FindKindIsFirst(hits[1..], kind);
      j := k + 1;
      assert forall i | 1 <= i < |hits| :: hits[i] == hits[1..][i - 1];
    }
  }

  /** `if (hit && hit.value) field = hit.value` */
  function HitValue(h: Option<LabelHit>): Option<string>
  {
    if h.Some? && h.value.value != "" then Some(h.value.value) else None
  }

  /** The result after the PAN scan and the label assignments. */
  function ApplyLabels(pan: Option<string>, hits: seq<LabelHit>): PanParseResult
  {
    PanParseResult(pan, HitValue(FindKind(hits, NameLabel)), HitValue(FindKind(hits, DobLabel)), HitValue(FindKind(hits, FatherLabel)))
  }

  // ---------------------------------------------------------------------------
  // The positional fallback
  // ---------------------------------------------------------------------------

  /** An entry of `potentialNames`. */
  datatype Candidate = Candidate(line: string, index: nat)

  /** The tests a line must pass to be a potential name. */
  predicate IsCandidate(line: string, pan: Option<string>)
  {
    IsNameLine(line) && |line| > 3 && |line| < 50 && !ShouldSkip(line) && Some(line) != pan
  }

  /** `potentialNames` after visiting the first `n` lines. */
  function Candidates(upper: seq<string>, orig: seq<string>, pan: Option<string>, n: nat): seq<Candidate>
    requires |orig| == |upper| && n <= |upper|
  {
    if n == 0 then []
    else Candidates(upper, orig, pan, n - 1) + (if IsCandidate(upper[n - 1], pan) then [Candidate(orig[n - 1], n - 1)] else [])
  }

  /** `upperLines.findIndex(l => l.includes(pan))`, `-1` when no line includes it. */
  function PanLineIndex(upper: seq<string>, pan: string): (r: int)
    ensures -1 <= r < |upper|
    ensures r >= 0 ==> Contains(upper[r], pan)
    ensures forall i | 0 <= i < |upper| && (r < 0 || i < r) :: !Contains(upper[i], pan)
  {
    var P := IncludesAt(upper, pan);
    assert forall j: nat :: P(j) == (j < |upper| && Contains(upper[j], pan));
    match FirstWhere(|upper|, 0, P)
    case Some(i) => i
    case None => -1
  }

  function IncludesAt(lines: seq<string>, text: string): nat -> bool
  {
    (i: nat) => i < |lines| && Contains(lines[i], text)
  }

  /** `candidates.filter(n => n.index < bound)` */
  function Before(cands: seq<Candidate>, bound: int): (r: seq<Candidate>)
    ensures |r| <= |cands|
    ensures forall c | c in r :: c in cands && c.index < bound
    ensures forall c | c in cands && c.index < bound :: c in r
  {
    if |cands| == 0 then []
    else (if cands[0].index < bound then [cands[0]] else []) + Before(cands[1..], bound)
  }

  /** `candidates.find(n => n.index < bound)` */
  function FirstBelow(cands: seq<Candidate>, bound: int): (r: Option<Candidate>)
    ensures r.Some? ==> r.value in cands && r.value.index < bound
    ensures r.None? ==> forall c | c in cands :: c.index >= bound
  {
    if |cands| == 0 then None
    else if cands[0].index < bound then Some(cands[0])
    else FirstBelow(cands[1..], bound)
  }

  /** `find` returns the candidate at the first index below the bound, and nothing when none is. */
  lemma {:induction false} FirstBelowIsFirst(cands: seq<Candidate>, bound: int) returns (j: nat)
    ensures FirstBelow(cands, bound).None? <==> forall i | 0 <= i < |cands| :: cands[i].index >= bound
    ensures FirstBelow(cands, bound).Some? ==>
              && j < |cands| && FirstBelow(cands, bound) == Some(cands[j])
              && forall i | 0 <= i < j :: cands[i].index >= bound
  {
    j := 0;
    if |cands| > 0 && cands[0].index >= bound {
      var k := FirstBelowIsFirst(cands[1..], bound);
      j := k + 1;
      assert forall i | 1 <= i < |cands| :: cands[i] == cands[1..][i - 1];
    }
  }

  /** `candidates.find(n => n.line !== name)`; with no name every line differs. */
  function FirstOther(cands: seq<Candidate>, name: Option<string>): (r: Option<Candidate>)
    ensures r.Some? ==> r.value in cands && Some(r.value.line) != name
    ensures r.None? ==> forall c | c in cands :: Some(c.line) == name
  {
    if |cands| == 0 then None
    else if Some(cands[0].line) != name then Some(cands[0])
    else FirstOther(cands[1..], name)
  }

  /** `find` returns the candidate at the first index whose line is not the name, and nothing when none is. */
  lemma {:induction false} FirstOtherIsFirst(cands: seq<Candidate>, name: Option<string>) returns (j: nat)
    ensures FirstOther(cands, name).None? <==> forall i | 0 <= i < |cands| :: Some(cands[i].line) == name
    ensures FirstOther(cands, name).Some? ==>
              && j < |cands| && FirstOther(cands, name) == Some(cands[j])
              && forall i | 0 <= i < j :: Some(cands[i].line) == name
  {
    j := 0;
    if |cands| > 0 && Some(cands[0].line) == name {
      var k := FirstOtherIsFirst(cands[1..], name);
      j := k + 1;
      assert forall i | 1 <= i < |cands| :: cands[i] == cands[1..][i - 1];
    }
  }

  /**
   * Lines 145-192: when the name or the father's name is still missing and a
   * PAN was found, the last candidate before the PAN line becomes the name,
   * and with two or more such candidates one of them the father's name.
   */
  function Positional(upper: seq<string>, orig: seq<string>, res: PanParseResult, fatherHit: Option<LabelHit>): PanParseResult
    requires |orig| == |upper|
  {
    if Filled(res.name) && Filled(res.fatherName) then res
    else if !Filled(res.panNumber) then res
    else
      var cands := Candidates(upper, orig, res.panNumber, |upper|);
      var before := Before(cands, PanLineIndex(upper, res.panNumber.value));
      var named := if !Filled(res.name) && |before| > 0 then res.(name := Some(before[|before| - 1].line)) else res;
      if !Filled(named.fatherName) && |before| > 1 then
        var pick := if fatherHit.Some? then FirstBelow(before, fatherHit.value.index) else FirstOther(before, named.name);
        if pick.Some? then named.(fatherName := Some(pick.value.line)) else named
      else named
  }

  // ---------------------------------------------------------------------------
  // The father's name after the name
  // ---------------------------------------------------------------------------

  /** `originalLines.findIndex(l => l.toUpperCase().includes(name.toUpperCase()))`, `-1` when none does. */
  function NameLineIndex(orig: seq<string>, name: string): (r: int)
    ensures -1 <= r < |orig|
    ensures r >= 0 ==> Contains(ToUpper(orig[r]), ToUpper(name))
    ensures forall i | 0 <= i < |orig| && (r < 0 || i < r) :: !Contains(ToUpper(orig[i]), ToUpper(name))
  {
    var P := UpperIncludesAt(orig, name);
    assert forall j: nat :: P(j) == (j < |orig| && Contains(ToUpper(orig[j]), ToUpper(name)));
    match FirstWhere(|orig|, 0, P)
    case Some(i) => i
    case None => -1
  }

  function UpperIncludesAt(lines: seq<string>, name: string): nat -> bool
  {
    (i: nat) => i < |lines| && Contains(ToUpper(lines[i]), ToUpper(name))
  }

  /** The test of line 202; the line is compared with the name as it was found. */
  predicate IsFatherAfterName(line: string, name: string)
  {
    IsNameLine(line) && !ShouldSkip(line) && line != name
  }

  function IsFatherAfterNameAt(upper: seq<string>, name: string): nat -> bool
  {
    (i: nat) => i < |upper| && IsFatherAfterName(upper[i], name)
  }

  /** The first of the (at most four) lines after the name's line that passes the test. */
  function FatherLineAfter(upper: seq<string>, from: nat, name: string): (r: Option<nat>)
    ensures r.Some? ==> from <= r.value < from + 4 && r.value < |upper| && IsFatherAfterName(upper[r.value], name)
    ensures forall k | from <= k < Min(from + 4, |upper|) && (r.None? || k < r.value) :: !IsFatherAfterName(upper[k], name)
  {
    var P := IsFatherAfterNameAt(upper, name);
    assert forall j: nat :: P(j) == (j < |upper| && IsFatherAfterName(upper[j], name));
    FirstWhere(Min(from + 4, |upper|), from, P)
  }

  lemma FatherLineAfterStops(upper: seq<string>, from: nat, name: string, i: nat)
    requires from <= i
    requires forall k | from <= k < i && k < |upper| :: !IsFatherAfterName(upper[k], name)
    ensures i < Min(from + 4, |upper|) && IsFatherAfterName(upper[i], name) ==> FatherLineAfter(upper, from, name) == Some(i)
    ensures i >= Min(from + 4, |upper|) ==> FatherLineAfter(upper, from, name) == None
  {
    FirstWhereStops(Min(from + 4, |upper|), from, IsFatherAfterNameAt(upper, name), i);
  }

  /** Lines 195-208: with a PAN and a name but no father's name, look just after the name. */
  function AfterName(upper: seq<string>, orig: seq<string>, res: PanParseResult): PanParseResult
    requires |orig| == |upper|
  {
    if !(!Filled(res.fatherName) && Filled(res.name) && Filled(res.panNumber)) then res
    else
      var nameIndex := NameLineIndex(orig, res.name.value);
      if nameIndex < 0 then res
      else
        match FatherLineAfter(upper, nameIndex + 1, res.name.value)
        case Some(i) => res.(fatherName := Some(orig[i]))
        case None => res
  }

  // ---------------------------------------------------------------------------
  // Cleanup
  // ---------------------------------------------------------------------------

  /** `s.replace(/[^A-Z\s]/g, '')` */
  function KeepUpperAndWs(s: string): (r: string)
    ensures |r| <= |s|
    ensures forall k | 0 <= k < |r| :: IsUpper(r[k]) || IsWs(r[k])
    ensures forall k | 0 <= k < |s| && (IsUpper(s[k]) || IsWs(s[k])) :: s[k] in r
    ensures forall c | c in r :: c in s
  {
    if |s| == 0 then []
    else (if IsUpper(s[0]) || IsWs(s[0]) then [s[0]] else []) + KeepUpperAndWs(s[1..])
  }

  /** `s.replace(/[^A-Z\s]/g, '').trim()` */
  function Clean(s: string): (r: string)
    ensures |r| <= |s|
    ensures |r| > 0 ==> IsUpper(r[0]) && IsUpper(r[|r| - 1])
  {
    Trim(KeepUpperAndWs(s))
  }

  function CleanField(o: Option<string>): Option<string>
  {
    if Filled(o) then Some(Clean(o.value)) else o
  }

  function Cleanup(res: PanParseResult): PanParseResult
  {
    res.(name := CleanField(res.name), fatherName := CleanField(res.fatherName))
  }

  // ---------------------------------------------------------------------------
  // parsePanText
  // ---------------------------------------------------------------------------

  /** The result after the PAN scan and the label assignments (lines 34-141). */
  function Labelled(lines: seq<string>): PanParseResult
  {
    ApplyLabels(FindPan(UpperLines(lines)), LabelHits(UpperLines(lines), OriginalLines(lines), |lines|))
  }

  /** `labelIndices.find(l => l.type === kind)` for the lines given. */
  function FirstHit(lines: seq<string>, kind: LabelKind): Option<LabelHit>
  {
    FindKind(LabelHits(UpperLines(lines), OriginalLines(lines), |lines|), kind)
  }

  /** The result after the positional fallback (lines 145-192). */
  function Positioned(lines: seq<string>): PanParseResult
  {
    var labelled := Labelled(lines);
    if !Filled(labelled.name) || !Filled(labelled.fatherName)
    then Positional(UpperLines(lines), OriginalLines(lines), labelled, FirstHit(lines, FatherLabel))
    else labelled
  }

  /** The result after the search for a father's name after the name (lines 195-208). */
  function AfterNamed(lines: seq<string>): PanParseResult
  {
    AfterName(UpperLines(lines), OriginalLines(lines), Positioned(lines))
  }

  /** `parsePanText(lines)`; an empty array gives four `null` fields. */
  function ParsePan(lines: seq<string>): (r: PanParseResult)
    ensures |lines| == 0 ==> r == NoFields
  {
    if |lines| == 0 then NoFields else Cleanup(AfterNamed(lines))
  }

  // ---------------------------------------------------------------------------
  // isValidPanFormat and maskPan
  // ---------------------------------------------------------------------------

  /** `isValidPanFormat(pan)` */
  predicate IsValidPanFormat(pan: string)
  {
    pan != "" && |pan| == 10 && IsPanShape(ToUpper(pan))
  }

  /** `maskPan(pan)`: short input unchanged, else the first five characters and four `X`. */
  function MaskPan(pan: string): (r: string)
    ensures |pan| < 5 ==> r == pan
    ensures |pan| >= 5 ==> |r| == 9 && r[..5] == pan[..5] && r[5..] == "XXXX"
  {
    if pan == "" || |pan| < 5 then pan else pan[..5] + "XXXX"
  }
}
