/**
 * What `parsePanText`, `isValidPanFormat` and `maskPan` promise, proved
 * about the specification functions of module PanParser (and so, through
 * `PanParserImpl.ParsePanText`, about the step-by-step code).
 */
module PanParserProps {
  import opened Common
  import opened Text
  import opened Patterns
  import opened PanParser

  // ---------------------------------------------------------------------------
  // Characters
  // ---------------------------------------------------------------------------

  lemma UpperCharOfClass(c: char, k: CharClass)
    requires InClass(c, k)
    ensures UpperChar(c) == c
  {
  }

  /** A string matching one of the parser's patterns is its own upper-case form. */
  lemma UpperOfMatch(s: string, pat: seq<CharClass>)
    requires |s| == |pat| && MatchesAt(s, 0, pat)
    ensures ToUpper(s) == s
  {
    forall k | 0 <= k < |s|
      ensures ToUpper(s)[k] == s[k]
    {
      UpperCharOfClass(s[0 + k], pat[k]);
    }
  }

  /** The trimmed upper line is the upper-cased trimmed line, so both have the same length. */
  lemma PreparedLines(lines: seq<string>, i: nat)
    requires i < |lines|
    ensures UpperLines(lines)[i] == ToUpper(OriginalLines(lines)[i])
    ensures |UpperLines(lines)[i]| == |OriginalLines(lines)[i]|
  {
    TrimUpperCommute(lines[i]);
  }

  // ---------------------------------------------------------------------------
  // The stages only fill what is missing
  // ---------------------------------------------------------------------------

  /** The positional fallback never touches the PAN or the date of birth, nor a field already found. */
  lemma PositionalOnlyFills(upper: seq<string>, orig: seq<string>, res: PanParseResult, fatherHit: Option<LabelHit>)
    requires |orig| == |upper|
    ensures var out := Positional(upper, orig, res, fatherHit);
            && out.panNumber == res.panNumber && out.dob == res.dob
            && (Filled(res.name) ==> out.name == res.name)
            && (Filled(res.fatherName) ==> out.fatherName == res.fatherName)
  {
  }

  /** The search after the name only ever sets a missing father's name. */
  lemma AfterNameOnlyFills(upper: seq<string>, orig: seq<string>, res: PanParseResult)
    requires |orig| == |upper|
    ensures var out := AfterName(upper, orig, res);
            && out.panNumber == res.panNumber && out.name == res.name && out.dob == res.dob
            && (Filled(res.fatherName) ==> out.fatherName == res.fatherName)
  {
  }

  /**
   * When the after-name search sets the father's name, it is the original
   * text of the first line within four lines after the name's line that
   * passes the name pattern, is not skipped and differs from the name.
   */
  lemma AfterNamePick(upper: seq<string>, orig: seq<string>, res: PanParseResult) returns (n: nat, i: nat)
    requires |orig| == |upper|
    requires AfterName(upper, orig, res).fatherName != res.fatherName
    ensures !Filled(res.fatherName) && Filled(res.name) && Filled(res.panNumber)
    ensures NameLineIndex(orig, res.name.value) == n
    ensures n < i <= n + 4 && i < |upper| && IsFatherAfterName(upper[i], res.name.value)
    ensures forall k | n < k < i :: !IsFatherAfterName(upper[k], res.name.value)
    ensures AfterName(upper, orig, res).fatherName == Some(orig[i])
  {
    n := NameLineIndex(orig, res.name.value);
    i := FatherLineAfter(upper, n + 1, res.name.value).value;
  }

  /** The PAN and the date of birth are fixed once the labels are applied. */
  lemma PanAndDobFromLabelStage(lines: seq<string>)
    requires |lines| > 0
    ensures ParsePan(lines).panNumber == FindPan(UpperLines(lines))
    ensures ParsePan(lines).dob == HitValue(FirstHit(lines, DobLabel))
  {
    PositionalOnlyFills(UpperLines(lines), OriginalLines(lines), Labelled(lines), FirstHit(lines, FatherLabel));
    AfterNameOnlyFills(UpperLines(lines), OriginalLines(lines), Positioned(lines));
  }

  // ---------------------------------------------------------------------------
  // The PAN scan
  // ---------------------------------------------------------------------------

  /** The leftmost PAN-shaped stretch of the joined text, and none when there is none. */
  lemma FindPanLeftmost(upper: seq<string>)
    ensures FindPan(upper).None? ==>
            forall m: nat | m <= |Join(upper, " ")| :: !MatchesAt(Join(upper, " "), m, PanPattern)
    ensures (forall m: nat | m <= |Join(upper, " ")| :: !MatchesAt(Join(upper, " "), m, PanPattern)) ==>
            FindPan(upper).None?
    ensures FindPan(upper).Some? ==>
            exists m: nat | m + 10 <= |Join(upper, " ")| ::
              && MatchesAt(Join(upper, " "), m, PanPattern)
              && FindPan(upper).value == Join(upper, " ")[m..m + 10]
              && forall m': nat | m' < m :: !MatchesAt(Join(upper, " "), m', PanPattern)
  {
    var text := Join(upper, " ");
    assert FindPan(upper) == FirstMatch(text, PanPattern);
    var idx := MatchIndex(text, PanPattern);
    if idx.Some? {
      var m := idx.value;
      assert MatchesAt(text, m, PanPattern) && FindPan(upper).value == text[m..m + 10];
    }
  }

  /** A PAN-shaped stretch of the joined text lies inside one line. */
  lemma FindPanWithinOneLine(upper: seq<string>) returns (p: nat, q: nat)
    requires FindPan(upper).Some?
    ensures p < |upper| && q + 10 <= |upper[p]|
    ensures upper[p][q..q + 10] == FindPan(upper).value
  {
    var text := Join(upper, [' ']);
    var m := MatchIndex(text, PanPattern).value;
    MatchHasNoWs(text, m, PanPattern);
    assert forall k | m <= k < m + 10 :: text[k] != ' ' by {
      forall k | m <= k < m + 10 ensures text[k] != ' ' {
        assert !IsWs(text[k]);
      }
    }
    assert |upper| > 0;
    p, q := JoinSpanInPart(upper, ' ', m, 10);
  }

  /** A PAN-shaped stretch of one line is a PAN-shaped stretch of the joined text. */
  lemma LineMatchInJoin(upper: seq<string>, p: nat, q: nat) returns (m: nat)
    requires p < |upper| && MatchesAt(upper[p], q, PanPattern)
    ensures MatchesAt(Join(upper, " "), m, PanPattern)
  {
    var text := Join(upper, " ");
    var off := JoinHasPart(upper, " ", p);
    m := off + q;
    forall k | 0 <= k < 10
      ensures InClass(text[m + k], PanPattern[k])
    {
      assert text[off..off + |upper[p]|][q + k] == text[m + k];
    }
  }

  /**
   * `panNumber`, when set, is the leftmost PAN-shaped stretch of the
   * space-joined upper lines; none is reported exactly when there is none.
   */
  lemma PanIsLeftmostMatch(lines: seq<string>)
    requires |lines| > 0
    ensures ParsePan(lines).panNumber.None? <==>
            forall m: nat | m <= |Join(UpperLines(lines), " ")| :: !MatchesAt(Join(UpperLines(lines), " "), m, PanPattern)
    ensures ParsePan(lines).panNumber.Some? ==>
            exists m: nat | m + 10 <= |Join(UpperLines(lines), " ")| ::
              && MatchesAt(Join(UpperLines(lines), " "), m, PanPattern)
              && ParsePan(lines).panNumber.value == Join(UpperLines(lines), " ")[m..m + 10]
              && forall m': nat | m' < m :: !MatchesAt(Join(UpperLines(lines), " "), m', PanPattern)
  {
    PanAndDobFromLabelStage(lines);
    FindPanLeftmost(UpperLines(lines));
  }

  /**
   * The PAN pattern holds no white space, so the match never spans the
   * space between two lines: it lies wholly inside one upper line.
   */
  lemma PanWithinOneLine(lines: seq<string>) returns (p: nat, q: nat)
    requires |lines| > 0 && ParsePan(lines).panNumber.Some?
    ensures p < |lines| && q + 10 <= |UpperLines(lines)[p]|
    ensures UpperLines(lines)[p][q..q + 10] == ParsePan(lines).panNumber.value
  {
    PanAndDobFromLabelStage(lines);
    p, q := FindPanWithinOneLine(UpperLines(lines));
  }

  /** The joined text holds no PAN-shaped stretch exactly when no line does. */
  lemma FindPanNoneIff(upper: seq<string>)
    ensures FindPan(upper).None? <==>
            forall p: nat, q: nat | p < |upper| && q <= |upper[p]| :: !MatchesAt(upper[p], q, PanPattern)
  {
    FindPanLeftmost(upper);
    if FindPan(upper).Some? {
      var p, q := FindPanWithinOneLine(upper);
      var pan := FindPan(upper).value;
      assert MatchesAt(upper[p], q, PanPattern) by {
        forall k | 0 <= k < 10 ensures InClass(upper[p][q + k], PanPattern[k]) {
          assert upper[p][q..q + 10][k] == upper[p][q + k];
        }
      }
    } else {
      forall p: nat, q: nat | p < |upper| && q <= |upper[p]|
        ensures !MatchesAt(upper[p], q, PanPattern)
      {
        if MatchesAt(upper[p], q, PanPattern) {
          var m := LineMatchInJoin(upper, p, q);
          assert false;
        }
      }
    }
  }

  /** No PAN is reported exactly when no single upper line holds a PAN-shaped stretch. */
  lemma NoPanIffNoLineMatches(lines: seq<string>)
    requires |lines| > 0
    ensures ParsePan(lines).panNumber.None? <==>
            forall p: nat, q: nat | p < |lines| && q <= |UpperLines(lines)[p]| :: !MatchesAt(UpperLines(lines)[p], q, PanPattern)
  {
    PanAndDobFromLabelStage(lines);
    FindPanNoneIff(UpperLines(lines));
  }

  /** `isValidPanFormat` accepts exactly the ten-character strings whose letters may be in either case. */
  lemma ValidPanFormatIff(pan: string)
    ensures IsValidPanFormat(pan) <==>
            && |pan| == 10
            && (forall k | 0 <= k < 5 :: IsAsciiLetter(pan[k]))
            && (forall k | 5 <= k < 9 :: IsDigit(pan[k]))
            && IsAsciiLetter(pan[9])
  {
    if |pan| == 10 {
      var u := ToUpper(pan);
      assert forall k | 0 <= k < 10 :: (IsUpper(u[k]) <==> IsAsciiLetter(pan[k])) && (IsDigit(u[k]) <==> IsDigit(pan[k]));
      assert IsPanShape(u) <==> forall k | 0 <= k < 10 :: InClass(u[k], PanPattern[k]);
    }
  }

  /** Every PAN the parser reports passes `isValidPanFormat`. */
  lemma PanNumberIsValidFormat(lines: seq<string>)
    requires ParsePan(lines).panNumber.Some?
    ensures IsValidPanFormat(ParsePan(lines).panNumber.value)
  {
    var text := Join(UpperLines(lines), " ");
    var pan := ParsePan(lines).panNumber.value;
    PanAndDobFromLabelStage(lines);
    UpperOfMatch(pan, PanPattern);
  }

  // ---------------------------------------------------------------------------
  // The label scan
  // ---------------------------------------------------------------------------

  /** Line `i` holds a label of this kind and the forward scan from it found a value. */
  predicate HasHit(upper: seq<string>, orig: seq<string>, kind: LabelKind, i: nat)
    requires |orig| == |upper| && i < |upper|
  {
    ContainsAny(upper[i], LabelsOf(kind)) && KindValue(upper, orig, kind, i).Some?
  }

  /** One label loop pushes copies of a single hit, and pushes one iff some label occurs and a value was found. */
  lemma {:induction false} HitsForShape(kind: LabelKind, labels: seq<string>, line: string, i: nat, value: Option<string>)
    ensures forall h | h in HitsFor(kind, labels, line, i, value) :: value.Some? && h == LabelHit(kind, i, value.value)
    ensures |HitsFor(kind, labels, line, i, value)| > 0 <==> value.Some? && exists k | 0 <= k < |labels| :: Contains(line, labels[k])
    decreases |labels|
  {
    if |labels| > 0 {
      var init := labels[..|labels| - 1];
      HitsForShape(kind, init, line, i, value);
      assert forall k | 0 <= k < |init| :: init[k] == labels[k];
    }
  }

  lemma {:induction false} FindKindConcat(a: seq<LabelHit>, b: seq<LabelHit>, kind: LabelKind)
    ensures FindKind(a + b, kind) == if FindKind(a, kind).Some? then FindKind(a, kind) else FindKind(b, kind)
  {
    if |a| == 0 {
      assert a + b == b;
    } else {
      assert (a + b)[0] == a[0];
      assert (a + b)[1..] == a[1..] + b;
      FindKindConcat(a[1..], b, kind);
    }
  }

  /** The first hit of a kind that line `i` contributes. */
  lemma FindKindHitsAt(upper: seq<string>, orig: seq<string>, kind: LabelKind, i: nat)
    requires |orig| == |upper| && i < |upper|
    ensures FindKind(HitsAt(upper, orig, i), kind) ==
            if HasHit(upper, orig, kind, i) then Some(LabelHit(kind, i, KindValue(upper, orig, kind, i).value)) else None
  {
    var n := KindHits(upper, orig, NameLabel, i);
    var f := KindHits(upper, orig, FatherLabel, i);
    var d := KindHits(upper, orig, DobLabel, i);
    forall k: LabelKind
      ensures forall h | h in KindHits(upper, orig, k, i) :: KindValue(upper, orig, k, i).Some? && h == LabelHit(k, i, KindValue(upper, orig, k, i).value)
      ensures |KindHits(upper, orig, k, i)| > 0 <==> HasHit(upper, orig, k, i)
    {
      HitsForShape(k, LabelsOf(k), upper[i], i, KindValue(upper, orig, k, i));
      ContainsAnyIff(upper[i], LabelsOf(k));
    }
    FindKindConcat(n + f, d, kind);
    FindKindConcat(n, f, kind);
    assert HitsAt(upper, orig, i) == n + f + d;
    if |KindHits(upper, orig, kind, i)| > 0 {
      assert KindHits(upper, orig, kind, i)[0] in KindHits(upper, orig, kind, i);
    }
  }

  /** The hits pushed for each line, as one function of the line. */
  function HitsAtFn(upper: seq<string>, orig: seq<string>): nat -> seq<LabelHit>
    requires |orig| == |upper|
  {
    (i: nat) => if i < |upper| then HitsAt(upper, orig, i) else []
  }

  /** The per-line lists of the first `n` lines, one after the other. */
  function Flatten<T>(at: nat -> seq<T>, n: nat): seq<T>
  {
    if n == 0 then [] else Flatten(at, n - 1) + at(n - 1)
  }

  lemma {:induction false} LabelHitsFlatten(upper: seq<string>, orig: seq<string>, n: nat)
    requires |orig| == |upper| && n <= |upper|
    ensures LabelHits(upper, orig, n) == Flatten(HitsAtFn(upper, orig), n)
  {
    if n > 0 {
      LabelHitsFlatten(upper, orig, n - 1);
      assert HitsAtFn(upper, orig)(n - 1) == HitsAt(upper, orig, n - 1);
    }
  }

  /** The first hit of a kind in lists laid end to end is the first hit of the first list holding one. */
  lemma {:induction false} FindKindFlatten(at: nat -> seq<LabelHit>, kind: LabelKind, n: nat) returns (i: nat)
    ensures FindKind(Flatten(at, n), kind).None? <==> forall k | 0 <= k < n :: FindKind(at(k), kind).None?
    ensures FindKind(Flatten(at, n), kind).Some? ==>
              && i < n && FindKind(Flatten(at, n), kind) == FindKind(at(i), kind)
              && forall k | 0 <= k < i :: FindKind(at(k), kind).None?
  {
    i := 0;
    if n > 0 {
      var prev := Flatten(at, n - 1);
      assert Flatten(at, n) == prev + at(n - 1);
      i := FindKindFlatten(at, kind, n - 1);
      FindKindConcat(prev, at(n - 1), kind);
      if FindKind(prev, kind).None? {
        i := n - 1;
      }
    }
  }

  /**
   * `labelIndices.find(l => l.type === kind)` is the hit of the first line
   * holding a label of that kind with a value after it.
   */
  lemma FirstHitOfKind(upper: seq<string>, orig: seq<string>, kind: LabelKind)
    requires |orig| == |upper|
    ensures FindKind(LabelHits(upper, orig, |upper|), kind).None? <==> forall i | 0 <= i < |upper| :: !HasHit(upper, orig, kind, i)
    ensures FindKind(LabelHits(upper, orig, |upper|), kind).Some? ==>
              FirstHitAt(upper, orig, kind, FindKind(LabelHits(upper, orig, |upper|), kind).value)
  {
    LabelHitsFlatten(upper, orig, |upper|);
    var at := HitsAtFn(upper, orig);
    var i := FindKindFlatten(at, kind, |upper|);
    EachLineHit(upper, orig, kind);
    var r := FindKind(LabelHits(upper, orig, |upper|), kind);
    if r.Some? {
      assert r == FindKind(at(i), kind) && LineHitIs(upper, orig, kind, at(i), i);
      forall k | 0 <= k < i
        ensures !HasHit(upper, orig, kind, k)
      {
        assert LineHitIs(upper, orig, kind, at(k), k);
      }
      assert FirstHitAt(upper, orig, kind, r.value);
    } else {
      forall k | 0 <= k < |upper|
        ensures !HasHit(upper, orig, kind, k)
      {
        assert LineHitIs(upper, orig, kind, at(k), k);
      }
    }
  }

  lemma EachLineHit(upper: seq<string>, orig: seq<string>, kind: LabelKind)
    requires |orig| == |upper|
    ensures forall k | 0 <= k < |upper| :: LineHitIs(upper, orig, kind, HitsAtFn(upper, orig)(k), k)
  {
    forall k | 0 <= k < |upper|
      ensures LineHitIs(upper, orig, kind, HitsAtFn(upper, orig)(k), k)
    {
      FindKindHitsAt(upper, orig, kind, k);
    }
  }

  /** The hits `hits` of line `k` hold one of `kind` exactly when the line has such a hit, and that one first. */
  predicate LineHitIs(upper: seq<string>, orig: seq<string>, kind: LabelKind, hits: seq<LabelHit>, k: nat)
    requires |orig| == |upper| && k < |upper|
  {
    FindKind(hits, kind) == if HasHit(upper, orig, kind, k) then Some(LabelHit(kind, k, KindValue(upper, orig, kind, k).value)) else None
  }

  /** `h` is the hit of line `h.index`, the first line holding a label of `kind` with a value after it. */
  predicate FirstHitAt(upper: seq<string>, orig: seq<string>, kind: LabelKind, h: LabelHit)
    requires |orig| == |upper|
  {
    && h.index < |upper| && HasHit(upper, orig, kind, h.index)
    && h == LabelHit(kind, h.index, KindValue(upper, orig, kind, h.index).value)
    && forall i | 0 <= i < h.index :: !HasHit(upper, orig, kind, i)
  }

  /** The value a label hit records is never empty, so the field it supplies is always set. */
  lemma HitValueNonEmpty(lines: seq<string>, kind: LabelKind)
    requires |lines| > 0
    ensures FirstHit(lines, kind).Some? ==> FirstHit(lines, kind).value.value != ""
  {
    var upper, orig := UpperLines(lines), OriginalLines(lines);
    FirstHitOfKind(upper, orig, kind);
    var h := FirstHit(lines, kind);
    if h.Some? && kind != DobLabel {
      var j := ValueLineFrom(upper, h.value.index + 1).value;
      PreparedLines(lines, j);
    }
  }

  /** The first name-label hit supplies the name; nothing later overwrites it. */
  lemma LabelNameWins(lines: seq<string>)
    requires |lines| > 0 && FirstHit(lines, NameLabel).Some?
    ensures ParsePan(lines).name == Some(Clean(FirstHit(lines, NameLabel).value.value))
  {
    HitValueNonEmpty(lines, NameLabel);
    PositionalOnlyFills(UpperLines(lines), OriginalLines(lines), Labelled(lines), FirstHit(lines, FatherLabel));
    AfterNameOnlyFills(UpperLines(lines), OriginalLines(lines), Positioned(lines));
  }

  /** The first father-label hit supplies the father's name; nothing later overwrites it. */
  lemma LabelFatherWins(lines: seq<string>)
    requires |lines| > 0 && FirstHit(lines, FatherLabel).Some?
    ensures ParsePan(lines).fatherName == Some(Clean(FirstHit(lines, FatherLabel).value.value))
  {
    HitValueNonEmpty(lines, FatherLabel);
    PositionalOnlyFills(UpperLines(lines), OriginalLines(lines), Labelled(lines), FirstHit(lines, FatherLabel));
    AfterNameOnlyFills(UpperLines(lines), OriginalLines(lines), Positioned(lines));
  }

  /** The date a date-of-birth hit records, and where it comes from. */
  lemma DobHitShape(upper: seq<string>, orig: seq<string>) returns (i: nat, j: nat, q: nat)
    requires |orig| == |upper| && HitValue(FindKind(LabelHits(upper, orig, |upper|), DobLabel)).Some?
    ensures DobFoundAt(upper, orig, HitValue(FindKind(LabelHits(upper, orig, |upper|), DobLabel)).value, i, j, q)
  {
    FirstHitOfKind(upper, orig, DobLabel);
    var h := FindKind(LabelHits(upper, orig, |upper|), DobLabel).value;
    assert FirstHitAt(upper, orig, DobLabel, h);
    i := h.index;
    assert h.value == DobAfter(upper, i).value;
    j, q := DobAfterShape(upper, i);
  }

  /** The date a date-of-birth label on line `i` records: the leftmost date of the first later line holding one. */
  lemma DobAfterShape(upper: seq<string>, i: nat) returns (j: nat, q: nat)
    requires DobAfter(upper, i).Some?
    ensures var dob := DobAfter(upper, i).value;
            && i < j < |upper| && |dob| == 10 && MatchesAt(dob, 0, DobPattern)
            && q + 10 <= |upper[j]| && upper[j][q..q + 10] == dob
            && (forall k | i < k < j :: FirstMatch(upper[k], DobPattern).None?)
  {
    j := DobLineFrom(upper, i + 1).value;
    q := MatchIndex(upper[j], DobPattern).value;
  }

  /**
   * `dob` is the leftmost `DD?MM?YYYY` stretch (`?` one of `/`, `-`, `.`) of
   * line `j`, the first line after line `i` that holds one, and line `i` is
   * the first line holding a date-of-birth label with a date after it.
   */
  predicate DobFoundAt(upper: seq<string>, orig: seq<string>, dob: string, i: nat, j: nat, q: nat)
    requires |orig| == |upper|
  {
    && i < j < |upper| && ContainsAny(upper[i], DobLabels)
    && |dob| == 10 && MatchesAt(dob, 0, DobPattern)
    && q + 10 <= |upper[j]| && upper[j][q..q + 10] == dob
    && (forall k | i < k < j :: FirstMatch(upper[k], DobPattern).None?)
    && (forall k | 0 <= k < i :: !HasHit(upper, orig, DobLabel, k))
  }

  /** A date of birth is only ever found after a date-of-birth label. */
  lemma DobFromLabel(lines: seq<string>) returns (i: nat, j: nat, q: nat)
    requires |lines| > 0 && ParsePan(lines).dob.Some?
    ensures DobFoundAt(UpperLines(lines), OriginalLines(lines), ParsePan(lines).dob.value, i, j, q)
  {
    PanAndDobFromLabelStage(lines);
    i, j, q := DobHitShape(UpperLines(lines), OriginalLines(lines));
  }

  /** The father-label branch of the positional fallback (lines 178-182) never decides anything. */
  lemma FatherLabelBranchUnused(lines: seq<string>)
    requires |lines| > 0
    ensures Positioned(lines) ==
            if !Filled(Labelled(lines).name) || !Filled(Labelled(lines).fatherName)
            then Positional(UpperLines(lines), OriginalLines(lines), Labelled(lines), None)
            else Labelled(lines)
  {
    HitValueNonEmpty(lines, FatherLabel);
    var labelled := Labelled(lines);
    assert FirstHit(lines, FatherLabel).Some? ==> Filled(labelled.fatherName);
    PositionalIgnoresFatherHit(UpperLines(lines), OriginalLines(lines), labelled, FirstHit(lines, FatherLabel));
  }

  /** The father-label hit only matters to the fallback while the father's name is missing. */
  lemma PositionalIgnoresFatherHit(upper: seq<string>, orig: seq<string>, res: PanParseResult, fatherHit: Option<LabelHit>)
    requires |orig| == |upper| && (fatherHit.Some? ==> Filled(res.fatherName))
    ensures Positional(upper, orig, res, fatherHit) == Positional(upper, orig, res, None)
  {
  }

  /** Without a PAN both names come from labels alone. */
  lemma NoPanLabelsOnly(lines: seq<string>)
    requires |lines| > 0 && ParsePan(lines).panNumber.None?
    ensures ParsePan(lines).name == CleanField(HitValue(FirstHit(lines, NameLabel)))
    ensures ParsePan(lines).fatherName == CleanField(HitValue(FirstHit(lines, FatherLabel)))
  {
    PanAndDobFromLabelStage(lines);
    assert Labelled(lines).panNumber.None?;
  }

  // ---------------------------------------------------------------------------
  // The positional fallback
  // ---------------------------------------------------------------------------

  lemma {:induction false} BeforeConcat(a: seq<Candidate>, b: seq<Candidate>, bound: int)
    ensures Before(a + b, bound) == Before(a, bound) + Before(b, bound)
  {
    if |a| == 0 {
      assert a + b == b;
    } else {
      assert (a + b)[0] == a[0];
      assert (a + b)[1..] == a[1..] + b;
      BeforeConcat(a[1..], b, bound);
    }
  }

  /** What line `i` adds to `potentialNames`. */
  function CandidatesAtFn(upper: seq<string>, orig: seq<string>, pan: Option<string>): nat -> seq<Candidate>
    requires |orig| == |upper|
  {
    (i: nat) => if i < |upper| && IsCandidate(upper[i], pan) then [Candidate(orig[i], i)] else []
  }

  lemma {:induction false} CandidatesFlatten(upper: seq<string>, orig: seq<string>, pan: Option<string>, n: nat)
    requires |orig| == |upper| && n <= |upper|
    ensures Candidates(upper, orig, pan, n) == Flatten(CandidatesAtFn(upper, orig, pan), n)
    ensures forall i: nat :: IndexedBy(CandidatesAtFn(upper, orig, pan)(i), i)
  {
    if n > 0 {
      CandidatesFlatten(upper, orig, pan, n - 1);
      assert CandidatesAtFn(upper, orig, pan)(n - 1) == if IsCandidate(upper[n - 1], pan) then [Candidate(orig[n - 1], n - 1)] else [];
    }
  }

  /** Every entry of `cands` records line `i`. */
  predicate IndexedBy(cands: seq<Candidate>, i: nat)
  {
    forall c | c in cands :: c.index == i
  }

  /** Taking the entries of lines above `bound` from lists laid out line by line keeps the lines above `bound`. */
  lemma {:induction false} BeforeFlatten(at: nat -> seq<Candidate>, n: nat, bound: int)
    requires forall i: nat | i < n :: IndexedBy(at(i), i)
    ensures Before(Flatten(at, n), bound) == Flatten(at, if bound < 0 then 0 else Min(n, bound))
  {
    if n > 0 {
      var prev, last := Flatten(at, n - 1), at(n - 1);
      BeforeFlatten(at, n - 1, bound);
      var m: nat := if bound < 0 then 0 else Min(n - 1, bound);
      BeforeFlattenStep(prev, last, bound, n - 1, Flatten(at, m));
      assert Flatten(at, n) == prev + last;
    }
  }

  lemma BeforeFlattenStep(prev: seq<Candidate>, last: seq<Candidate>, bound: int, i: nat, below: seq<Candidate>)
    requires IndexedBy(last, i) && Before(prev, bound) == below
    ensures Before(prev + last, bound) == if i < bound then below + last else below
  {
    BeforeStep(prev, last, bound, i);
    assert below + [] == below;
  }

  lemma BeforeStep(prev: seq<Candidate>, last: seq<Candidate>, bound: int, i: nat)
    requires IndexedBy(last, i)
    ensures Before(prev + last, bound) == Before(prev, bound) + (if i < bound then last else [])
  {
    BeforeConcat(prev, last, bound);
    if i < bound {
      BeforeAll(last, bound);
    } else {
      BeforeNone(last, bound);
    }
  }

  lemma {:induction false} BeforeAll(cands: seq<Candidate>, bound: int)
    requires forall c | c in cands :: c.index < bound
    ensures Before(cands, bound) == cands
  {
    if |cands| > 0 {
      assert cands[0] in cands;
      assert forall c | c in cands[1..] :: c in cands;
      BeforeAll(cands[1..], bound);
      assert [cands[0]] + cands[1..] == cands;
    }
  }

  lemma {:induction false} BeforeNone(cands: seq<Candidate>, bound: int)
    requires forall c | c in cands :: c.index >= bound
    ensures Before(cands, bound) == []
  {
    if |cands| > 0 {
      assert cands[0] in cands;
      assert forall c | c in cands[1..] :: c in cands;
      BeforeNone(cands[1..], bound);
    }
  }

  /** The potential names above line `bound` are those the first `bound` lines contribute. */
  lemma BeforeCandidates(upper: seq<string>, orig: seq<string>, pan: Option<string>, n: nat, bound: int)
    requires |orig| == |upper| && n <= |upper|
    ensures Before(Candidates(upper, orig, pan, n), bound) == Candidates(upper, orig, pan, if bound < 0 then 0 else Min(n, bound))
  {
    CandidatesFlatten(upper, orig, pan, n);
    CandidatesFlatten(upper, orig, pan, if bound < 0 then 0 else Min(n, bound));
    BeforeFlatten(CandidatesAtFn(upper, orig, pan), n, bound);
  }

  /** Every potential name is the original text of a line that passes the tests. */
  lemma {:induction false} CandidatesMembers(upper: seq<string>, orig: seq<string>, pan: Option<string>, n: nat)
    requires |orig| == |upper| && n <= |upper|
    ensures forall c | c in Candidates(upper, orig, pan, n) :: c.index < n && IsCandidate(upper[c.index], pan) && c.line == orig[c.index]
  {
    if n > 0 {
      CandidatesMembers(upper, orig, pan, n - 1);
    }
  }

  /** The last potential name among the first `m` lines is the lowest line passing the tests. */
  lemma {:induction false} CandidatesLast(upper: seq<string>, orig: seq<string>, pan: Option<string>, m: nat) returns (i: nat)
    requires |orig| == |upper| && m <= |upper|
    ensures |Candidates(upper, orig, pan, m)| > 0 <==> exists k | 0 <= k < m :: IsCandidate(upper[k], pan)
    ensures |Candidates(upper, orig, pan, m)| > 0 ==>
              && i < m && IsCandidate(upper[i], pan)
              && Candidates(upper, orig, pan, m)[|Candidates(upper, orig, pan, m)| - 1] == Candidate(orig[i], i)
              && forall k | i < k < m :: !IsCandidate(upper[k], pan)
  {
    i := 0;
    if m > 0 {
      if IsCandidate(upper[m - 1], pan) {
        i := m - 1;
      } else {
        i := CandidatesLast(upper, orig, pan, m - 1);
      }
    }
  }

  /** The line `upperLines.findIndex(l => l.includes(pan))` for the PAN found. */
  function PanLine(lines: seq<string>): int
    requires FindPan(UpperLines(lines)).Some?
  {
    PanLineIndex(UpperLines(lines), FindPan(UpperLines(lines)).value)
  }

  /**
   * `name` is set exactly when some line above the PAN's line `b` looks like
   * a name, and it is then the original text of the lowest such line `i`
   * (cleaned when `cleaned` holds).
   */
  predicate NameAbove(upper: seq<string>, orig: seq<string>, pan: Option<string>, b: int, name: Option<string>, i: nat, cleaned: bool)
    requires |orig| == |upper| && b < |upper|
  {
    && (name.Some? <==> exists k | 0 <= k < b :: IsCandidate(upper[k], pan))
    && (name.Some? ==>
          && i < b && IsCandidate(upper[i], pan)
          && name == Some(if cleaned then Clean(orig[i]) else orig[i])
          && forall k | i < k < b :: !IsCandidate(upper[k], pan))
  }

  /** The positional fallback's name when no name was found before it. */
  lemma PositionalNameCore(upper: seq<string>, orig: seq<string>, res: PanParseResult, fatherHit: Option<LabelHit>) returns (i: nat)
    requires |orig| == |upper| && Filled(res.panNumber) && !Filled(res.name) && res.name.None?
    ensures NameAbove(upper, orig, res.panNumber, PanLineIndex(upper, res.panNumber.value), Positional(upper, orig, res, fatherHit).name, i, false)
  {
    var pan := res.panNumber;
    var b := PanLineIndex(upper, pan.value);
    var cands := Candidates(upper, orig, pan, |upper|);
    BeforeCandidates(upper, orig, pan, |upper|, b);
    var m: nat := if b < 0 then 0 else b;
    assert Before(cands, b) == Candidates(upper, orig, pan, m);
    i := CandidatesLast(upper, orig, pan, m);
    var name := Positional(upper, orig, res, fatherHit).name;
    if |Before(cands, b)| > 0 {
      assert name == Some(orig[i]);
    } else {
      assert name == None;
    }
  }

  /**
   * Without a name label, the name is the original text of the lowest line
   * above the PAN's line that looks like a name, cleaned; with no such line
   * there is no name.
   */
  lemma PositionalName(lines: seq<string>) returns (i: nat)
    requires |lines| > 0 && FirstHit(lines, NameLabel).None? && FindPan(UpperLines(lines)).Some?
    ensures NameAbove(UpperLines(lines), OriginalLines(lines), FindPan(UpperLines(lines)), PanLine(lines), ParsePan(lines).name, i, true)
  {
    var upper, orig := UpperLines(lines), OriginalLines(lines);
    var labelled := Labelled(lines);
    assert labelled.panNumber == FindPan(upper) && labelled.name == None;
    i := PositionalNameCore(upper, orig, labelled, FirstHit(lines, FatherLabel));
    var positioned := Positional(upper, orig, labelled, FirstHit(lines, FatherLabel));
    assert Positioned(lines) == positioned;
    AfterNameOnlyFills(upper, orig, positioned);
    if positioned.name.Some? {
      PreparedLines(lines, i);
      assert Filled(positioned.name);
    }
  }

  /**
   * A father's name from the positional fallback (no father label, which is
   * the only case that reaches it) needs two potential names above the PAN's
   * line and is the original text of one of them, different from the name.
   */
  lemma PositionalFather(upper: seq<string>, orig: seq<string>, res: PanParseResult) returns (k: nat)
    requires |orig| == |upper| && !Filled(res.fatherName)
    ensures Positional(upper, orig, res, None).fatherName != res.fatherName ==>
              && Filled(res.panNumber)
              && |Before(Candidates(upper, orig, res.panNumber, |upper|), PanLineIndex(upper, res.panNumber.value))| >= 2
              && k < PanLineIndex(upper, res.panNumber.value) && IsCandidate(upper[k], res.panNumber)
              && Positional(upper, orig, res, None).fatherName == Some(orig[k])
              && Some(orig[k]) != Positional(upper, orig, res, None).name
  {
    k := 0;
    if Filled(res.panNumber) {
      var bound := PanLineIndex(upper, res.panNumber.value);
      var before := Before(Candidates(upper, orig, res.panNumber, |upper|), bound);
      var named := if !Filled(res.name) && |before| > 0 then res.(name := Some(before[|before| - 1].line)) else res;
      assert Positional(upper, orig, res, None).name == named.name;
      if |before| > 1 {
        var pick := FirstOther(before, named.name);
        if pick.Some? {
          k := pick.value.index;
          PickedCandidate(upper, orig, res.panNumber, bound, pick.value);
          assert Positional(upper, orig, res, None).fatherName == Some(pick.value.line);
        }
      }
    }
  }

  /** A potential name above line `bound` is a line above `bound` that passes the tests, in its original text. */
  lemma PickedCandidate(upper: seq<string>, orig: seq<string>, pan: Option<string>, bound: int, c: Candidate)
    requires |orig| == |upper| && c in Before(Candidates(upper, orig, pan, |upper|), bound)
    ensures c.index < bound && c.index < |upper| && IsCandidate(upper[c.index], pan) && c.line == orig[c.index]
  {
    CandidatesMembers(upper, orig, pan, |upper|);
  }

  // ---------------------------------------------------------------------------
  // Cleanup
  // ---------------------------------------------------------------------------

  lemma {:induction false} KeepUpperAndWsKeeps(s: string)
    requires forall k | 0 <= k < |s| :: IsUpper(s[k]) || IsWs(s[k])
    ensures KeepUpperAndWs(s) == s
  {
    if |s| > 0 {
      KeepUpperAndWsKeeps(s[1..]);
    }
  }

  /**
   * The replacement works character by character: it keeps a character
   * exactly when it is a capital or white space, in the original order.
   */
  lemma {:induction false} KeepUpperAndWsConcat(a: string, b: string)
    ensures KeepUpperAndWs(a + b) == KeepUpperAndWs(a) + KeepUpperAndWs(b)
  {
    if |a| == 0 {
      assert a + b == b;
    } else {
      assert (a + b)[0] == a[0];
      assert (a + b)[1..] == a[1..] + b;
      KeepUpperAndWsConcat(a[1..], b);
    }
  }

  lemma CleanChars(s: string)
    ensures forall k | 0 <= k < |Clean(s)| :: IsUpper(Clean(s)[k]) || IsWs(Clean(s)[k])
  {
    TrimKeeps(KeepUpperAndWs(s), c => IsUpper(c) || IsWs(c));
  }

  /** Cleaning a cleaned name changes nothing. */
  lemma CleanIdempotent(s: string)
    ensures Clean(Clean(s)) == Clean(s)
  {
    CleanChars(s);
    KeepUpperAndWsKeeps(Clean(s));
    TrimIdempotent(KeepUpperAndWs(s));
  }

  /** A line that passes the name pattern is already clean, so cleanup keeps it whole. */
  lemma NameLineIsClean(s: string)
    requires IsNameLine(s)
    ensures Clean(s) == s
  {
    KeepUpperAndWsKeeps(s);
    TrimNoWsBorders(s);
  }

  /** A cleaned name holds only capitals and white space and neither starts nor ends with white space. */
  lemma CleanShape(s: string)
    ensures forall k | 0 <= k < |Clean(s)| :: IsUpper(Clean(s)[k]) || IsWs(Clean(s)[k])
    ensures |Clean(s)| > 0 ==> !IsWs(Clean(s)[0]) && !IsWs(Clean(s)[|Clean(s)| - 1])
  {
    CleanChars(s);
  }

  /** The names `parsePanText` returns are cleaned: capitals and inner white space only. */
  lemma CleanedNames(lines: seq<string>)
    ensures ParsePan(lines).name.Some? ==> Clean(ParsePan(lines).name.value) == ParsePan(lines).name.value
    ensures ParsePan(lines).fatherName.Some? ==> Clean(ParsePan(lines).fatherName.value) == ParsePan(lines).fatherName.value
  {
    if |lines| > 0 {
      var r := AfterNamed(lines);
      if Filled(r.name) {
        CleanIdempotent(r.name.value);
      }
      if Filled(r.fatherName) {
        CleanIdempotent(r.fatherName.value);
      }
    }
  }

  /**
   * The `'Signe'` skip keyword has lower-case letters, so it never occurs in
   * an upper-cased line: for the lines the parser tests it is dead.
   */
  lemma SigneNeverMatchesUpper(line: string)
    ensures !Contains(ToUpper(line), "Signe")
  {
    ToUpperNoLower(line);
    NoLowerNoContains(ToUpper(line), "Signe", 1);
  }

  // ---------------------------------------------------------------------------
  // maskPan
  // ---------------------------------------------------------------------------

  /** Masking a masked PAN changes nothing. */
  lemma MaskPanIdempotent(pan: string)
    ensures MaskPan(MaskPan(pan)) == MaskPan(pan)
  {
    if |pan| >= 5 {
      var m := MaskPan(pan);
      assert m[..5] == pan[..5];
      assert MaskPan(m) == m[..5] + "XXXX";
    }
  }

  /** Two PANs of five or more characters mask alike exactly when their first five characters agree. */
  lemma MaskPanSameIff(a: string, b: string)
    requires |a| >= 5 && |b| >= 5
    ensures MaskPan(a) == MaskPan(b) <==> a[..5] == b[..5]
  {
    if MaskPan(a) == MaskPan(b) {
      assert a[..5] == MaskPan(a)[..5];
    }
  }
}
