/**
 * `parsePanText` as the source writes it: the result record assigned field
 * by field, `labelIndices` and `potentialNames` grown by pushes inside
 * nested loops that stop at the first usable line. Every method here is
 * proved to compute what the specification functions of module PanParser
 * describe, so the properties proved about `ParsePan` hold of this code.
 */
module PanParserImpl {
  import opened Common
  import opened Text
  import opened Patterns
  import opened PanParser

  /** The `for (let j = i + 1; ...)` scan after a name or father label (lines 79-91, 98-109). */
  method ScanValueLine(upper: seq<string>, orig: seq<string>, i: nat) returns (value: Option<string>)
    requires |orig| == |upper|
    ensures value == ValueAfter(upper, orig, i)
  {
    value := None;
    var j := i + 1;
    while j < |upper|
      invariant i + 1 <= j
      invariant forall k | i + 1 <= k < j && k < |upper| :: !IsValueLine(upper[k])
    {
      var nextLine := upper[j];
      if nextLine != "" && !IsDigitsPunct(nextLine) && |nextLine| > 2 {
        var isLabel := ContainsAny(nextLine, NameLabels) || ContainsAny(nextLine, FatherLabels) || ContainsAny(nextLine, DobLabels);
        if !isLabel && !ShouldSkip(nextLine) {
          value := Some(orig[j]);
          ValueLineFromStops(upper, i + 1, j);
          break;
        }
      }
      j := j + 1;
    }
    if value.None? {
      ValueLineFromStops(upper, i + 1, j);
    }
  }

  /** The `for (let j = i + 1; ...)` scan after a date-of-birth label (lines 116-123). */
  method ScanDobLine(upper: seq<string>, i: nat) returns (value: Option<string>)
    ensures value == DobAfter(upper, i)
  {
    value := None;
    var j := i + 1;
    while j < |upper|
      invariant i + 1 <= j
      invariant forall k | i + 1 <= k < j && k < |upper| :: FirstMatch(upper[k], DobPattern).None?
    {
      var dobMatch := FirstMatch(upper[j], DobPattern);
      if dobMatch.Some? {
        value := dobMatch;
        DobLineFromStops(upper, i + 1, j);
        break;
      }
      j := j + 1;
    }
    if value.None? {
      DobLineFromStops(upper, i + 1, j);
    }
  }

  /** One `for (const label of labels)` loop for name or father labels on line `i`. */
  method PushValueHits(hits: seq<LabelHit>, kind: LabelKind, labels: seq<string>, upper: seq<string>, orig: seq<string>, i: nat)
    returns (out: seq<LabelHit>)
    requires |orig| == |upper| && i < |upper|
    ensures out == hits + HitsFor(kind, labels, upper[i], i, ValueAfter(upper, orig, i))
  {
    out := hits;
    var line := upper[i];
    for n := 0 to |labels|
      invariant out == hits + HitsFor(kind, labels[..n], line, i, ValueAfter(upper, orig, i))
    {
      assert labels[..n + 1][..n] == labels[..n];
      if Contains(line, labels[n]) {
        var value := ScanValueLine(upper, orig, i);
        if value.Some? {
          out := out + [LabelHit(kind, i, value.value)];
        }
      }
    }
    assert labels[..|labels|] == labels;
  }

  /** The `for (const label of dobLabels)` loop on line `i`. */
  method PushDobHits(hits: seq<LabelHit>, upper: seq<string>, i: nat) returns (out: seq<LabelHit>)
    requires i < |upper|
    ensures out == hits + HitsFor(DobLabel, DobLabels, upper[i], i, DobAfter(upper, i))
  {
    out := hits;
    var line := upper[i];
    for n := 0 to |DobLabels|
      invariant out == hits + HitsFor(DobLabel, DobLabels[..n], line, i, DobAfter(upper, i))
    {
      assert DobLabels[..n + 1][..n] == DobLabels[..n];
      if Contains(line, DobLabels[n]) {
        var value := ScanDobLine(upper, i);
        if value.Some? {
          out := out + [LabelHit(DobLabel, i, value.value)];
        }
      }
    }
    assert DobLabels[..|DobLabels|] == DobLabels;
  }

  lemma HitsAtSplit(upper: seq<string>, orig: seq<string>, i: nat, visited: seq<LabelHit>, names: seq<LabelHit>, fathers: seq<LabelHit>, all: seq<LabelHit>)
    requires |orig| == |upper| && i < |upper|
    requires names == visited + HitsFor(NameLabel, NameLabels, upper[i], i, ValueAfter(upper, orig, i))
    requires fathers == names + HitsFor(FatherLabel, FatherLabels, upper[i], i, ValueAfter(upper, orig, i))
    requires all == fathers + HitsFor(DobLabel, DobLabels, upper[i], i, DobAfter(upper, i))
    ensures all == visited + HitsAt(upper, orig, i)
  {
    var x := HitsFor(NameLabel, NameLabels, upper[i], i, ValueAfter(upper, orig, i));
    var y := HitsFor(FatherLabel, FatherLabels, upper[i], i, ValueAfter(upper, orig, i));
    var z := HitsFor(DobLabel, DobLabels, upper[i], i, DobAfter(upper, i));
    assert HitsAt(upper, orig, i) == x + y + z;
    ConcatAssoc(visited, x, y, z);
  }

  lemma ConcatAssoc<T>(a: seq<T>, b: seq<T>, c: seq<T>, d: seq<T>)
    ensures a + b + c + d == a + (b + c + d)
  {
  }

  /** The label scan of lines 72-126: `labelIndices` in the order the hits are pushed. */
  method CollectLabels(upper: seq<string>, orig: seq<string>) returns (labelIndices: seq<LabelHit>)
    requires |orig| == |upper|
    ensures labelIndices == LabelHits(upper, orig, |upper|)
  {
    labelIndices := [];
    for i := 0 to |upper|
      invariant labelIndices == LabelHits(upper, orig, i)
    {
      ghost var visited := labelIndices;
      labelIndices := PushValueHits(labelIndices, NameLabel, NameLabels, upper, orig, i);
      ghost var names := labelIndices;
      labelIndices := PushValueHits(labelIndices, FatherLabel, FatherLabels, upper, orig, i);
      ghost var fathers := labelIndices;
      labelIndices := PushDobHits(labelIndices, upper, i);
      HitsAtSplit(upper, orig, i, visited, names, fathers, labelIndices);
    }
  }

  /** The loop of lines 148-160 collecting `potentialNames`. */
  method CollectCandidates(upper: seq<string>, orig: seq<string>, pan: Option<string>) returns (potentialNames: seq<Candidate>)
    requires |orig| == |upper|
    ensures potentialNames == Candidates(upper, orig, pan, |upper|)
  {
    potentialNames := [];
    for i := 0 to |upper|
      invariant potentialNames == Candidates(upper, orig, pan, i)
    {
      var line := upper[i];
      if IsNameLine(line) && |line| > 3 && |line| < 50 && !ShouldSkip(line) && Some(line) != pan {
        potentialNames := potentialNames + [Candidate(orig[i], i)];
      }
    }
  }

  /** The loop of lines 199-206 over the lines just after the name's line. */
  method ScanFatherAfterName(upper: seq<string>, orig: seq<string>, nameIndex: nat, name: string) returns (father: Option<string>)
    requires |orig| == |upper|
    ensures father == match FatherLineAfter(upper, nameIndex + 1, name) case Some(i) => Some(orig[i]) case None => None
  {
    father := None;
    var i := nameIndex + 1;
    while i < Min(nameIndex + 5, |orig|)
      invariant nameIndex + 1 <= i
      invariant forall k | nameIndex + 1 <= k < i && k < |upper| :: !IsFatherAfterName(upper[k], name)
    {
      var line := upper[i];
      if IsNameLine(line) && !ShouldSkip(line) && line != name {
        father := Some(orig[i]);
        FatherLineAfterStops(upper, nameIndex + 1, name, i);
        break;
      }
      i := i + 1;
    }
    if father.None? {
      FatherLineAfterStops(upper, nameIndex + 1, name, i);
    }
  }

  /** Lines 145-192: the positional fallback for a missing name or father's name. */
  method FillByPosition(upper: seq<string>, orig: seq<string>, res: PanParseResult, fatherLabel: Option<LabelHit>)
    returns (result: PanParseResult)
    requires |orig| == |upper|
    requires !Filled(res.name) || !Filled(res.fatherName)
    ensures result == Positional(upper, orig, res, fatherLabel)
  {
    result := res;
    var potentialNames := CollectCandidates(upper, orig, result.panNumber);
    if Filled(result.panNumber) {
      var panIndex := PanLineIndex(upper, result.panNumber.value);
      var namesBeforePan := Before(potentialNames, panIndex);
      if !Filled(result.name) && |namesBeforePan| > 0 {
        result := result.(name := Some(namesBeforePan[|namesBeforePan| - 1].line));
      }
      if !Filled(result.fatherName) && |namesBeforePan| > 1 {
        if fatherLabel.Some? {
          var fatherCandidate := FirstBelow(namesBeforePan, fatherLabel.value.index);
          if fatherCandidate.Some? {
            result := result.(fatherName := Some(fatherCandidate.value.line));
          }
        } else {
          var fatherCandidate := FirstOther(namesBeforePan, result.name);
          if fatherCandidate.Some? {
            result := result.(fatherName := Some(fatherCandidate.value.line));
          }
        }
      }
    }
  }

  /** Lines 195-208: the search for a father's name just after the name. */
  method FillFatherAfterName(upper: seq<string>, orig: seq<string>, res: PanParseResult) returns (result: PanParseResult)
    requires |orig| == |upper|
    ensures result == AfterName(upper, orig, res)
  {
    result := res;
    if !Filled(result.fatherName) && Filled(result.name) && Filled(result.panNumber) {
      var nameIndex := NameLineIndex(orig, result.name.value);
      if nameIndex >= 0 {
        var father := ScanFatherAfterName(upper, orig, nameIndex, result.name.value);
        if father.Some? {
          result := result.(fatherName := father);
        }
      }
    }
  }

  /** `parsePanText(lines)` (lines 21-219). */
  method ParsePanText(lines: seq<string>) returns (result: PanParseResult)
    ensures result == ParsePan(lines)
  {
    result := NoFields;
    if |lines| == 0 {
      return;
    }
    var originalLines := OriginalLines(lines);
    var upperLines := UpperLines(lines);

    var allText := Join(upperLines, " ");
    var panMatch := FirstMatch(allText, PanPattern);
    if panMatch.Some? {
      result := result.(panNumber := panMatch);
    }

    var labelIndices := CollectLabels(upperLines, originalLines);
    var nameLabel := FindKind(labelIndices, NameLabel);
    var fatherLabel := FindKind(labelIndices, FatherLabel);
    var dobLabel := FindKind(labelIndices, DobLabel);
    if nameLabel.Some? && nameLabel.value.value != "" {
      result := result.(name := Some(nameLabel.value.value));
    }
    if fatherLabel.Some? && fatherLabel.value.value != "" {
      result := result.(fatherName := Some(fatherLabel.value.value));
    }
    if dobLabel.Some? && dobLabel.value.value != "" {
      result := result.(dob := Some(dobLabel.value.value));
    }
    assert result == Labelled(lines);

    if !Filled(result.name) || !Filled(result.fatherName) {
      result := FillByPosition(upperLines, originalLines, result, fatherLabel);
    }
    assert result == Positioned(lines);
    result := FillFatherAfterName(upperLines, originalLines, result);
    assert result == AfterNamed(lines);

    if Filled(result.name) {
      result := result.(name := Some(Clean(result.name.value)));
    }
    if Filled(result.fatherName) {
      result := result.(fatherName := Some(Clean(result.fatherName.value)));
    }
  }
}
