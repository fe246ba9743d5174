/**
 * `GoogleVisionService` (`src/modules/ocr/google-vision.service.ts`): the
 * text of the first annotation of a Vision `textDetection` reply becomes
 * the trimmed, non-empty lines of the image. The Vision client itself is
 * outside the model; its reply (or the error it rejects with) is an input.
 */
module GoogleVision {
  import opened Common
  import opened Text
  import opened Errors

  /** One text annotation; `description` may be absent. */
  datatype Annotation = Annotation(description: Option<string>)

  /** `result.textAnnotations`, which may be absent. */
  datatype VisionReply = VisionReply(textAnnotations: Option<seq<Annotation>>)

  /** A line as Vision's lines come out: non-empty, without surrounding white space, without a newline. */
  predicate IsCleanLine(line: string)
  {
    line != "" && !IsWs(line[0]) && !IsWs(line[|line| - 1]) && '\n' !in line
  }

  /** A clean line is its own trim. */
  lemma CleanLineTrimmed(line: string)
    requires IsCleanLine(line)
    ensures Trim(line) == line
  {
    TrimNoWsBorders(line);
  }

  /** Trimmed lines, dropping the empty ones. */
  function TrimmedLines(pieces: seq<string>): (r: seq<string>)
    ensures |r| <= |pieces|
  {
    if |pieces| == 0 then []
    else if Trim(pieces[0]) == "" then TrimmedLines(pieces[1..])
    else [Trim(pieces[0])] + TrimmedLines(pieces[1..])
  }

  /** `fullText.split('\n').map(trim).filter(l => l.length > 0)` */
  function Normalise(fullText: string): (lines: seq<string>)
    ensures forall k | 0 <= k < |lines| :: IsCleanLine(lines[k])
  {
    var pieces := Split(fullText, '\n');
    TrimmedLinesClean(pieces);
    TrimmedLines(pieces)
  }

  lemma TrimmedLineClean(piece: string)
    requires '\n' !in piece && Trim(piece) != ""
    ensures IsCleanLine(Trim(piece))
  {
    var t := Trim(piece);
    assert forall k | 0 <= k < |t| :: t[k] == piece[|piece| - |TrimStart(piece)| + k];
  }

  lemma {:induction false} TrimmedLinesClean(pieces: seq<string>)
    requires forall k | 0 <= k < |pieces| :: '\n' !in pieces[k]
    ensures forall k | 0 <= k < |TrimmedLines(pieces)| :: IsCleanLine(TrimmedLines(pieces)[k])
  {
    if |pieces| > 0 {
      var rest := TrimmedLines(pieces[1..]);
      TrimmedLinesClean(pieces[1..]);
      assert '\n' !in pieces[0];
      if Trim(pieces[0]) != "" {
        TrimmedLineClean(pieces[0]);
        CleanCons(Trim(pieces[0]), rest);
        assert TrimmedLines(pieces) == [Trim(pieces[0])] + rest;
      } else {
        assert TrimmedLines(pieces) == rest;
      }
    }
  }

  lemma CleanCons(line: string, rest: seq<string>)
    requires IsCleanLine(line) && forall k | 0 <= k < |rest| :: IsCleanLine(rest[k])
    ensures forall k | 0 <= k < |[line] + rest| :: IsCleanLine(([line] + rest)[k])
  {
    forall k | 0 <= k < |[line] + rest|
      ensures IsCleanLine(([line] + rest)[k])
    {
      if k > 0 {
        assert ([line] + rest)[k] == rest[k - 1];
      }
    }
  }

  lemma {:induction false} TrimmedLinesConcat(a: seq<string>, b: seq<string>)
    ensures TrimmedLines(a + b) == TrimmedLines(a) + TrimmedLines(b)
  {
    if |a| > 0 {
      assert (a + b)[1..] == a[1..] + b;
      TrimmedLinesConcat(a[1..], b);
    } else {
      assert a + b == b;
    }
  }

  /** The lines of two texts separated by a newline are the lines of the first followed by those of the second. */
  lemma NormaliseConcat(a: string, b: string)
    ensures Normalise(a + "\n" + b) == Normalise(a) + Normalise(b)
  {
    assert a + "\n" + b == a + ['\n'] + b;
    SplitConcat(a, b, '\n');
    TrimmedLinesConcat(Split(a, '\n'), Split(b, '\n'));
  }

  /** A text without a newline is one line: its trim, unless that is empty. */
  lemma NormaliseOneLine(s: string)
    requires '\n' !in s
    ensures Trim(s) != "" ==> Normalise(s) == [Trim(s)]
    ensures Trim(s) == "" ==> Normalise(s) == []
  {
    SplitWithoutSeparator(s, '\n');
  }

  /** Normalising the lines joined back by newlines gives the same lines. */
  lemma {:induction false} NormaliseIdempotent(fullText: string)
    ensures Normalise(Join(Normalise(fullText), "\n")) == Normalise(fullText)
  {
    NormaliseJoin(Normalise(fullText));
  }

  /** A clean line put in front of text that normalises to `rest` adds itself in front of `rest`. */
  lemma NormaliseJoinStep(line: string, rest: seq<string>)
    requires IsCleanLine(line)
    requires Normalise(Join(rest, "\n")) == rest
    ensures Normalise(line + "\n" + Join(rest, "\n")) == [line] + rest
  {
    CleanLineTrimmed(line);
    NormaliseOneLine(line);
    NormaliseConcat(line, Join(rest, "\n"));
  }

  lemma {:induction false} NormaliseJoin(lines: seq<string>)
    requires forall k | 0 <= k < |lines| :: IsCleanLine(lines[k])
    ensures Normalise(Join(lines, "\n")) == lines
  {
    if |lines| == 0 {
      NormaliseEmpty();
    } else if |lines| == 1 {
      CleanLineTrimmed(lines[0]);
      NormaliseOneLine(lines[0]);
    } else {
      var line, rest := lines[0], lines[1..];
      NormaliseJoin(rest);
      NormaliseJoinStep(line, rest);
      assert Join(lines, "\n") == line + "\n" + Join(rest, "\n");
      assert [line] + rest == lines;
    }
  }

  /** The empty text has no lines. */
  lemma NormaliseEmpty()
    ensures Normalise("") == []
  {
    assert Split("", '\n') == [""];
    assert Trim("") == "";
  }

  /**
   * `extractTextFromImage` and `extractTextFromImageUrl`: the normalised
   * text of the first annotation when there is one, no lines when there are
   * no annotations, and the client's error rethrown unchanged.
   */
  function ExtractText(call: Result<VisionReply, Thrown>): (r: Result<seq<string>, Thrown>)
    ensures call.Failure? ==> r == Failure(call.error)
    ensures call.Success? ==> r.Success?
    ensures call.Success? && (call.value.textAnnotations.None? || |call.value.textAnnotations.value| == 0) ==>
              r.value == []
    ensures call.Success? && call.value.textAnnotations.Some? && |call.value.textAnnotations.value| > 0 ==>
              r.value == Normalise(call.value.textAnnotations.value[0].description.GetOr(""))
  {
    match call
    case Failure(e) => Failure(e)
    case Success(reply) =>
      match reply.textAnnotations
      case Some(detections) =>
        if |detections| > 0 then Success(Normalise(detections[0].description.GetOr("")))
        else Success([])
      case None => Success([])
  }
}
