/** The browser client's sequential logic (public/app.js): the reader of the code-generation
    event stream, the step numbering of the wizard, and the project name taken from an
    uploaded file's name. */
module ClientApp {
  import opened JsText
  import opened Generate

  // ---------------------------------------------------------------------------
  // The event-stream reader
  // ---------------------------------------------------------------------------

  const DataPrefix: string := "data: "

  /** What the reader has recorded: the local `fileCount` counter and `state.generatedCode`
      (its `fileCount`, once a `complete` event arrived). */
  datatype Tally = Tally(fileCount: nat, generatedCode: Option<nat>)

  /** The payload decoder (`JSON.parse`): the event a `data:` payload denotes, or None when it
      does not parse. It is a parameter; nothing is assumed about it unless a lemma says so. */
  type Parser = string -> Option<Event>

  /** One line of the `for (const line of lines)` loop. Only `data: ` lines are decoded, from
      the text after the 6-character prefix; a `file` event counts one more file, `complete`
      records the server's count, and the throw for an `error` event, like a parse failure,
      is caught by the inner `catch` and changes nothing. */
  function HandleLine(parse: Parser, t: Tally, line: string): Tally {
    if !StartsWith(line, DataPrefix) then t
    else match parse(line[|DataPrefix|..])
      case Some(FileStarted(_)) => t.(fileCount := t.fileCount + 1)
      case Some(Complete(_, n)) => t.(generatedCode := Some(n))
      case _ => t
  }

  function HandleLines(parse: Parser, t: Tally, lines: seq<string>): Tally
    decreases |lines|
  {
    if |lines| == 0 then t else HandleLine(parse, HandleLines(parse, t, Init(lines)), Last(lines))
  }

  /** The reader between chunks: the pending fragment `buffer` and the tally. */
  datatype Reader = Reader(buffer: string, tally: Tally)

  /** One chunk: `buffer += chunk`, split on newlines, the last segment goes back to
      `buffer`, the others are handled in order. */
  function Feed(parse: Parser, r: Reader, chunk: string): Reader {
    var lines := Split(r.buffer + chunk, '\n');
    Reader(Last(lines), HandleLines(parse, r.tally, Init(lines)))
  }

  function FeedAll(parse: Parser, r: Reader, chunks: seq<string>): Reader
    decreases |chunks|
  {
    if |chunks| == 0 then r else Feed(parse, FeedAll(parse, r, Init(chunks)), Last(chunks))
  }

  function Concat(chunks: seq<string>): string
    decreases |chunks|
  {
    if |chunks| == 0 then "" else Concat(Init(chunks)) + Last(chunks)
  }

  /** The reader of `startCodeGeneration`, with the fields it updates. */
  class GenerationReader {
    var buffer: string
    var fileCount: nat
    var generatedCode: Option<nat>

    function State(): Reader
      reads this
    {
      Reader(buffer, Tally(fileCount, generatedCode))
    }

    constructor ()
      ensures State() == Reader("", Tally(0, None))
    {
      buffer, fileCount, generatedCode := "", 0, None;
    }

    /** The body of the `while (true)` loop for one chunk that is not `done`. */
    method OnChunk(parse: Parser, chunk: string)
      modifies this
      ensures State() == Feed(parse, old(State()), chunk)
    {
      buffer := buffer + chunk;
      var lines := Split(buffer, '\n');
      buffer := Last(lines);
      lines := Init(lines);
      ghost var start := fileCount;
      ghost var startCode := generatedCode;
      for i := 0 to |lines|
        invariant Tally(fileCount, generatedCode) == HandleLines(parse, Tally(start, startCode), lines[..i])
        invariant buffer == Last(Split(old(buffer) + chunk, '\n'))
      {
        assert lines[..i + 1] == lines[..i] + [lines[i]];
        var line := lines[i];
        if StartsWith(line, DataPrefix) {
          match parse(line[|DataPrefix|..]) {
            case Some(FileStarted(_)) =>
              fileCount := fileCount + 1;
            case Some(Complete(_, n)) =>
              generatedCode := Some(n);
            case _ =>
          }
        }
      }
      assert lines[..|lines|] == lines;
    }

    /** The whole `while (true)` loop: every chunk until `done`. A fragment left in `buffer`
        at the end is dropped. */
    method ReadAll(parse: Parser, chunks: seq<string>)
      modifies this
      ensures State() == FeedAll(parse, old(State()), chunks)
    {
      for i := 0 to |chunks|
        invariant State() == FeedAll(parse, old(State()), chunks[..i])
      {
        assert Init(chunks[..i + 1]) == chunks[..i];
        OnChunk(parse, chunks[i]);
      }
      assert chunks[..|chunks|] == chunks;
    }
  }

  // ---------------------------------------------------------------------------
  // Properties of the reader
  // ---------------------------------------------------------------------------

  lemma {:induction false} HandleLinesAppend(parse: Parser, t: Tally, a: seq<string>, b: seq<string>)
    ensures HandleLines(parse, t, a + b) == HandleLines(parse, HandleLines(parse, t, a), b)
    decreases |b|
  {
    if |b| == 0 {
      assert a + b == a;
    } else {
      assert Init(a + b) == a + Init(b);
      HandleLinesAppend(parse, t, a, Init(b));
    }
  }

  /** After each chunk, the lines handled, each followed by a newline, and then the new
      buffer give back the old buffer followed by the chunk; no handled line holds a newline. */
  lemma ChunkLines(parse: Parser, r: Reader, chunk: string)
    ensures var lines := Split(r.buffer + chunk, '\n');
      Feed(parse, r, chunk).buffer == Last(lines)
      && (if |lines| == 1 then "" else Join(Init(lines), "\n") + "\n") + Feed(parse, r, chunk).buffer
        == r.buffer + chunk
      && forall k :: 0 <= k < |Init(lines)| ==> '\n' !in Init(lines)[k]
  {
    SplitRejoin(r.buffer + chunk, '\n');
  }

  /** The reader does not depend on where the chunks split: starting from an empty buffer,
      it has handled exactly the complete lines of the text received so far, and holds the
      incomplete last line. */
  lemma {:induction false} ChunkIndependence(parse: Parser, t: Tally, chunks: seq<string>)
    ensures var lines := Split(Concat(chunks), '\n');
      FeedAll(parse, Reader("", t), chunks) == Reader(Last(lines), HandleLines(parse, t, Init(lines)))
    decreases |chunks|
  {
    if |chunks| > 0 {
      var before := Concat(Init(chunks));
      var c := Last(chunks);
      ChunkIndependence(parse, t, Init(chunks));
      var prev := Split(before, '\n');
      var tail := Split(Last(prev) + c, '\n');
      SplitAppend(before, c, '\n');
      assert Split(Concat(chunks), '\n') == Init(prev) + tail;
      assert Init(Init(prev) + tail) == Init(prev) + Init(tail);
      HandleLinesAppend(parse, t, Init(prev), Init(tail));
    } else {
      SplitWithoutSeparator("", '\n');
    }
  }

  /** Two chunkings of the same text leave the reader in the same state. */
  lemma SameTextSameReader(parse: Parser, t: Tally, a: seq<string>, b: seq<string>)
    requires Concat(a) == Concat(b)
    ensures FeedAll(parse, Reader("", t), a) == FeedAll(parse, Reader("", t), b)
  {
    ChunkIndependence(parse, t, a);
    ChunkIndependence(parse, t, b);
  }

  /** Every line is handled exactly when the text received ends with a newline; otherwise the
      last line stays in the buffer and is never handled. */
  lemma {:induction false} BufferEmptyAfterNewline(parse: Parser, t: Tally, chunks: seq<string>)
    requires |Concat(chunks)| > 0
    ensures FeedAll(parse, Reader("", t), chunks).buffer == ""
      <==> Concat(chunks)[|Concat(chunks)| - 1] == '\n'
  {
    var s := Concat(chunks);
    ChunkIndependence(parse, t, chunks);
    SplitRejoin(s, '\n');
    var lines := Split(s, '\n');
    if Last(lines) == "" {
      assert |lines| > 1;
    } else {
      assert s[|s| - 1] == Last(lines)[|Last(lines)| - 1];
    }
  }

  // ---------------------------------------------------------------------------
  // The reader against the server's framing
  // ---------------------------------------------------------------------------

  /** The server writes each event as `data: <json>\n\n`. */
  function Frames(encode: Event -> string, events: seq<Event>): string
    decreases |events|
  {
    if |events| == 0 then "" else DataPrefix + encode(events[0]) + "\n\n" + Frames(encode, events[1..])
  }

  /** The lines of the framed events: the data line, then an empty line, per event. */
  function FrameLines(encode: Event -> string, events: seq<Event>): seq<string>
    decreases |events|
  {
    if |events| == 0 then [] else [DataPrefix + encode(events[0]), ""] + FrameLines(encode, events[1..])
  }

  /** The number of `file` events. */
  function FileEvents(events: seq<Event>): nat
    decreases |events|
  {
    if |events| == 0 then 0 else (if events[0].FileStarted? then 1 else 0) + FileEvents(events[1..])
  }

  /** The count of the last `complete` event, if any. */
  function LastComplete(events: seq<Event>): Option<nat>
    decreases |events|
  {
    if |events| == 0 then None
    else if Last(events).Complete? then Some(Last(events).fileCount)
    else LastComplete(Init(events))
  }

  /** The decoder reads back what the encoder writes, and the encoding is on one line. */
  predicate RoundTrips(parse: Parser, encode: Event -> string, events: seq<Event>) {
    forall k :: 0 <= k < |events| ==> '\n' !in encode(events[k]) && parse(encode(events[k])) == Some(events[k])
  }

  lemma {:induction false} SplitFrames(encode: Event -> string, events: seq<Event>)
    requires forall k :: 0 <= k < |events| ==> '\n' !in encode(events[k])
    ensures Split(Frames(encode, events), '\n') == FrameLines(encode, events) + [""]
    decreases |events|
  {
    if |events| > 0 {
      var line := DataPrefix + encode(events[0]);
      var rest := Frames(encode, events[1..]);
      SplitFrames(encode, events[1..]);
      assert '\n' !in line by {
        assert forall k :: 0 <= k < |line| ==> line[k] == (DataPrefix + encode(events[0]))[k];
        assert '\n' !in encode(events[0]);
      }
      assert Frames(encode, events) == line + ['\n'] + ("" + ['\n'] + rest);
      SplitSegmentThenSeparator(line, "" + ['\n'] + rest, '\n');
      SplitSegmentThenSeparator("", rest, '\n');
    } else {
      SplitWithoutSeparator("", '\n');
    }
  }

  lemma {:induction false} HandleFrameLines(parse: Parser, encode: Event -> string, t: Tally, events: seq<Event>)
    requires RoundTrips(parse, encode, events)
    ensures HandleLines(parse, t, FrameLines(encode, events)).fileCount == t.fileCount + FileEvents(events)
    ensures HandleLines(parse, t, FrameLines(encode, events)).generatedCode
      == (if LastComplete(events).Some? then LastComplete(events) else t.generatedCode)
    decreases |events|
  {
    if |events| > 0 {
      var e := events[0];
      var line := DataPrefix + encode(e);
      assert StartsWith(line, DataPrefix) && line[|DataPrefix|..] == encode(e);
      assert !StartsWith("", DataPrefix);
      var t' := HandleLine(parse, t, line);
      assert HandleLines(parse, t, [line, ""]) == t' by {
        assert Init([line, ""]) == [line] && Init([line]) == [];
        assert HandleLines(parse, t, [line]) == t';
        assert HandleLine(parse, t', "") == t';
      }
      HandleLinesAppend(parse, t, [line, ""], FrameLines(encode, events[1..]));
      HandleFrameLines(parse, encode, t', events[1..]);
      LastCompleteCons(e, events[1..]);
      assert events == [e] + events[1..];
      assert parse(encode(e)) == Some(e);
    }
  }

  lemma {:induction false} LastCompleteCons(e: Event, events: seq<Event>)
    ensures LastComplete([e] + events)
      == (if LastComplete(events).Some? then LastComplete(events)
          else if e.Complete? then Some(e.fileCount) else None)
    decreases |events|
  {
    if |events| > 0 {
      assert Init([e] + events) == [e] + Init(events);
      LastCompleteCons(e, Init(events));
    } else {
      assert [e] + events == [e];
      assert Init([e]) == [];
    }
  }

  /** End to end: however the server's frames are cut into chunks, the client counts one file
      per `file` event and records the count of the last `complete` event (the server's
      count, not its own), and nothing is left in the buffer. */
  lemma ClientReadsServerEvents(parse: Parser, encode: Event -> string, events: seq<Event>, chunks: seq<string>)
    requires RoundTrips(parse, encode, events)
    requires Concat(chunks) == Frames(encode, events)
    ensures FeedAll(parse, Reader("", Tally(0, None)), chunks)
      == Reader("", Tally(FileEvents(events), LastComplete(events)))
  {
    ChunkIndependence(parse, Tally(0, None), chunks);
    SplitFrames(encode, events);
    var lines := FrameLines(encode, events) + [""];
    assert Init(lines) == FrameLines(encode, events);
    HandleFrameLines(parse, encode, Tally(0, None), events);
  }

  // ---------------------------------------------------------------------------
  // Step numbers
  // ---------------------------------------------------------------------------

  const StepOrder: seq<string> := ["uploadStep", "analysisStep", "questionsStep", "confirmationStep",
    "knowledgeGraphStep", "generationStep", "deploymentStep"]

  /** Step `i` is numbered when its element has a `.step-number` child, unless it is the
      questions step and there are no questions. */
  predicate Numbered(hasNumber: seq<bool>, questions: nat, i: nat)
    requires |hasNumber| == |StepOrder| && i < |StepOrder|
  {
    hasNumber[i] && !(StepOrder[i] == "questionsStep" && questions == 0)
  }

  /** The number of numbered steps before step `i`. */
  function NumberedBefore(hasNumber: seq<bool>, questions: nat, i: nat): nat
    requires |hasNumber| == |StepOrder| && i <= |StepOrder|
    decreases i
  {
    if i == 0 then 0
    else NumberedBefore(hasNumber, questions, i - 1) + (if Numbered(hasNumber, questions, i - 1) then 1 else 0)
  }

  function StepLabel(k: nat): string {
    "Step " + NatToString(k)
  }

  /** `updateStepNumbers`: the label written into each step's number element (None where
      nothing is written). `hasNumber[i]` says whether step `StepOrder[i]` has one. */
  method UpdateStepNumbers(hasNumber: seq<bool>, questions: nat) returns (labels: seq<Option<string>>)
    requires |hasNumber| == |StepOrder|
    ensures |labels| == |StepOrder|
    ensures forall i :: 0 <= i < |StepOrder| ==>
      labels[i] == if Numbered(hasNumber, questions, i)
        then Some(StepLabel(NumberedBefore(hasNumber, questions, i) + 1)) else None
  {
    labels := [];
    var currentStep := 1;
    for index := 0 to |StepOrder|
      invariant |labels| == index
      invariant currentStep == NumberedBefore(hasNumber, questions, index) + 1
      invariant forall i :: 0 <= i < index ==>
        labels[i] == if Numbered(hasNumber, questions, i)
          then Some(StepLabel(NumberedBefore(hasNumber, questions, i) + 1)) else None
    {
      if !hasNumber[index] {
        labels := labels + [None];
      } else if StepOrder[index] == "questionsStep" && questions == 0 {
        labels := labels + [None];
      } else {
        labels := labels + [Some(StepLabel(currentStep))];
        currentStep := currentStep + 1;
      }
    }
  }

  lemma {:induction false} NumberedBeforeMonotone(hasNumber: seq<bool>, questions: nat, i: nat, j: nat)
    requires |hasNumber| == |StepOrder| && i <= j <= |StepOrder|
    ensures NumberedBefore(hasNumber, questions, i) <= NumberedBefore(hasNumber, questions, j)
    ensures i < j && Numbered(hasNumber, questions, i) ==>
      NumberedBefore(hasNumber, questions, i) < NumberedBefore(hasNumber, questions, j)
    decreases j - i
  {
    if i < j {
      NumberedBeforeMonotone(hasNumber, questions, i, j - 1);
    }
  }

  /** The numbers run 1, 2, ... without gaps or repeats: every number up to the count of
      numbered steps labels exactly one step, in step order. */
  lemma {:induction false} StepNumbersHaveNoGaps(hasNumber: seq<bool>, questions: nat, k: nat)
    requires |hasNumber| == |StepOrder|
    requires 1 <= k <= NumberedBefore(hasNumber, questions, |StepOrder|)
    ensures exists i :: (0 <= i < |StepOrder| && Numbered(hasNumber, questions, i)
      && NumberedBefore(hasNumber, questions, i) + 1 == k)
  {
    var j := |StepOrder|;
    while NumberedBefore(hasNumber, questions, j - 1) >= k
      invariant 1 <= j <= |StepOrder|
      invariant NumberedBefore(hasNumber, questions, j) >= k
      decreases j
    {
      j := j - 1;
    }
    assert Numbered(hasNumber, questions, j - 1);
  }

  lemma StepNumbersDistinct(hasNumber: seq<bool>, questions: nat, i: nat, j: nat)
    requires |hasNumber| == |StepOrder| && i < j < |StepOrder|
    requires Numbered(hasNumber, questions, i) && Numbered(hasNumber, questions, j)
    ensures NumberedBefore(hasNumber, questions, i) < NumberedBefore(hasNumber, questions, j)
  {
    NumberedBeforeMonotone(hasNumber, questions, i, j);
  }

  lemma QuestionsStepIsThird()
    ensures StepOrder[2] == "questionsStep"
  {
  }

  /** Only the third step is the questions step. */
  lemma OnlyQuestionsStep(i: nat)
    requires i < |StepOrder| && i != 2
    ensures StepOrder[i] != "questionsStep"
  {
  }

  /** The steps before the questions step are numbered alike with and without questions. */
  lemma {:induction false} SameBeforeQuestions(hasNumber: seq<bool>, q: nat, j: nat)
    requires |hasNumber| == |StepOrder| && j <= 2
    ensures NumberedBefore(hasNumber, q, j) == NumberedBefore(hasNumber, 0, j)
    decreases j
  {
    if j > 0 {
      SameBeforeQuestions(hasNumber, q, j - 1);
      OnlyQuestionsStep(j - 1);
    }
  }

  /** With questions, every step after the questions step is counted one higher. */
  lemma {:induction false} ShiftAfterQuestions(hasNumber: seq<bool>, q: nat, j: nat)
    requires |hasNumber| == |StepOrder| && hasNumber[2] && q > 0 && 3 <= j <= |StepOrder|
    ensures NumberedBefore(hasNumber, q, j) == NumberedBefore(hasNumber, 0, j) + 1
    decreases j
  {
    assert StepOrder[2] == "questionsStep";
    if j == 3 {
      SameBeforeQuestions(hasNumber, q, 2);
    } else {
      ShiftAfterQuestions(hasNumber, q, j - 1);
      OnlyQuestionsStep(j - 1);
    }
  }

  /** Without questions the questions step gets no number, the steps before it keep theirs,
      and every step after it moves up by one against any non-zero number of questions. */
  lemma QuestionsStepSkipped(hasNumber: seq<bool>)
    requires |hasNumber| == |StepOrder| && hasNumber[2]
    ensures !Numbered(hasNumber, 0, 2)
    ensures forall q: nat :: q > 0 ==> Numbered(hasNumber, q, 2)
    ensures forall q: nat, j: nat :: j <= 2 ==> NumberedBefore(hasNumber, q, j) == NumberedBefore(hasNumber, 0, j)
    ensures forall q: nat, j: nat :: q > 0 && 3 <= j <= |StepOrder| ==>
      NumberedBefore(hasNumber, q, j) == NumberedBefore(hasNumber, 0, j) + 1
  {
    QuestionsStepIsThird();
    forall q: nat, j: nat | j <= 2 {
      SameBeforeQuestions(hasNumber, q, j);
    }
    forall q: nat, j: nat | q > 0 && 3 <= j <= |StepOrder| {
      ShiftAfterQuestions(hasNumber, q, j);
    }
  }

  // ---------------------------------------------------------------------------
  // Project name from a file name
  // ---------------------------------------------------------------------------

  /** A valid final extension for `/\.[^/.]+$/`: non-empty, without `/` or `.`. */
  predicate IsExtension(ext: string) {
    |ext| > 0 && '/' !in ext && '.' !in ext
  }

  /** `name.replace(/\.[^/.]+$/, '')`: the last extension removed, when there is one. */
  function StripExtension(name: string): string {
    var d := LastIndexOf(name, '.');
    if d.Some? && IsExtension(name[d.value + 1..]) then name[..d.value] else name
  }

  /** The project name the client sends with an upload. */
  function ProjectName(fileName: string): string {
    ReplaceChar(ReplaceChar(StripExtension(fileName), '-', ' '), '_', ' ')
  }

  /** Stripping removes exactly one valid final extension, or nothing when the name does
      not end in one. */
  lemma StripExtensionSpec(name: string, base: string, ext: string)
    ensures name == base + "." + ext && IsExtension(ext) ==> StripExtension(name) == base
    ensures (forall b, e :: name == b + "." + e ==> !IsExtension(e)) ==> StripExtension(name) == name
  {
    if name == base + "." + ext && IsExtension(ext) {
      var d := LastIndexOf(name, '.');
      assert name[|base|] == '.';
      assert name[|base| + 1..] == ext;
    }
    var d := LastIndexOf(name, '.');
    if d.Some? && IsExtension(name[d.value + 1..]) {
      assert name == name[..d.value] + "." + name[d.value + 1..];
    }
  }

  /** The project name has no `-` or `_`, is no longer than the file name, and keeps every
      other character of the stripped name. */
  lemma ProjectNameShape(fileName: string)
    ensures var p := ProjectName(fileName); var b := StripExtension(fileName);
      |p| == |b| <= |fileName| && '-' !in p && '_' !in p
      && forall k :: 0 <= k < |b| ==> p[k] == (if b[k] == '-' || b[k] == '_' then ' ' else b[k])
  {
    var b := StripExtension(fileName);
    var p := ProjectName(fileName);
    assert forall k :: 0 <= k < |p| ==> p[k] == (if b[k] == '-' || b[k] == '_' then ' ' else b[k]);
  }
}
