/** The streaming file-marker extractor of the code-generation route (src/routes/generate.js):
    text deltas from the generative-text stream are cut into lines, the lines drive a two-state
    machine (no file open / a file open), every file seen is collected, and the route writes an
    ordered event stream (status, file, progress, then complete or error) to its HTTP response. */
module Generate {
  import opened JsText

  const FileMarker: string := "=== FILENAME:"
  const EndMarker: string := "=== END FILE ==="
  const StartMessage: string := "Starting code generation..."

  datatype GeneratedFile = GeneratedFile(filename: string, content: string)

  /** The messages the route writes to its event stream, one `data:` line each
      (the `duration` field of `complete` is a clock reading and is not modelled). */
  datatype Event =
    | Status(message: string)
    | FileStarted(filename: string)
    | Progress(length: nat)
    | Complete(projectId: string, fileCount: nat)
    | Failed(error: string)

  predicate IsTerminal(e: Event) {
    e.Complete? || e.Failed?
  }

  /** The events written while the stream is being read. */
  predicate IsStreamingEvent(e: Event) {
    e.FileStarted? || e.Progress?
  }

  // ---------------------------------------------------------------------------
  // The HTTP response
  // ---------------------------------------------------------------------------

  /** What the client receives: a JSON error reply, or the event stream. */
  datatype Reply = JsonError(status: nat, error: string) | EventStream(events: seq<Event>)

  /** The Express response object: `res.write` appends to the event stream, `res.json` and
      `res.end` finish the response; nothing may be written once it is finished. */
  class Response {
    var events: seq<Event>
    var json: Option<(nat, string)>
    var ended: bool

    constructor ()
      ensures events == [] && json == None && !ended
    {
      events, json, ended := [], None, false;
    }

    function Sent(): Reply
      reads this
    {
      if json.Some? then JsonError(json.value.0, json.value.1) else EventStream(events)
    }

    method Write(e: Event)
      requires !ended
      modifies this
      ensures events == old(events) + [e] && json == old(json) && !ended
    {
      events := events + [e];
    }

    method End()
      requires !ended
      modifies this
      ensures ended && events == old(events) && json == old(json)
    {
      ended := true;
    }

    /** `res.status(status).json({ success: false, error })` */
    method SendError(status: nat, error: string)
      requires !ended
      modifies this
      ensures ended && events == old(events) && json == Some((status, error))
    {
      json := Some((status, error));
      ended := true;
    }
  }

  // ---------------------------------------------------------------------------
  // The line state machine, as functions
  // ---------------------------------------------------------------------------

  /** The route's variables `fullResponse`, `currentFile`, `currentContent`, `generatedFiles`,
      and the events written so far. JavaScript treats a null `currentFile` and an empty one
      alike (both are false), so the empty string stands for both: a file is open exactly
      when `currentFile` is not empty. `currentContent` is at once the body of the open file
      and the incomplete line carried over from the previous delta. */
  datatype Extraction = Extraction(
    fullResponse: string,
    currentFile: string,
    currentContent: string,
    files: seq<GeneratedFile>,
    events: seq<Event>)

  predicate IsOpen(x: Extraction) {
    x.currentFile != ""
  }

  /** The name a start-marker line opens: the line with the marker removed, trimmed.
      A trailing `===` stays part of the name. */
  function MarkerFilename(line: string): string
    requires StartsWith(line, FileMarker)
  {
    Trim(line[|FileMarker|..])
  }

  /** `generatedFiles.push({ filename: currentFile, content: currentContent.trim() })` */
  function SealOpen(x: Extraction): seq<GeneratedFile> {
    x.files + [GeneratedFile(x.currentFile, Trim(x.currentContent))]
  }

  /** One iteration of the per-line loop. */
  function ProcessLine(x: Extraction, line: string): Extraction {
    if StartsWith(line, FileMarker) then
      var y := if IsOpen(x) then x.(files := SealOpen(x), currentContent := "") else x;
      var name := MarkerFilename(line);
      y.(currentFile := name, events := y.events + [FileStarted(name)])
    else if StartsWith(line, EndMarker) then
      if IsOpen(x) then x.(files := SealOpen(x), currentContent := "", currentFile := "") else x
    else if IsOpen(x) then
      x.(currentContent := x.currentContent + line + "\n")
    else
      x
  }

  function ProcessLines(x: Extraction, lines: seq<string>): Extraction
    decreases |lines|
  {
    if |lines| == 0 then x else ProcessLine(ProcessLines(x, Init(lines)), Last(lines))
  }

  /** One text delta: the response grows, `currentContent + text` is split on newlines, the
      last segment becomes `currentContent`, the other segments are processed as lines, and
      one progress event reports the response length. */
  function DeltaStep(x: Extraction, text: string): Extraction {
    var parts := Split(x.currentContent + text, '\n');
    var y := ProcessLines(x.(fullResponse := x.fullResponse + text, currentContent := Last(parts)), Init(parts));
    y.(events := y.events + [Progress(|y.fullResponse|)])
  }

  /** The deltas applied in stream order. */
  function DeltaStepsFrom(x: Extraction, texts: seq<string>): Extraction
    decreases |texts|
  {
    if |texts| == 0 then x else DeltaStepsFrom(DeltaStep(x, texts[0]), texts[1..])
  }

  /** End of stream: the open file is kept only when `currentContent` is not empty. */
  function Flush(x: Extraction): Extraction {
    if IsOpen(x) && x.currentContent != "" then x.(files := SealOpen(x)) else x
  }

  // ---------------------------------------------------------------------------
  // The extractor object
  // ---------------------------------------------------------------------------

  /** The route's extraction variables, writing its events to `res`. */
  class Extractor {
    const res: Response
    var fullResponse: string
    var currentFile: string
    var currentContent: string
    var generatedFiles: seq<GeneratedFile>

    function State(): Extraction
      reads this, res
    {
      Extraction(fullResponse, currentFile, currentContent, generatedFiles, res.events)
    }

    constructor (res: Response)
      ensures this.res == res
      ensures State() == Extraction("", "", "", [], res.events)
    {
      this.res := res;
      fullResponse, currentFile, currentContent, generatedFiles := "", "", "", [];
    }

    /** The body of the `content_block_delta` / `text_delta` branch. */
    method OnDelta(text: string)
      requires !res.ended
      modifies this, res
      ensures State() == DeltaStep(old(State()), text)
      ensures !res.ended && res.json == old(res.json)
    {
      ghost var before := State();
      fullResponse := fullResponse + text;
      var lines := Split(currentContent + text, '\n');
      currentContent := Last(lines);
      lines := Init(lines);
      ghost var start := State();
      assert start == before.(fullResponse := before.fullResponse + text, currentContent := currentContent);
      for i := 0 to |lines|
        invariant State() == ProcessLines(start, lines[..i])
        invariant !res.ended && res.json == old(res.json)
      {
        assert lines[..i + 1] == lines[..i] + [lines[i]];
        var line := lines[i];
        if StartsWith(line, FileMarker) {
          if currentFile != "" {
            generatedFiles := generatedFiles + [GeneratedFile(currentFile, Trim(currentContent))];
            currentContent := "";
          }
          currentFile := Trim(line[|FileMarker|..]);
          res.Write(FileStarted(currentFile));
        } else if StartsWith(line, EndMarker) {
          if currentFile != "" {
            generatedFiles := generatedFiles + [GeneratedFile(currentFile, Trim(currentContent))];
            currentContent := "";
            currentFile := "";
          }
        } else if currentFile != "" {
          currentContent := currentContent + line + "\n";
        }
      }
      assert lines[..|lines|] == lines;
      res.Write(Progress(|fullResponse|));
    }

    /** "Save last file if exists". */
    method Finish()
      modifies this
      ensures State() == Flush(old(State()))
    {
      if currentFile != "" && currentContent != "" {
        generatedFiles := generatedFiles + [GeneratedFile(currentFile, Trim(currentContent))];
      }
    }
  }

  // ---------------------------------------------------------------------------
  // Properties of the state machine
  // ---------------------------------------------------------------------------

  /** No line starts with both markers. */
  lemma MarkersExclusive(line: string)
    ensures StartsWith(line, FileMarker) ==> !StartsWith(line, EndMarker)
  {
    if StartsWith(line, FileMarker) {
      assert line[4] == line[..|FileMarker|][4] == FileMarker[4] == 'F';
      assert EndMarker[4] == 'E';
    }
  }

  /** What one line changes: the response is untouched, a start marker writes one `file`
      event and nothing else does, and the file list is kept or grows by the open file. */
  lemma LineEffect(x: Extraction, line: string)
    ensures ProcessLine(x, line).fullResponse == x.fullResponse
    ensures ProcessLine(x, line).events
      == x.events + (if StartsWith(line, FileMarker) then [FileStarted(MarkerFilename(line))] else [])
    ensures ProcessLine(x, line).files == x.files
      || (IsOpen(x) && ProcessLine(x, line).files == SealOpen(x))
  {
    MarkersExclusive(line);
  }

  /** What a single line does in each state. */
  lemma LineTransitions(x: Extraction, line: string)
    ensures StartsWith(line, FileMarker) ==>
      ProcessLine(x, line).currentFile == MarkerFilename(line)
      && ProcessLine(x, line).files == (if IsOpen(x) then SealOpen(x) else x.files)
      && ProcessLine(x, line).currentContent == (if IsOpen(x) then "" else x.currentContent)
      && ProcessLine(x, line).events == x.events + [FileStarted(MarkerFilename(line))]
    ensures StartsWith(line, EndMarker) && !IsOpen(x) ==> ProcessLine(x, line) == x
    ensures StartsWith(line, EndMarker) && IsOpen(x) ==>
      ProcessLine(x, line) == x.(files := SealOpen(x), currentContent := "", currentFile := "")
    ensures !StartsWith(line, FileMarker) && !StartsWith(line, EndMarker) && !IsOpen(x) ==>
      ProcessLine(x, line) == x
  {
    MarkersExclusive(line);
  }

  /** The `file` events the start-marker lines among `lines` write, in line order. */
  function MarkerEvents(lines: seq<string>): (evs: seq<Event>)
    ensures |evs| <= |lines|
    ensures forall k :: 0 <= k < |evs| ==> evs[k].FileStarted?
    decreases |lines|
  {
    if |lines| == 0 then []
    else
      var line := Last(lines);
      MarkerEvents(Init(lines)) + (if StartsWith(line, FileMarker) then [FileStarted(MarkerFilename(line))] else [])
  }

  /** Every start-marker line writes exactly one `file` event carrying its name, in line
      order, no other line writes an event, and events already written are kept as they are. */
  lemma {:induction false} LinesWriteMarkerEvents(x: Extraction, lines: seq<string>)
    ensures ProcessLines(x, lines).events == x.events + MarkerEvents(lines)
    ensures ProcessLines(x, lines).fullResponse == x.fullResponse
    decreases |lines|
  {
    if |lines| > 0 {
      LinesWriteMarkerEvents(x, Init(lines));
      LineEffect(ProcessLines(x, Init(lines)), Last(lines));
    }
  }

  /** Files are only ever appended: a name that is opened twice gives two entries, and no
      entry is changed or merged afterwards. */
  lemma {:induction false} FilesOnlyGrow(x: Extraction, lines: seq<string>)
    ensures StartsWith(ProcessLines(x, lines).files, x.files)
    ensures |ProcessLines(x, lines).files| <= |x.files| + |lines|
    decreases |lines|
  {
    if |lines| > 0 {
      FilesOnlyGrow(x, Init(lines));
      var y := ProcessLines(x, Init(lines));
      LineEffect(y, Last(lines));
      assert SealOpen(y)[..|x.files|] == y.files[..|x.files|];
    }
  }

  predicate AllTrimmed(files: seq<GeneratedFile>) {
    forall k :: 0 <= k < |files| ==> IsTrimmed(files[k].content)
  }

  /** Every stored content is trimmed. */
  lemma {:induction false} LinesKeepContentsTrimmed(x: Extraction, lines: seq<string>)
    requires AllTrimmed(x.files)
    ensures AllTrimmed(ProcessLines(x, lines).files)
    decreases |lines|
  {
    if |lines| > 0 {
      LinesKeepContentsTrimmed(x, Init(lines));
      LineEffect(ProcessLines(x, Init(lines)), Last(lines));
    }
  }

  /** A delta keeps every stored content trimmed. */
  lemma DeltaKeepsContentsTrimmed(x: Extraction, text: string)
    requires AllTrimmed(x.files)
    ensures AllTrimmed(DeltaStep(x, text).files)
  {
    var parts := Split(x.currentContent + text, '\n');
    LinesKeepContentsTrimmed(x.(fullResponse := x.fullResponse + text, currentContent := Last(parts)), Init(parts));
  }

  /** The end-of-stream push also stores a trimmed content. */
  lemma FlushKeepsContentsTrimmed(x: Extraction)
    requires AllTrimmed(x.files)
    ensures AllTrimmed(Flush(x).files)
  {
  }

  /** Reading the stream, up to its end or its first throw, keeps every stored content trimmed. */
  lemma {:induction false} StreamKeepsContentsTrimmed(x: Extraction, items: seq<StreamItem>)
    requires AllTrimmed(x.files)
    ensures AllTrimmed(RunStream(x, items).0.files)
    decreases |items|
  {
    if |items| > 0 {
      match items[0]
      case TextDelta(t) =>
        DeltaKeepsContentsTrimmed(x, t);
        StreamKeepsContentsTrimmed(DeltaStep(x, t), items[1..]);
      case OtherEvent =>
        StreamKeepsContentsTrimmed(x, items[1..]);
      case Thrown(m) =>
    }
  }

  /** The lines of a delta: all but the last newline-separated segment of the carried-over
      text followed by the delta; joined back with newlines, followed by a newline and the new
      `currentContent`, they give that text again. */
  lemma DeltaLines(x: Extraction, text: string)
    ensures var parts := Split(x.currentContent + text, '\n');
      (if |parts| == 1 then "" else Join(Init(parts), "\n") + "\n") + Last(parts) == x.currentContent + text
      && (forall k :: 0 <= k < |parts| ==> '\n' !in parts[k])
  {
    SplitRejoin(x.currentContent + text, '\n');
  }

  /** The carried-over fragment and the open file's body share one buffer: with a file open
      and no marker among a delta's lines, the new `currentContent` is the delta's incomplete
      last segment FOLLOWED by the delta's complete lines. */
  lemma {:induction false} BodyAppendedAfterFragment(x: Extraction, lines: seq<string>)
    requires IsOpen(x)
    requires forall k :: 0 <= k < |lines| ==> !StartsWith(lines[k], FileMarker) && !StartsWith(lines[k], EndMarker)
    ensures ProcessLines(x, lines) == x.(currentContent := x.currentContent + BodyText(lines))
    decreases |lines|
  {
    if |lines| > 0 {
      BodyAppendedAfterFragment(x, Init(lines));
      MarkersExclusive(Last(lines));
    }
  }

  /** The text the lines add to an open file's body: each line followed by a newline. */
  function BodyText(lines: seq<string>): string
    decreases |lines|
  {
    if |lines| == 0 then "" else BodyText(Init(lines)) + Last(lines) + "\n"
  }

  // ---------------------------------------------------------------------------
  // Progress events
  // ---------------------------------------------------------------------------

  function ProgressCount(events: seq<Event>): nat
    decreases |events|
  {
    if |events| == 0 then 0 else ProgressCount(Init(events)) + (if Last(events).Progress? then 1 else 0)
  }

  /** The progress lengths never decrease, and none exceeds `bound`. */
  predicate ProgressMonotone(events: seq<Event>, bound: nat) {
    (forall i, j :: 0 <= i < j < |events| && events[i].Progress? && events[j].Progress? ==>
      events[i].length <= events[j].length)
    && (forall i :: 0 <= i < |events| && events[i].Progress? ==> events[i].length <= bound)
  }

  lemma {:induction false} ProgressCountAppend(a: seq<Event>, b: seq<Event>)
    ensures ProgressCount(a + b) == ProgressCount(a) + ProgressCount(b)
    decreases |b|
  {
    if |b| > 0 {
      assert Init(a + b) == a + Init(b);
      ProgressCountAppend(a, Init(b));
    } else {
      assert a + b == a;
    }
  }

  lemma {:induction false} NoProgressAmongFileEvents(events: seq<Event>)
    requires forall k :: 0 <= k < |events| ==> events[k].FileStarted?
    ensures ProgressCount(events) == 0
    decreases |events|
  {
    if |events| > 0 {
      NoProgressAmongFileEvents(Init(events));
    }
  }

  /** Each delta writes exactly one progress event, carrying the cumulative response length,
      so the lengths reported never decrease. */
  lemma {:induction false} DeltaWritesOneProgress(x: Extraction, text: string)
    requires ProgressMonotone(x.events, |x.fullResponse|)
    ensures DeltaStep(x, text).fullResponse == x.fullResponse + text
    ensures Last(DeltaStep(x, text).events) == Progress(|x.fullResponse + text|)
    ensures ProgressCount(DeltaStep(x, text).events) == ProgressCount(x.events) + 1
    ensures ProgressMonotone(DeltaStep(x, text).events, |x.fullResponse + text|)
  {
    var parts := Split(x.currentContent + text, '\n');
    var x' := x.(fullResponse := x.fullResponse + text, currentContent := Last(parts));
    LinesWriteMarkerEvents(x', Init(parts));
    var added := MarkerEvents(Init(parts));
    var p := Progress(|x.fullResponse + text|);
    var evs := x.events + added + [p];
    assert DeltaStep(x, text).events == evs;
    NoProgressAmongFileEvents(added);
    ProgressCountAppend(x.events, added);
    ProgressCountAppend(x.events + added, [p]);
    assert Init([p]) == [];
  }

  // ---------------------------------------------------------------------------
  // Chunk boundaries matter
  // ---------------------------------------------------------------------------

  const Fresh: Extraction := Extraction("", "", "", [], [])
  const SampleMarker: string := "=== FILENAME: a ==="

  lemma SampleMarkerOpens()
    ensures StartsWith(SampleMarker, FileMarker) && MarkerFilename(SampleMarker) == "a ==="
    ensures '\n' !in SampleMarker && !StartsWith(SampleMarker, EndMarker)
  {
    assert SampleMarker[..|FileMarker|] == FileMarker;
    assert SampleMarker[|FileMarker|..] == " a ===";
    TrimSample();
    MarkersExclusive(SampleMarker);
  }

  lemma TrimSample()
    ensures Trim(" a ===") == "a ==="
  {
    TrimStartDrop(" a ===");
    assert " a ==="[1..] == "a ===";
    TrimmedName();
  }

  lemma TrimmedName()
    ensures TrimStart("a ===") == "a ===" && TrimEnd("a ===") == "a ==="
  {
    assert !IsSpace('a') && !IsSpace('=');
  }

  lemma TrimBodies()
    ensures Trim("yx\n\n") == "yx" && Trim("x\ny\n") == "x\ny"
  {
    assert !IsSpace('x') && !IsSpace('y');
    TrimEndDrop("yx\n\n");
    assert "yx\n\n"[..3] == "yx\n";
    TrimEndDrop("yx\n");
    assert "yx\n"[..2] == "yx";
    TrimEndDrop("x\ny\n");
    assert "x\ny\n"[..3] == "x\ny";
  }

  lemma EndMarkerCloses()
    ensures StartsWith(EndMarker, EndMarker) && !StartsWith(EndMarker, FileMarker)
    ensures '\n' !in EndMarker
  {
    assert EndMarker[..|EndMarker|] == EndMarker;
    assert EndMarker[4] == 'E';
  }

  lemma OpenLine(x: Extraction, line: string)
    requires StartsWith(line, FileMarker) && !IsOpen(x)
    ensures ProcessLine(x, line)
      == x.(currentFile := MarkerFilename(line), events := x.events + [FileStarted(MarkerFilename(line))])
  {
  }

  /** With a file open, any line that is neither marker is body text. */
  lemma BodyLine(x: Extraction, line: string)
    requires IsOpen(x) && !StartsWith(line, FileMarker) && !StartsWith(line, EndMarker)
    ensures ProcessLine(x, line) == x.(currentContent := x.currentContent + line + "\n")
  {
  }

  /** A line shorter than both markers starts with neither. */
  lemma ShortLineIsBody(line: string)
    requires |line| < |FileMarker|
    ensures !StartsWith(line, FileMarker) && !StartsWith(line, EndMarker)
  {
  }

  lemma CloseLine(x: Extraction)
    requires IsOpen(x)
    ensures ProcessLine(x, EndMarker) == x.(files := SealOpen(x), currentContent := "", currentFile := "")
  {
    EndMarkerCloses();
  }

  /** The bodies the sample runs build up, line by line. */
  lemma SampleBodies()
    ensures "" + "x" + "\n" == "x\n" && "x\n" + "y" + "\n" == "x\ny\n" && "" + "yx" + "\n" == "yx\n"
    ensures "yx\n" + "" + "\n" == "yx\n\n"
  {
  }

  lemma ProcessLinesSnoc(x: Extraction, lines: seq<string>, line: string)
    ensures ProcessLines(x, lines + [line]) == ProcessLine(ProcessLines(x, lines), line)
  {
    assert Init(lines + [line]) == lines;
  }

  lemma SplitFirstChunk()
    ensures Split(SampleMarker + "\nx\ny", '\n') == [SampleMarker, "x", "y"]
  {
    SampleMarkerOpens();
    assert SampleMarker + "\nx\ny" == SampleMarker + ['\n'] + "x\ny";
    SplitSegmentThenSeparator(SampleMarker, "x\ny", '\n');
    assert "x\ny" == "x" + ['\n'] + "y";
    SplitSegmentThenSeparator("x", "y", '\n');
    SplitWithoutSeparator("y", '\n');
  }

  lemma SplitSecondChunk()
    ensures Split("yx\n" + ("\n" + EndMarker + "\n"), '\n') == ["yx", "", EndMarker, ""]
  {
    EndMarkerCloses();
    assert "yx\n" + ("\n" + EndMarker + "\n") == "yx" + ['\n'] + ("" + ['\n'] + (EndMarker + ['\n'] + ""));
    SplitSegmentThenSeparator("yx", "" + ['\n'] + (EndMarker + ['\n'] + ""), '\n');
    SplitSegmentThenSeparator("", EndMarker + ['\n'] + "", '\n');
    SplitSegmentThenSeparator(EndMarker, "", '\n');
  }

  lemma SplitWholeText()
    ensures Split(SampleMarker + "\nx\ny\n" + EndMarker + "\n", '\n') == [SampleMarker, "x", "y", EndMarker, ""]
  {
    SampleMarkerOpens();
    EndMarkerCloses();
    assert SampleMarker + "\nx\ny\n" + EndMarker + "\n"
      == SampleMarker + ['\n'] + ("x" + ['\n'] + ("y" + ['\n'] + (EndMarker + ['\n'] + "")));
    SplitSegmentThenSeparator(SampleMarker, "x" + ['\n'] + ("y" + ['\n'] + (EndMarker + ['\n'] + "")), '\n');
    SplitSegmentThenSeparator("x", "y" + ['\n'] + (EndMarker + ['\n'] + ""), '\n');
    SplitSegmentThenSeparator("y", EndMarker + ['\n'] + "", '\n');
    SplitSegmentThenSeparator(EndMarker, "", '\n');
  }

  /** The first delta of the two-chunk run opens `a ===` and keeps `y` as the fragment, then
      appends the line `x` after it. */
  lemma FirstChunk()
    ensures DeltaStep(Fresh, SampleMarker + "\nx\ny").currentFile == "a ==="
    ensures DeltaStep(Fresh, SampleMarker + "\nx\ny").currentContent == "yx\n"
    ensures DeltaStep(Fresh, SampleMarker + "\nx\ny").files == []
  {
    SplitFirstChunk();
    var t := SampleMarker + "\nx\ny";
    assert Fresh.currentContent + t == t;
    var parts := Split(t, '\n');
    assert Last(parts) == "y";
    assert Init(parts) == [SampleMarker, "x"];
    FirstChunkLines(Fresh.(fullResponse := t, currentContent := "y"));
  }

  /** The two complete lines of the first delta, after the fragment `y` is kept back. */
  lemma FirstChunkLines(x: Extraction)
    requires !IsOpen(x) && x.currentContent == "y" && x.files == []
    ensures var y := ProcessLines(x, [SampleMarker, "x"]);
      y.currentFile == "a ===" && y.currentContent == "yx\n" && y.files == []
  {
    SampleMarkerOpens();
    var l1 := [] + [SampleMarker];
    assert [SampleMarker, "x"] == l1 + ["x"];
    ProcessLinesSnoc(x, [], SampleMarker);
    ProcessLinesSnoc(x, l1, "x");
    OpenLine(x, SampleMarker);
    var y1 := ProcessLine(x, SampleMarker);
    assert ProcessLines(x, l1) == y1 && IsOpen(y1) && y1.currentContent == "y" && y1.files == [];
    ShortLineIsBody("x");
    BodyLine(y1, "x");
    assert "y" + "x" + "\n" == "yx\n";
  }

  /** The second delta of the two-chunk run closes the file with the body `yx`. */
  lemma SecondChunk(x: Extraction)
    requires x.currentFile == "a ===" && x.currentContent == "yx\n" && x.files == []
    ensures DeltaStep(x, "\n" + EndMarker + "\n").files == [GeneratedFile("a ===", "yx")]
    ensures !IsOpen(DeltaStep(x, "\n" + EndMarker + "\n"))
  {
    var t := "\n" + EndMarker + "\n";
    SplitSecondChunk();
    var x' := x.(fullResponse := x.fullResponse + t, currentContent := "");
    var parts := Split(x.currentContent + t, '\n');
    var l1 := [] + ["yx"];
    var l2 := l1 + [""];
    var l3 := l2 + [EndMarker];
    assert Last(parts) == "";
    assert Init(parts) == l3;
    ProcessLinesSnoc(x', [], "yx");
    ProcessLinesSnoc(x', l1, "");
    ProcessLinesSnoc(x', l2, EndMarker);
    SampleBodies();
    ShortLineIsBody("yx");
    BodyLine(x', "yx");
    var y1 := ProcessLine(x', "yx");
    assert ProcessLines(x', l1) == y1 && y1.currentContent == "yx\n";
    ShortLineIsBody("");
    BodyLine(y1, "");
    var y2 := ProcessLine(y1, "");
    assert ProcessLines(x', l2) == y2 && IsOpen(y2) && y2.files == [] && y2.currentContent == "yx\n\n";
    CloseLine(y2);
    TrimBodies();
    var y3 := ProcessLine(y2, EndMarker);
    assert ProcessLines(x', l3) == y3;
    assert DeltaStep(x, t).files == y3.files;
  }

  /** The lines of the one-chunk run open `a ===`, add `x` and `y`, and close it. */
  lemma WholeLines(x: Extraction)
    requires !IsOpen(x) && x.currentContent == "" && x.files == []
    ensures ProcessLines(x, [] + [SampleMarker] + ["x"] + ["y"] + [EndMarker]).files == [GeneratedFile("a ===", "x\ny")]
    ensures !IsOpen(ProcessLines(x, [] + [SampleMarker] + ["x"] + ["y"] + [EndMarker]))
  {
    SampleMarkerOpens();
    var l1 := [] + [SampleMarker];
    var l2 := l1 + ["x"];
    var l3 := l2 + ["y"];
    var l4 := l3 + [EndMarker];
    ProcessLinesSnoc(x, [], SampleMarker);
    ProcessLinesSnoc(x, l1, "x");
    ProcessLinesSnoc(x, l2, "y");
    ProcessLinesSnoc(x, l3, EndMarker);
    OpenLine(x, SampleMarker);
    var y1 := ProcessLine(x, SampleMarker);
    assert ProcessLines(x, l1) == y1 && IsOpen(y1) && y1.files == [] && y1.currentContent == "";
    SampleBodies();
    ShortLineIsBody("x");
    BodyLine(y1, "x");
    var y2 := ProcessLine(y1, "x");
    assert ProcessLines(x, l2) == y2 && IsOpen(y2) && y2.files == [] && y2.currentContent == "x\n";
    ShortLineIsBody("y");
    BodyLine(y2, "y");
    var y3 := ProcessLine(y2, "y");
    assert ProcessLines(x, l3) == y3 && IsOpen(y3) && y3.files == [];
    assert y3.currentContent == "x\ny\n";
    CloseLine(y3);
    TrimBodies();
    assert ProcessLines(x, l4) == ProcessLine(y3, EndMarker);
  }

  /** The one-chunk run closes the file with the body `x\ny`. */
  lemma WholeText()
    ensures DeltaStep(Fresh, SampleMarker + "\nx\ny\n" + EndMarker + "\n").files == [GeneratedFile("a ===", "x\ny")]
    ensures !IsOpen(DeltaStep(Fresh, SampleMarker + "\nx\ny\n" + EndMarker + "\n"))
  {
    SplitWholeText();
    var t := SampleMarker + "\nx\ny\n" + EndMarker + "\n";
    var x' := Fresh.(fullResponse := t, currentContent := "");
    assert Fresh.currentContent + t == t;
    var parts := Split(t, '\n');
    assert Last(parts) == "";
    assert Init(parts) == [] + [SampleMarker] + ["x"] + ["y"] + [EndMarker];
    WholeLines(x');
  }

  /** The same text cut in two places gives a different file: because `currentContent`
      holds both the carried-over fragment and the body, the fragment `y` ends up in front
      of the line `x` that precedes it. */
  lemma ChunkBoundaryChangesContent()
    ensures Flush(DeltaStepsFrom(Fresh, [SampleMarker + "\nx\ny", "\n" + EndMarker + "\n"])).files
      == [GeneratedFile("a ===", "yx")]
    ensures Flush(DeltaStepsFrom(Fresh, [SampleMarker + "\nx\ny\n" + EndMarker + "\n"])).files
      == [GeneratedFile("a ===", "x\ny")]
  {
    var t1, t2 := SampleMarker + "\nx\ny", "\n" + EndMarker + "\n";
    FirstChunk();
    var a := DeltaStep(Fresh, t1);
    SecondChunk(a);
    assert [t1, t2][1..] == [t2] && [t2][1..] == [];
    assert DeltaStepsFrom(Fresh, [t1, t2]) == DeltaStepsFrom(a, [t2]);
    assert DeltaStepsFrom(a, [t2]) == DeltaStepsFrom(DeltaStep(a, t2), []);
    WholeText();
    var t := SampleMarker + "\nx\ny\n" + EndMarker + "\n";
    assert [t][1..] == [];
    assert DeltaStepsFrom(Fresh, [t]) == DeltaStepsFrom(DeltaStep(Fresh, t), []);
  }

  // ---------------------------------------------------------------------------
  // Commit rows
  // ---------------------------------------------------------------------------

  /** One `generated_files` row: project, filename, path (the filename again), type, content. */
  datatype FileRow = FileRow(projectId: string, filename: string, filePath: string, fileType: string, content: string)

  /** `filename.split('.').pop()`: the text after the last dot, or the whole name. */
  function FileType(filename: string): string {
    Last(Split(filename, '.'))
  }

  /** The file type holds no dot and ends the name; after a dot when the name has one. */
  lemma FileTypeIsLastExtension(filename: string)
    ensures '.' !in FileType(filename)
    ensures EndsWith(filename, FileType(filename))
    ensures '.' in filename ==> EndsWith(filename, "." + FileType(filename))
    ensures '.' !in filename ==> FileType(filename) == filename
  {
    var parts := Split(filename, '.');
    SplitJoin(filename, '.');
    JoinInitLast(parts, ".");
    if '.' !in filename {
      SplitWithoutSeparator(filename, '.');
    }
  }

  function Row(projectId: string, f: GeneratedFile): FileRow {
    FileRow(projectId, f.filename, f.filename, FileType(f.filename), f.content)
  }

  function Rows(projectId: string, files: seq<GeneratedFile>): (rows: seq<FileRow>)
    ensures |rows| == |files|
    decreases |files|
  {
    if |files| == 0 then [] else Rows(projectId, Init(files)) + [Row(projectId, Last(files))]
  }

  // ---------------------------------------------------------------------------
  // The route
  // ---------------------------------------------------------------------------

  /** One item of the generative-text stream as the `for await` loop sees it: a text delta,
      any other event (ignored), or the stream throwing. */
  datatype StreamItem = TextDelta(text: string) | OtherEvent | Thrown(message: string)

  /** Outcome of the database transaction: committed, rolled back (the route goes on), or
      the ROLLBACK itself failing (the error reaches the outer handler). */
  datatype CommitOutcome = Committed | RolledBack | RollbackFailed(message: string)

  /** What the route's collaborators do: the project lookup throwing or finding nothing, the
      documents query or analysis parsing throwing, the stream's items, the pool connection
      throwing, and the transaction's outcome. */
  datatype GenerateWorld = GenerateWorld(
    lookupFailure: Option<string>,
    projectFound: bool,
    contextFailure: Option<string>,
    stream: seq<StreamItem>,
    connectFailure: Option<string>,
    commit: CommitOutcome)

  datatype Outcome = Outcome(reply: Reply, stored: seq<FileRow>, projectStatus: Option<string>)

  /** Reads the stream until it ends or throws. */
  function RunStream(x: Extraction, items: seq<StreamItem>): (Extraction, Option<string>)
    decreases |items|
  {
    if |items| == 0 then (x, None)
    else match items[0]
      case TextDelta(t) => RunStream(DeltaStep(x, t), items[1..])
      case OtherEvent => RunStream(x, items[1..])
      case Thrown(m) => (x, Some(m))
  }

  /** What the route does, from its request to its finished response. */
  function Generate(projectId: string, w: GenerateWorld): Outcome {
    if projectId == "" then Outcome(JsonError(400, "projectId is required"), [], None)
    else if w.lookupFailure.Some? then Outcome(EventStream([Failed(w.lookupFailure.value)]), [], None)
    else if !w.projectFound then Outcome(JsonError(404, "Project not found"), [], None)
    else if w.contextFailure.Some? then Outcome(EventStream([Failed(w.contextFailure.value)]), [], None)
    else Produce(projectId, w)
  }

  const Started: Extraction := Extraction("", "", "", [], [Status(StartMessage)])

  /** The route once the project and its context are loaded: the status event, the stream,
      the last file, then the transaction. */
  function Produce(projectId: string, w: GenerateWorld): Outcome {
    var (x, thrown) := RunStream(Started, w.stream);
    if thrown.Some? then Outcome(EventStream(x.events + [Failed(thrown.value)]), [], None)
    else
      var y := Flush(x);
      if w.connectFailure.Some? then Outcome(EventStream(y.events + [Failed(w.connectFailure.value)]), [], None)
      else match w.commit
        case Committed =>
          Outcome(EventStream(y.events + [Complete(projectId, |y.files|)]), Rows(projectId, y.files), Some("generated"))
        case RolledBack =>
          Outcome(EventStream(y.events + [Complete(projectId, |y.files|)]), [], None)
        case RollbackFailed(m) =>
          Outcome(EventStream(y.events + [Failed(m)]), [], None)
  }

  /** The `for await` loop over the stream; stops at the first item that throws. */
  method ReadStream(extractor: Extractor, items: seq<StreamItem>) returns (thrown: Option<string>)
    requires !extractor.res.ended
    modifies extractor, extractor.res
    ensures (extractor.State(), thrown) == RunStream(old(extractor.State()), items)
    ensures !extractor.res.ended && extractor.res.json == old(extractor.res.json)
  {
    ghost var initial := extractor.State();
    var i := 0;
    while i < |items|
      invariant 0 <= i <= |items|
      invariant RunStream(extractor.State(), items[i..]) == RunStream(initial, items)
      invariant !extractor.res.ended && extractor.res.json == old(extractor.res.json)
    {
      assert items[i..][1..] == items[i + 1..];
      match items[i] {
        case TextDelta(text) =>
          extractor.OnDelta(text);
        case OtherEvent =>
        case Thrown(message) =>
          return Some(message);
      }
      i := i + 1;
    }
    return None;
  }

  /** The rows of the `INSERT INTO generated_files` statements, one per file. */
  method PendingRows(projectId: string, files: seq<GeneratedFile>) returns (pending: seq<FileRow>)
    ensures pending == Rows(projectId, files)
  {
    pending := [];
    for k := 0 to |files|
      invariant pending == Rows(projectId, files[..k])
    {
      assert files[..k + 1] == files[..k] + [files[k]];
      pending := pending + [Row(projectId, files[k])];
    }
    assert files[..|files|] == files;
  }

  /** The route handler. `projectId` is the empty string when the request lacks one. */
  method HandleGenerate(projectId: string, w: GenerateWorld, res: Response)
    returns (stored: seq<FileRow>, projectStatus: Option<string>)
    requires res.events == [] && res.json == None && !res.ended
    modifies res
    ensures res.ended
    ensures Outcome(res.Sent(), stored, projectStatus) == Generate(projectId, w)
  {
    stored, projectStatus := [], None;
    if projectId == "" {
      res.SendError(400, "projectId is required");
    } else if w.lookupFailure.Some? {
      res.Write(Failed(w.lookupFailure.value));
      res.End();
      assert res.Sent() == EventStream([Failed(w.lookupFailure.value)]);
    } else if !w.projectFound {
      res.SendError(404, "Project not found");
      assert res.Sent() == JsonError(404, "Project not found");
    } else if w.contextFailure.Some? {
      res.Write(Failed(w.contextFailure.value));
      res.End();
      assert res.Sent() == EventStream([Failed(w.contextFailure.value)]);
    } else {
      stored, projectStatus := Respond(projectId, w, res);
    }
  }

  /** The handler's `try` block after the project and its context are loaded. */
  method Respond(projectId: string, w: GenerateWorld, res: Response)
    returns (stored: seq<FileRow>, projectStatus: Option<string>)
    requires res.events == [] && res.json == None && !res.ended
    modifies res
    ensures res.ended
    ensures Outcome(res.Sent(), stored, projectStatus) == Produce(projectId, w)
  {
    stored, projectStatus := [], None;
    res.Write(Status(StartMessage));
    var extractor := new Extractor(res);
    assert extractor.State() == Started;
    var thrown := ReadStream(extractor, w.stream);
    if thrown.Some? {
      res.Write(Failed(thrown.value));
      res.End();
      return;
    }
    extractor.Finish();
    var files := extractor.generatedFiles;
    if w.connectFailure.Some? {
      res.Write(Failed(w.connectFailure.value));
      res.End();
      return;
    }
    var pending := PendingRows(projectId, files);
    match w.commit {
      case Committed =>
        stored, projectStatus := pending, Some("generated");
      case RolledBack =>
      case RollbackFailed(message) =>
        res.Write(Failed(message));
        res.End();
        return;
    }
    res.Write(Complete(projectId, |files|));
    res.End();
  }

  // ---------------------------------------------------------------------------
  // Properties of the route
  // ---------------------------------------------------------------------------

  predicate OnlyStreamingEvents(events: seq<Event>, from: nat) {
    forall k :: from <= k < |events| ==> IsStreamingEvent(events[k])
  }

  lemma {:induction false} DeltaAddsStreamingEvents(x: Extraction, text: string)
    ensures StartsWith(DeltaStep(x, text).events, x.events)
    ensures OnlyStreamingEvents(DeltaStep(x, text).events, |x.events|)
  {
    var parts := Split(x.currentContent + text, '\n');
    var x' := x.(fullResponse := x.fullResponse + text, currentContent := Last(parts));
    LinesWriteMarkerEvents(x', Init(parts));
  }

  lemma {:induction false} StreamAddsStreamingEvents(x: Extraction, items: seq<StreamItem>)
    ensures StartsWith(RunStream(x, items).0.events, x.events)
    ensures OnlyStreamingEvents(RunStream(x, items).0.events, |x.events|)
    decreases |items|
  {
    if |items| == 0 {
      assert x.events[..|x.events|] == x.events;
    } else {
      match items[0]
      case TextDelta(t) =>
        var y := DeltaStep(x, t);
        DeltaAddsStreamingEvents(x, t);
        StreamAddsStreamingEvents(y, items[1..]);
        assert RunStream(x, items) == RunStream(y, items[1..]);
        ExtendStreaming(x.events, y.events, RunStream(y, items[1..]).0.events);
      case OtherEvent =>
        StreamAddsStreamingEvents(x, items[1..]);
      case Thrown(m) =>
        assert x.events[..|x.events|] == x.events;
    }
  }

  /** Streaming events added after streaming events were added are added streaming events. */
  lemma ExtendStreaming(a: seq<Event>, b: seq<Event>, c: seq<Event>)
    requires StartsWith(b, a) && OnlyStreamingEvents(b, |a|)
    requires StartsWith(c, b) && OnlyStreamingEvents(c, |b|)
    ensures StartsWith(c, a) && OnlyStreamingEvents(c, |a|)
  {
    assert c[..|a|] == b[..|a|];
    forall k | |a| <= k < |c|
      ensures IsStreamingEvent(c[k])
    {
      if k < |b| {
        assert c[k] == c[..|b|][k];
      }
    }
  }

  /** Every event stream the route writes ends with exactly one terminal event (`complete`
      or `error`) and nothing follows it; when the stream got going, it starts with the
      status event. */
  lemma SessionEndsWithOneTerminalEvent(projectId: string, w: GenerateWorld)
    requires Generate(projectId, w).reply.EventStream?
    ensures var evs := Generate(projectId, w).reply.events;
      |evs| >= 1 && IsTerminal(Last(evs))
      && forall k :: 0 <= k < |evs| - 1 ==> !IsTerminal(evs[k])
  {
    if projectId != "" && w.lookupFailure.None? && w.projectFound && w.contextFailure.None? {
      ProduceEndsWithOneTerminalEvent(projectId, w);
    } else {
      CloseEvents([], Generate(projectId, w).reply.events[0]);
    }
  }

  predicate NoTerminal(events: seq<Event>) {
    forall k :: 0 <= k < |events| ==> !IsTerminal(events[k])
  }

  predicate EndsWithOneTerminal(events: seq<Event>) {
    |events| >= 1 && IsTerminal(Last(events))
    && forall k :: 0 <= k < |events| - 1 ==> !IsTerminal(events[k])
  }

  lemma CloseEvents(events: seq<Event>, e: Event)
    requires NoTerminal(events) && IsTerminal(e)
    ensures EndsWithOneTerminal(events + [e])
  {
    assert forall k :: 0 <= k < |events| ==> (events + [e])[k] == events[k];
  }

  /** The status event and the events of the stream are none of them terminal. */
  lemma StreamHasNoTerminal(items: seq<StreamItem>)
    ensures NoTerminal(RunStream(Started, items).0.events)
    ensures NoTerminal(Flush(RunStream(Started, items).0).events)
  {
    StreamAddsStreamingEvents(Started, items);
    var evs := RunStream(Started, items).0.events;
    forall k | 0 <= k < |evs|
      ensures !IsTerminal(evs[k])
    {
      if k == 0 {
        assert evs[0] == evs[..|Started.events|][0];
      } else {
        assert IsStreamingEvent(evs[k]);
      }
    }
    assert Flush(RunStream(Started, items).0).events == evs;
  }

  lemma ProduceEndsWithOneTerminalEvent(projectId: string, w: GenerateWorld)
    ensures Produce(projectId, w).reply.EventStream?
    ensures EndsWithOneTerminal(Produce(projectId, w).reply.events)
  {
    StreamHasNoTerminal(w.stream);
    var (x, thrown) := RunStream(Started, w.stream);
    if thrown.Some? {
      CloseEvents(x.events, Failed(thrown.value));
    } else if w.connectFailure.Some? {
      CloseEvents(Flush(x).events, Failed(w.connectFailure.value));
    } else {
      match w.commit
      case Committed =>
        CloseEvents(Flush(x).events, Complete(projectId, |Flush(x).files|));
      case RolledBack =>
        CloseEvents(Flush(x).events, Complete(projectId, |Flush(x).files|));
      case RollbackFailed(m) =>
        CloseEvents(Flush(x).events, Failed(m));
    }
  }

  /** Reads the whole stream when nothing throws. */
  predicate NoThrow(items: seq<StreamItem>) {
    forall k :: 0 <= k < |items| ==> !items[k].Thrown?
  }

  function Texts(items: seq<StreamItem>): seq<string>
    decreases |items|
  {
    if |items| == 0 then []
    else (if items[0].TextDelta? then [items[0].text] else []) + Texts(items[1..])
  }

  lemma {:induction false} RunStreamWithoutThrow(x: Extraction, items: seq<StreamItem>)
    requires NoThrow(items)
    ensures RunStream(x, items) == (DeltaStepsFrom(x, Texts(items)), None)
    decreases |items|
  {
    if |items| > 0 {
      var rest := Texts(items[1..]);
      RunStreamWithoutThrow(if items[0].TextDelta? then DeltaStep(x, items[0].text) else x, items[1..]);
      if items[0].TextDelta? {
        assert Texts(items) == [items[0].text] + rest;
        assert ([items[0].text] + rest)[1..] == rest;
      } else {
        assert Texts(items) == rest;
      }
    }
  }

  /** When the stream and the connection succeed, `complete` reports the number of files
      extracted, whether the transaction committed or rolled back; the rows are stored only on
      commit. */
  lemma CompleteEvenAfterRollback(projectId: string, w: GenerateWorld)
    requires projectId != "" && w.lookupFailure.None? && w.projectFound && w.contextFailure.None?
    requires NoThrow(w.stream) && w.connectFailure.None? && !w.commit.RollbackFailed?
    ensures var files := Flush(DeltaStepsFrom(Started, Texts(w.stream))).files;
      var o := Generate(projectId, w);
      o.reply.EventStream? && Last(o.reply.events) == Complete(projectId, |files|)
      && o.stored == (if w.commit.Committed? then Rows(projectId, files) else [])
      && (o.projectStatus.Some? <==> w.commit.Committed?)
  {
    RunStreamWithoutThrow(Started, w.stream);
  }

  /** Every row the route stores has a trimmed content, the last file's included. */
  lemma StoredContentsTrimmed(projectId: string, w: GenerateWorld)
    ensures forall k :: 0 <= k < |Generate(projectId, w).stored| ==> IsTrimmed(Generate(projectId, w).stored[k].content)
  {
    StreamKeepsContentsTrimmed(Started, w.stream);
    var y := Flush(RunStream(Started, w.stream).0);
    FlushKeepsContentsTrimmed(RunStream(Started, w.stream).0);
    RowsFollowFiles(projectId, y.files);
  }

  /** The rows stored on commit are the extracted files, in order, each with the type
      taken from its name. */
  lemma {:induction false} RowsFollowFiles(projectId: string, files: seq<GeneratedFile>)
    ensures forall k :: 0 <= k < |files| ==>
      Rows(projectId, files)[k] == FileRow(projectId, files[k].filename, files[k].filename, FileType(files[k].filename), files[k].content)
    decreases |files|
  {
    if |files| > 0 {
      RowsFollowFiles(projectId, Init(files));
    }
  }
}
