/** The enrichment route (src/routes/enrichRequirements.js): the answers text it sends with
    the documents, how it cleans the model's reply of markdown fences and reads the enriched
    analysis out of it, and the order of its argument checks. */
module Enrich {
  import opened JsText
  import opened JsonValues
  import opened RouteCommon

  /** `Object.entries(answers).map(([question, answer]) => `Q: ${question}\nA: ${answer}`)
      .join('\n\n')`, with the entries in the order Object.entries gives them. */
  function AnswersText(answers: seq<(string, string)>): string {
    Join(AnswerLines(answers), "\n\n")
  }

  function AnswerLines(answers: seq<(string, string)>): (ls: seq<string>)
    ensures |ls| == |answers|
    ensures forall k :: 0 <= k < |answers| ==> ls[k] == "Q: " + answers[k].0 + "\nA: " + answers[k].1
  {
    seq(|answers|, k requires 0 <= k < |answers| => "Q: " + answers[k].0 + "\nA: " + answers[k].1)
  }

  /** One answer gives a question line and an answer line. */
  lemma AnswersTextOne(question: string, answer: string)
    ensures AnswersText([(question, answer)]) == "Q: " + question + "\nA: " + answer
  {
  }

  /** The answers appear in entry order, one blank line between two of them. */
  lemma AnswersTextConcat(a: seq<(string, string)>, b: seq<(string, string)>)
    requires |a| > 0 && |b| > 0
    ensures AnswersText(a + b) == AnswersText(a) + "\n\n" + AnswersText(b)
  {
    assert AnswerLines(a + b) == AnswerLines(a) + AnswerLines(b);
    JoinConcat(AnswerLines(a), AnswerLines(b), "\n\n");
  }

  // ---------------------------------------------------------------------------
  // Cleaning the reply
  // ---------------------------------------------------------------------------

  /** `s.replace(/<marker>\s*\/g, '')`: scanning from the left, every occurrence of the marker
      is removed together with the white space that follows it; the scan goes on after what
      was removed. */
  function StripMarker(s: string, marker: string): (r: string)
    requires |marker| > 0
    ensures |r| <= |s|
    decreases |s|
  {
    if |s| == 0 then ""
    else if StartsWith(s, marker) then StripMarker(TrimStart(s[|marker|..]), marker)
    else [s[0]] + StripMarker(s[1..], marker)
  }

  /** A pass leaves the text unchanged exactly when the marker does not occur in it. */
  lemma {:induction false} StripMarkerUnchanged(s: string, marker: string)
    requires |marker| > 0
    ensures StripMarker(s, marker) == s <==> !Contains(s, marker)
    decreases |s|
  {
    if |s| > 0 {
      if StartsWith(s, marker) {
        assert |StripMarker(s, marker)| <= |TrimStart(s[|marker|..])| < |s|;
      } else {
        StripMarkerUnchanged(s[1..], marker);
        assert StripMarker(s, marker) == [s[0]] + StripMarker(s[1..], marker);
        assert Contains(s, marker) == Contains(s[1..], marker);
        assert s == [s[0]] + s[1..];
      }
    }
  }

  /** Text before the first character of the marker is kept as it is. */
  lemma {:induction false} StripMarkerKeepsPrefix(a: string, t: string, marker: string)
    requires |marker| > 0 && marker[0] !in a
    ensures StripMarker(a + t, marker) == a + StripMarker(t, marker)
    decreases |a|
  {
    if |a| > 0 {
      assert !StartsWith(a + t, marker);
      assert (a + t)[1..] == a[1..] + t;
      assert StripMarker(a + t, marker) == [a[0]] + StripMarker(a[1..] + t, marker);
      StripMarkerKeepsPrefix(a[1..], t, marker);
      ConcatAssoc([a[0]], a[1..], StripMarker(t, marker));
      assert a == [a[0]] + a[1..];
    } else {
      assert a + t == t;
    }
  }

  /** Text shorter than the marker is kept as it is. */
  lemma {:induction false} StripMarkerShort(t: string, marker: string)
    requires 0 < |marker| && |t| < |marker|
    ensures StripMarker(t, marker) == t
    decreases |t|
  {
    if |t| > 0 {
      StripMarkerShort(t[1..], marker);
    }
  }

  /** The marker and the white space after it go. */
  lemma StripMarkerLeading(marker: string, ws: string, rest: string)
    requires |marker| > 0
    requires forall k :: 0 <= k < |ws| ==> IsSpace(ws[k])
    requires |rest| > 0 && !IsSpace(rest[0])
    ensures StripMarker(marker + ws + rest, marker) == StripMarker(rest, marker)
  {
    var s := marker + ws + rest;
    assert s[..|marker|] == marker;
    assert s[|marker|..] == ws + rest;
    assert StripMarker(s, marker) == StripMarker(TrimStart(ws + rest), marker);
    TrimStartSpaces(ws, rest);
  }

  /** `enrichedText.trim().replace(/```json\s*\/g, '').replace(/```\s*\/g, '')` */
  function CleanReply(text: string): string {
    StripMarker(StripMarker(Trim(text), "```json"), "```")
  }

  /** A reply fenced as a `json` code block gives the text inside the fence back. */
  lemma CleanFencedReply(ws: string, body: string, ws2: string)
    requires forall k :: 0 <= k < |ws| ==> IsSpace(ws[k])
    requires forall k :: 0 <= k < |ws2| ==> IsSpace(ws2[k]) && ws2[k] != '`'
    requires |body| > 0 && !IsSpace(body[0]) && '`' !in body
    ensures CleanReply("```json" + ws + body + ws2 + "```") == body + ws2
  {
    var inner := body + ws2;
    var text := "```json" + ws + body + ws2 + "```";
    assert text == "```json" + ws + (inner + "```");
    assert IsTrimmed(text) by {
      assert text[0] == '`' && text[|text| - 1] == '`';
    }
    TrimOfTrimmed(text);
    OpeningFenceRemoved(ws, inner);
    ClosingFenceRemoved(inner);
  }

  lemma OpeningFenceRemoved(ws: string, inner: string)
    requires forall k :: 0 <= k < |ws| ==> IsSpace(ws[k])
    requires |inner| > 0 && !IsSpace(inner[0]) && '`' !in inner
    ensures StripMarker("```json" + ws + (inner + "```"), "```json") == inner + "```"
  {
    StripMarkerLeading("```json", ws, inner + "```");
    StripMarkerKeepsPrefix(inner, "```", "```json");
    StripMarkerShort("```", "```json");
  }

  lemma ClosingFenceRemoved(inner: string)
    requires '`' !in inner
    ensures StripMarker(inner + "```", "```") == inner
  {
    StripMarkerKeepsPrefix(inner, "```", "```");
    assert StripMarker("```", "```") == StripMarker(TrimStart(""), "```");
    assert inner + "" == inner;
  }

  /** The enriched analysis: the `{...}` span of the cleaned reply parsed by `parse` (which
      stands for JSON.parse and gives `None` where it throws), else the current analysis. */
  function ReadEnriched(text: string, current: Json, parse: string -> Option<Json>): Json {
    var span := JsonSpan(CleanReply(text));
    if span.Some? && parse(span.value).Some? then parse(span.value).value else current
  }

  /** An object fenced as a `json` code block is what gets parsed. */
  lemma ReadEnrichedFenced(ws: string, obj: string, ws2: string, current: Json, parse: string -> Option<Json>)
    requires forall k :: 0 <= k < |ws| ==> IsSpace(ws[k])
    requires forall k :: 0 <= k < |ws2| ==> IsSpace(ws2[k]) && ws2[k] != '`'
    requires |obj| >= 2 && obj[0] == '{' && obj[|obj| - 1] == '}' && '`' !in obj
    ensures var r := ReadEnriched("```json" + ws + obj + ws2 + "```", current, parse);
      (parse(obj).Some? ==> r == parse(obj).value) && (parse(obj).None? ==> r == current)
  {
    CleanFencedReply(ws, obj, ws2);
    assert '}' !in ws2;
    assert obj + ws2 == "" + obj + ws2;
    JsonSpanOfObject(obj, ws2);
  }

  lemma JsonSpanOfObject(obj: string, after: string)
    requires |obj| >= 2 && obj[0] == '{' && obj[|obj| - 1] == '}' && '}' !in after
    ensures JsonSpan(obj + after) == Some(obj)
  {
    var s := obj + after;
    assert s[|obj|..] == after && s[..|obj|] == obj;
    JsonSpanAt(s, 0, |obj| - 1);
  }

  /** Without a `{` before a `}` in the cleaned reply, the current analysis stays. */
  lemma ReadEnrichedKeepsCurrent(text: string, current: Json, parse: string -> Option<Json>)
    requires !exists i, j :: 0 <= i < j < |CleanReply(text)| && CleanReply(text)[i] == '{' && CleanReply(text)[j] == '}'
    ensures ReadEnriched(text, current, parse) == current
  {
    JsonSpanExists(CleanReply(text));
  }

  // ---------------------------------------------------------------------------
  // The handler
  // ---------------------------------------------------------------------------

  /** What the handler reads and writes, in order. */
  datatype Access =
    | ProjectQuery
    | DocumentsQuery
    | ModelCall(documents: string, current: Json, answers: string)
    | AnalysisSaved(analysis: Json)

  /** The project's existence and stored analysis (`None` for a null `analysis_json`), its
      documents, the model's reply and JSON.parse, as the handler finds them. */
  datatype EnrichWorld = EnrichWorld(
    projectExists: bool,
    storedAnalysis: Option<Json>,
    documents: seq<Document>,
    reply: ModelReply,
    parse: string -> Option<Json>)

  datatype EnrichOutcome = EnrichOutcome(reply: HttpReply, accesses: seq<Access>)

  /** The message of the TypeError `Object.keys(undefined)` raises. */
  const KeysOfMissing := "Cannot convert undefined or null to object"

  function CurrentAnalysis(w: EnrichWorld): Json {
    if w.storedAnalysis.Some? then w.storedAnalysis.value else JObject([])
  }

  /** `POST /api/enrich-requirements` for the request fields `projectId` (`""` when missing)
      and `answers` (`None` when missing, else its entries). */
  function EnrichRoute(projectId: string, answers: Option<seq<(string, string)>>, w: EnrichWorld): EnrichOutcome {
    if answers.None? then
      EnrichOutcome(HttpReply(500, FailureBody("Failed to enrich requirements", KeysOfMissing)), [])
    else if projectId == "" then
      EnrichOutcome(HttpReply(400, ErrorBody("projectId and answers are required")), [])
    else if !w.projectExists then
      EnrichOutcome(HttpReply(404, ErrorBody("Project not found")), [ProjectQuery])
    else
      var current := CurrentAnalysis(w);
      var asked := [ProjectQuery, DocumentsQuery,
        ModelCall(CombinedContent(w.documents), current, AnswersText(answers.value))];
      match w.reply
      case CallFailed(message) =>
        EnrichOutcome(HttpReply(500, FailureBody("Failed to enrich requirements", message)), asked)
      case Replied(text) =>
        var enriched := ReadEnriched(text, current, w.parse);
        EnrichOutcome(
          HttpReply(200, JObject([
            ("success", JBool(true)),
            ("enrichedAnalysis", enriched),
            ("message", JString("Requirements enriched with your answers"))])),
          asked + [AnalysisSaved(enriched)])
  }

  /** `Object.keys(answers)` runs before the argument check, so missing answers end in the
      500 reply whatever the project id; a present but empty answers object passes the
      check. */
  lemma ArgumentCheckOrder(projectId: string, answers: Option<seq<(string, string)>>, w: EnrichWorld)
    ensures answers.None? ==>
      (EnrichRoute(projectId, answers, w).reply.status == 500 && EnrichRoute(projectId, answers, w).accesses == [])
    ensures answers.Some? && projectId == "" ==>
      EnrichRoute(projectId, answers, w).reply == HttpReply(400, ErrorBody("projectId and answers are required"))
    ensures answers == Some([]) && projectId != "" ==> EnrichRoute(projectId, answers, w).reply.status != 400
  {
  }

  /** A reply the handler cannot read leaves the project's analysis as it was, `{}` when it
      had none: the saved analysis is then the current one. */
  lemma UnreadableReplyKeepsAnalysis(projectId: string, answers: seq<(string, string)>, w: EnrichWorld)
    requires projectId != "" && w.projectExists && w.reply.Replied?
    requires JsonSpan(CleanReply(w.reply.text)).None?
    ensures var out := EnrichRoute(projectId, Some(answers), w);
      out.reply.status == 200 && |out.accesses| == 4
      && out.accesses[3] == AnalysisSaved(if w.storedAnalysis.Some? then w.storedAnalysis.value else JObject([]))
      && Get(out.reply.body, "enrichedAnalysis") == Some(CurrentAnalysis(w))
  {
    var out := EnrichRoute(projectId, Some(answers), w);
    GetMember(out.reply.body.members, 1, "enrichedAnalysis");
  }
}
