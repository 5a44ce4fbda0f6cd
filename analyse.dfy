/** The analysis route (src/routes/analyse.js): the cache in front of it, the documents it
    sends to the model, how it reads an analysis out of the model's reply, and the fixed
    analysis it falls back on. */
module Analyse {
  import opened JsText
  import opened JsonValues
  import opened RouteCommon

  /** The cache key of a project's analysis. */
  function CacheKey(projectId: string): string {
    "analysis:" + projectId
  }

  /** Different projects never share a cache entry. */
  lemma CacheKeyInjective(a: string, b: string)
    ensures CacheKey(a) == CacheKey(b) <==> a == b
  {
    if CacheKey(a) == CacheKey(b) {
      assert a == CacheKey(a)[|"analysis:"|..];
      assert b == CacheKey(b)[|"analysis:"|..];
    }
  }

  const SummaryLength: nat := 500

  function Min(a: nat, b: nat): nat {
    if a <= b then a else b
  }

  function Question(question: string, reason: string): Json {
    JObject([("question", JString(question)), ("reason", JString(reason)), ("category", JString("technical"))])
  }

  const FallbackQuestions: seq<Json> := [
    Question("What is your preferred technology stack?",
      "To ensure we use technologies you are comfortable with"),
    Question("What is the expected scale/user load?", "To design appropriate architecture")]

  const FallbackStack: seq<Json> := [JString("Node.js"), JString("React"), JString("PostgreSQL")]

  /** The analysis built when the reply holds no parsable object: the reply's first 500
      characters as the summary, no features and no requirements, two fixed questions,
      medium complexity and a fixed stack. */
  function Fallback(text: string): Json {
    JObject([
      ("summary", JString(text[..Min(SummaryLength, |text|)])),
      ("features", JArray([])),
      ("technical_requirements", JArray([])),
      ("clarifying_questions", JArray(FallbackQuestions)),
      ("estimated_complexity", JString("medium")),
      ("recommended_tech_stack", JArray(FallbackStack))])
  }

  /** The fallback's summary is the start of the reply: all of it when it is at most 500
      characters long, else its first 500. */
  lemma FallbackSummary(text: string)
    ensures exists summary ::
      (Get(Fallback(text), "summary") == Some(JString(summary))
       && |summary| == Min(SummaryLength, |text|) && StartsWith(text, summary))
  {
    var summary := text[..Min(SummaryLength, |text|)];
    GetMember(Fallback(text).members, 0, "summary");
    assert Get(Fallback(text), "summary") == Some(JString(summary));
    assert StartsWith(text, summary);
  }

  /** The fallback's other fields are fixed: no features and no requirements, two
      questions, medium complexity and the default stack. */
  lemma FallbackFixedFields(text: string)
    ensures var a := Fallback(text);
      Get(a, "features") == Some(JArray([]))
      && Get(a, "technical_requirements") == Some(JArray([]))
      && Get(a, "clarifying_questions") == Some(JArray(FallbackQuestions)) && |FallbackQuestions| == 2
      && Get(a, "estimated_complexity") == Some(JString("medium"))
      && Get(a, "recommended_tech_stack") == Some(JArray(FallbackStack))
  {
    var ms := Fallback(text).members;
    GetMember(ms, 1, "features");
    assert ms[2].0[0] != ms[5].0[0];
    GetMember(ms, 2, "technical_requirements");
    assert ms[3].0[0] != ms[4].0[0];
    GetMember(ms, 3, "clarifying_questions");
    GetMember(ms, 4, "estimated_complexity");
    GetMember(ms, 5, "recommended_tech_stack");
  }

  /** The analysis read out of the model's reply: the `{...}` span parsed by `parse` (which
      stands for JSON.parse and gives `None` where it throws), else the fallback. */
  function ReadAnalysis(text: string, parse: string -> Option<Json>): Json {
    var span := JsonSpan(text);
    if span.Some? && parse(span.value).Some? then parse(span.value).value else Fallback(text)
  }

  /** The object the model wrote is taken whatever prose surrounds it; a reply without any
      `{` before a `}` always gives the fallback. */
  lemma ReadAnalysisSpec(before: string, obj: string, after: string, parse: string -> Option<Json>)
    requires |obj| >= 2 && obj[0] == '{' && obj[|obj| - 1] == '}'
    requires '{' !in before && '}' !in after
    ensures parse(obj).Some? ==> ReadAnalysis(before + obj + after, parse) == parse(obj).value
    ensures parse(obj).None? ==> ReadAnalysis(before + obj + after, parse) == Fallback(before + obj + after)
  {
    var s := before + obj + after;
    assert s[..|before|] == before && s[|before| + |obj|..] == after;
    assert s[|before|..|before| + |obj|] == obj;
    JsonSpanAt(s, |before|, |before| + |obj| - 1);
  }

  lemma ReadAnalysisWithoutObject(text: string, parse: string -> Option<Json>)
    requires !exists i, j :: 0 <= i < j < |text| && text[i] == '{' && text[j] == '}'
    ensures ReadAnalysis(text, parse) == Fallback(text)
  {
    JsonSpanExists(text);
  }

  /** What the handler reads and writes, in order. */
  datatype Access =
    | CacheRead(key: string)
    | ProjectQuery
    | DocumentsQuery
    | ModelCall(content: string)
    | AnalysisSaved(analysis: Json)
    | CacheWrite(key: string, value: Json)

  /** The cache, the project's existence and documents (in upload order), the model's reply
      and JSON.parse, as the handler finds them. */
  datatype AnalyseWorld = AnalyseWorld(
    cache: map<string, Json>,
    projectExists: bool,
    documents: seq<Document>,
    reply: ModelReply,
    parse: string -> Option<Json>)

  datatype AnalyseOutcome = AnalyseOutcome(reply: HttpReply, accesses: seq<Access>)

  function AnalysedBody(projectId: string, analysis: Json): Json {
    JObject([
      ("success", JBool(true)),
      ("projectId", JString(projectId)),
      ("analysis", analysis),
      ("message", JString("Analysis completed successfully"))])
  }

  /** `POST /api/analyse` for the request field `projectId` (`""` when missing). */
  function AnalyseRoute(projectId: string, w: AnalyseWorld): AnalyseOutcome {
    if projectId == "" then AnalyseOutcome(HttpReply(400, ErrorBody("projectId is required")), [])
    else
      var key := CacheKey(projectId);
      if key in w.cache then AnalyseOutcome(HttpReply(200, w.cache[key]), [CacheRead(key)])
      else if !w.projectExists then
        AnalyseOutcome(HttpReply(404, ErrorBody("Project not found")), [CacheRead(key), ProjectQuery])
      else if |w.documents| == 0 then
        AnalyseOutcome(HttpReply(400, ErrorBody("No documents found for this project")),
          [CacheRead(key), ProjectQuery, DocumentsQuery])
      else
        var asked := [CacheRead(key), ProjectQuery, DocumentsQuery, ModelCall(CombinedContent(w.documents))];
        match w.reply
        case CallFailed(message) =>
          AnalyseOutcome(HttpReply(500, FailureBody("Analysis failed", message)), asked)
        case Replied(text) =>
          var analysis := ReadAnalysis(text, w.parse);
          var body := AnalysedBody(projectId, analysis);
          AnalyseOutcome(HttpReply(200, body), asked + [AnalysisSaved(analysis), CacheWrite(key, body)])
  }

  /** A missing project id is refused before the cache is read. */
  lemma MissingProjectIdRefused(w: AnalyseWorld)
    ensures AnalyseRoute("", w) == AnalyseOutcome(HttpReply(400, ErrorBody("projectId is required")), [])
  {
  }

  /** A cached analysis is answered from the cache alone: no query and no model call. */
  lemma CacheHitAnswersFromCache(projectId: string, w: AnalyseWorld)
    requires projectId != "" && CacheKey(projectId) in w.cache
    ensures AnalyseRoute(projectId, w).reply == HttpReply(200, w.cache[CacheKey(projectId)])
    ensures AnalyseRoute(projectId, w).accesses == [CacheRead(CacheKey(projectId))]
  {
  }

  /** The model is asked only about a project that exists and has documents, and it is sent
      exactly the combined text of those documents. */
  lemma ModelCalledOnlyWithDocuments(projectId: string, w: AnalyseWorld)
    ensures var out := AnalyseRoute(projectId, w);
      forall k :: 0 <= k < |out.accesses| && out.accesses[k].ModelCall? ==>
        projectId != "" && CacheKey(projectId) !in w.cache && w.projectExists && |w.documents| > 0
        && out.accesses[k].content == CombinedContent(w.documents)
    ensures |w.documents| == 0 && w.projectExists && projectId != "" && CacheKey(projectId) !in w.cache ==>
      AnalyseRoute(projectId, w).reply == HttpReply(400, ErrorBody("No documents found for this project"))
  {
  }

  /** A completed analysis is saved and cached under the project's key, and a second request
      is then answered from the cache with the same reply. */
  lemma AnalysisCachedForNextRequest(projectId: string, w: AnalyseWorld)
    requires projectId != "" && CacheKey(projectId) !in w.cache
    requires AnalyseRoute(projectId, w).reply.status == 200
    ensures var out := AnalyseRoute(projectId, w);
      |out.accesses| == 6 && out.accesses[5] == CacheWrite(CacheKey(projectId), out.reply.body)
      && out.accesses[4] == AnalysisSaved(ReadAnalysis(w.reply.text, w.parse))
      && Get(out.reply.body, "analysis") == Some(ReadAnalysis(w.reply.text, w.parse))
      && AnalyseRoute(projectId, w.(cache := w.cache[CacheKey(projectId) := out.reply.body])).reply == out.reply
  {
  }
}
