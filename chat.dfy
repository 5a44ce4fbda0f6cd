/** The chat route (src/routes/chat.js): the message list sent to the model, built from the
    stored history and the new message, with a context message and a fixed acknowledgement
    around a first message, and cut to its last ten messages. */
module Chat {
  import opened JsText
  import opened JsonValues
  import opened RouteCommon

  datatype Role = User | Assistant

  /** A chat message, as stored in `chat_messages` and as sent to the model. */
  datatype Message = Message(role: Role, content: string)

  const Acknowledgement: string := "I understand the project context. How can I help you?"

  /** `messages.slice(-10)`: how many of the last messages the model sees. */
  const WindowSize: nat := 10

  /** The project row fields the context shows; `""` stands for a null description or
      `analysis_json`. */
  datatype ProjectInfo = ProjectInfo(name: string, description: string, analysisJson: string)

  function Contents(docs: seq<Document>): (cs: seq<string>)
    ensures |cs| == |docs| && forall k :: 0 <= k < |docs| ==> cs[k] == docs[k].content
  {
    seq(|docs|, k requires 0 <= k < |docs| => docs[k].content)
  }

  const ContextOpening: string := "You are a helpful assistant discussing a software project.\n\nProject: "
  const ContextClosing: string :=
    "\n\nAnswer questions about the project, provide suggestions, and help clarify requirements."

  /** The context's opening lines: the project's name and description, and its analysis when
      it has one. */
  function ContextHead(p: ProjectInfo): string {
    ContextOpening + p.name
    + "\nDescription: " + (if p.description != "" then p.description else "No description")
    + "\n\n" + (if p.analysisJson != "" then "Analysis: " + p.analysisJson else "")
    + "\n\n"
  }

  /** The requirements section: the documents' texts, in row order, when there are any. */
  function RequirementsSection(docs: seq<Document>): string {
    if |docs| > 0 then "Requirements: " + Join(Contents(docs), "\n\n") else ""
  }

  /** The context message of a first chat: the opening lines, the requirements and the
      closing instructions. */
  function ContextText(p: ProjectInfo, docs: seq<Document>): string {
    ContextHead(p) + RequirementsSection(docs) + ContextClosing
  }

  lemma HeadSpec(p: ProjectInfo)
    ensures StartsWith(ContextHead(p), ContextOpening + p.name + "\nDescription: ")
    ensures p.analysisJson != "" ==> Contains(ContextHead(p), "Analysis: " + p.analysisJson)
  {
    var head := ContextOpening + p.name + "\nDescription: ";
    var a := head + (if p.description != "" then p.description else "No description") + "\n\n";
    var an := if p.analysisJson != "" then "Analysis: " + p.analysisJson else "";
    assert ContextHead(p) == a + an + "\n\n";
    assert ContextHead(p)[..|head|] == head;
    ContainsMiddle(a, an, "\n\n");
  }

  /** The context opens with the project's name and closes with the instructions. */
  lemma ContextFrame(p: ProjectInfo, docs: seq<Document>)
    ensures StartsWith(ContextText(p, docs), ContextOpening + p.name + "\nDescription: ")
    ensures EndsWith(ContextText(p, docs), ContextClosing)
  {
    HeadSpec(p);
    Enclosed(ContextHead(p), RequirementsSection(docs), ContextClosing, ContextOpening + p.name + "\nDescription: ");
  }

  /** The context shows the analysis when the project has one. */
  lemma ContextShowsAnalysis(p: ProjectInfo, docs: seq<Document>)
    requires p.analysisJson != ""
    ensures Contains(ContextText(p, docs), "Analysis: " + p.analysisJson)
  {
    var h := ContextHead(p);
    var tail := RequirementsSection(docs) + ContextClosing;
    HeadSpec(p);
    ContainsExtend(h, tail, "Analysis: " + p.analysisJson);
    ConcatAssoc(h, RequirementsSection(docs), ContextClosing);
  }

  /** The context shows every document's text in full. */
  lemma ContextShowsDocuments(p: ProjectInfo, docs: seq<Document>)
    ensures forall k :: 0 <= k < |docs| ==> Contains(ContextText(p, docs), docs[k].content)
  {
    forall k | 0 <= k < |docs|
      ensures Contains(ContextText(p, docs), docs[k].content)
    {
      var h := ContextHead(p);
      var j := Join(Contents(docs), "\n\n");
      ContainsJoinedPart(h + "Requirements: ", Contents(docs), "\n\n", ContextClosing, k);
      ConcatAssoc(h, "Requirements: ", j);
    }
  }

  /** Without an analysis and documents only the blank lines of those two sections remain. */
  lemma ContextWithoutSections(p: ProjectInfo)
    requires p.analysisJson == ""
    ensures ContextText(p, []) == ContextOpening + p.name + "\nDescription: "
      + (if p.description != "" then p.description else "No description") + "\n\n\n\n" + ContextClosing
  {
  }

  /** The message list: the history and the new message, and around a first message the
      context before it and the acknowledgement after it. */
  function Conversation(history: seq<Message>, message: string, context: string): seq<Message> {
    if |history| == 0 then [Message(User, context), Message(User, message), Message(Assistant, Acknowledgement)]
    else history + [Message(User, message)]
  }

  /** The list is built as the route builds it: the history copied, the new message pushed,
      and for a first message the context put in front and the acknowledgement pushed. */
  method BuildMessages(history: seq<Message>, message: string, context: string) returns (messages: seq<Message>)
    ensures messages == Conversation(history, message, context)
  {
    messages := [];
    for k := 0 to |history|
      invariant messages == history[..k]
    {
      messages := messages + [Message(history[k].role, history[k].content)];
    }
    assert history[..|history|] == history;
    messages := messages + [Message(User, message)];
    if |messages| == 1 {
      messages := [Message(User, context)] + messages;
      messages := messages + [Message(Assistant, Acknowledgement)];
    }
  }

  /** A later message extends the history by the new message alone; a first message comes
      between the context and the acknowledgement, and only a first message gets them. */
  lemma ConversationSpec(history: seq<Message>, message: string, context: string)
    ensures var m := Conversation(history, message, context);
      (|history| > 0 ==> m[..|history|] == history && |m| == |history| + 1 && Last(m) == Message(User, message))
      && (|history| == 0 ==>
            (|m| == 3 && m[0] == Message(User, context) && m[1] == Message(User, message)
             && Last(m) == Message(Assistant, Acknowledgement)))
  {
  }

  /** `messages.slice(-10)` */
  function Window(m: seq<Message>): seq<Message> {
    if |m| <= WindowSize then m else m[|m| - WindowSize..]
  }

  /** The window is the end of the list: its last ten messages, or all of them when there
      are fewer. */
  lemma WindowSpec(m: seq<Message>)
    ensures var w := Window(m);
      |w| == (if |m| <= WindowSize then |m| else WindowSize)
      && w == m[|m| - |w|..]
      && (|m| > 0 ==> |w| > 0 && Last(w) == Last(m))
  {
  }

  /** The new message always reaches the model: it is the last message sent after a history,
      and the second of three, before the acknowledgement, on a first message. */
  lemma NewMessageInWindow(history: seq<Message>, message: string, context: string)
    ensures var w := Window(Conversation(history, message, context));
      (|history| > 0 ==> Last(w) == Message(User, message))
      && (|history| == 0 ==> w == [Message(User, context), Message(User, message), Message(Assistant, Acknowledgement)])
  {
    WindowSpec(Conversation(history, message, context));
  }

  // ---------------------------------------------------------------------------
  // The handler
  // ---------------------------------------------------------------------------

  /** What the handler reads and writes, in order. */
  datatype Access =
    | ProjectQuery
    | HistoryQuery
    | MessageSaved(message: Message)
    | DocumentsQuery
    | ModelCall(messages: seq<Message>)

  /** The project (`None` when there is no such row), its stored chat in order, its documents
      and the model's reply, as the handler finds them. */
  datatype ChatWorld = ChatWorld(
    project: Option<ProjectInfo>,
    history: seq<Message>,
    documents: seq<Document>,
    reply: ModelReply)

  datatype ChatOutcome = ChatOutcome(reply: HttpReply, accesses: seq<Access>)

  function ChattedBody(answer: string, projectId: string): Json {
    JObject([("success", JBool(true)), ("message", JString(answer)), ("projectId", JString(projectId))])
  }

  /** The accesses up to the model call: the project, the history, the user's message saved,
      the documents for a first message only, and the call with the window of the list. */
  function Asked(w: ChatWorld, message: string): seq<Access>
    requires w.project.Some?
  {
    [ProjectQuery] + [HistoryQuery] + [MessageSaved(Message(User, message))]
    + (if |w.history| == 0 then [DocumentsQuery] else [])
    + [ModelCall(Window(Conversation(w.history, message, ContextText(w.project.value, w.documents))))]
  }

  /** `POST /api/chat` for the request fields `projectId` and `message` (`""` when missing). */
  function ChatRoute(projectId: string, message: string, w: ChatWorld): ChatOutcome {
    if projectId == "" || message == "" then
      ChatOutcome(HttpReply(400, ErrorBody("projectId and message are required")), [])
    else if w.project.None? then
      ChatOutcome(HttpReply(404, ErrorBody("Project not found")), [ProjectQuery])
    else if w.reply.CallFailed? then
      ChatOutcome(HttpReply(500, FailureBody("Chat failed", w.reply.message)), Asked(w, message))
    else
      ChatOutcome(HttpReply(200, ChattedBody(w.reply.text, projectId)),
        Asked(w, message) + [MessageSaved(Message(Assistant, w.reply.text))])
  }

  /** The handler, step by step. */
  method HandleChat(projectId: string, message: string, w: ChatWorld) returns (out: ChatOutcome)
    ensures out == ChatRoute(projectId, message, w)
  {
    if projectId == "" || message == "" {
      return ChatOutcome(HttpReply(400, ErrorBody("projectId and message are required")), []);
    }
    var accesses := [ProjectQuery];
    if w.project.None? {
      return ChatOutcome(HttpReply(404, ErrorBody("Project not found")), accesses);
    }
    accesses := accesses + [HistoryQuery];
    accesses := accesses + [MessageSaved(Message(User, message))];
    var context := "";
    if |w.history| == 0 {
      accesses := accesses + [DocumentsQuery];
      context := ContextText(w.project.value, w.documents);
    }
    var messages := BuildMessages(w.history, message, context);
    accesses := accesses + [ModelCall(Window(messages))];
    assert accesses == Asked(w, message);
    if w.reply.CallFailed? {
      return ChatOutcome(HttpReply(500, FailureBody("Chat failed", w.reply.message)), accesses);
    }
    var answer := w.reply.text;
    accesses := accesses + [MessageSaved(Message(Assistant, answer))];
    return ChatOutcome(HttpReply(200, ChattedBody(answer, projectId)), accesses);
  }

  /** A missing project id or message is refused before the database is touched. */
  lemma ArgumentsCheckedFirst(projectId: string, message: string, w: ChatWorld)
    requires projectId == "" || message == ""
    ensures ChatRoute(projectId, message, w) ==
      ChatOutcome(HttpReply(400, ErrorBody("projectId and message are required")), [])
  {
  }

  /** The user's message is saved before the model is called, and stays saved when the call
      fails; the documents are read only for a first message. */
  lemma UserMessageSavedFirst(projectId: string, message: string, w: ChatWorld)
    requires projectId != "" && message != "" && w.project.Some?
    ensures var out := ChatRoute(projectId, message, w);
      var call := if |w.history| == 0 then 4 else 3;
      |out.accesses| >= call + 1
      && out.accesses[2] == MessageSaved(Message(User, message))
      && out.accesses[call].ModelCall?
      && (DocumentsQuery in out.accesses <==> |w.history| == 0)
      && (w.reply.CallFailed? ==> out.reply.status == 500 && MessageSaved(Message(User, message)) in out.accesses)
  {
  }
}
