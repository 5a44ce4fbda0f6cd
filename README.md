# Command Agent v3 in Dafny

This project models the sequential logic of Command Agent v3, a web application that turns uploaded requirement documents into an analysed project and then into generated code.

- **The code-generation route.** Text deltas from a generative-text stream are cut into lines. The lines drive a two-state extractor: either no file is open, or one is, between a `=== FILENAME: <name>` line and an `=== END FILE ===` line. The route writes an ordered event stream (`status`, `file`, `progress`, then `complete` or `error`) and stores one row per extracted file.
- **The browser client.** It reassembles the event stream into `data:` lines, counts the files, and numbers the wizard's steps. It also derives a project name from the uploaded file's name.
- **The knowledge graph.** A tree is built from an analysis, with sequential ids and technologies bucketed into layers by keyword. It has D3, Cytoscape and simple-HTML renderings.
- **The other routes.** Upload, analyse, enrich, chat and marketing deployment. Each is modelled as a function from the request and the state of its collaborators to the reply and the ordered list of what it read and wrote. Most have a method that runs the handler step by step.

## Layout

Every module lives in its own file.

| file | module | contents |
|---|---|---|
| `js_text.dfy` | `JsText` | The JavaScript string operations the code uses (`split`, `join`, `trim`, `indexOf`, `lastIndexOf`, `toLowerCase`, `startsWith`, `includes`, decimal rendering) with their laws |
| `json_values.dfy` | `JsonValues` | JSON values, member lookup, the common error bodies |
| `route_common.dfy` | `RouteCommon` | The combined-document text and the greedy `{...}` span shared by several routes |
| `generate.dfy` | `Generate` | The `Response` and `Extractor` classes, the extractor's specification functions, the route, and its properties |
| `client_app.dfy` | `ClientApp` | The `GenerationReader` class, the step numbering, the project name |
| `knowledge_graph.dfy` | `KnowledgeGraph` | The builder (imperative and as a specification), the converters, the tree properties |
| `upload.dfy` | `Upload` | `path.extname`, the file filter, the unique-name loop, the all-or-nothing handler |
| `analyse.dfy` | `Analyse` | The cache key, the fallback analysis, the analysis route |
| `enrich.dfy` | `Enrich` | The answers text, the removal of code fences, the enrichment route |
| `chat.dfy` | `Chat` | The message list, the ten-message window, the chat route |
| `deploy_marketing.dfy` | `DeployMarketing` | The base URL, the deployment URLs, the marketing page's rules, the route |

## Behaviour of the code worth knowing

- **Filenames keep a trailing `===`.** The code only removes the leading `=== FILENAME:` and trims the rest (`src/routes/generate.js:134`). So `=== FILENAME: a ===` opens a file named `a ===`, not `a`. `Generate.SampleMarkerOpens` shows it.
- **The extractor depends on where chunks split.** In `src/routes/generate.js`, `currentContent` is both the fragment carried over from the last delta and the open file's body (lines 121-122 and 146). A start marker empties it when a file is open (line 132) and keeps it otherwise. `Generate.ChunkBoundaryChangesContent` proves that the same text in two chunks gives the body `yx`, and in one chunk gives `x\ny`. Chunk independence holds only for the client's reader (`ClientApp.ChunkIndependence`, `ClientApp.SameTextSameReader`).

## Model

| member | source | states |
|---|---|---|
| Generate.Response.Write | src/routes/generate.js:135 | `res.write` appends one event to the stream; the JSON reply and the finished flag are untouched |
| Generate.Response.End | src/routes/generate.js:211 | `res.end` finishes the response, which may not have been finished before |
| Generate.Response.SendError | src/routes/generate.js:20-25 | `res.status(s).json(...)` finishes the response with the status and the error text |
| Generate.Extractor.constructor | src/routes/generate.js:110-113 | The extractor starts with no open file, an empty buffer, an empty response text and no files |
| Generate.Extractor.OnDelta | src/routes/generate.js:116-151 | One text delta updates the extractor's fields and the event stream exactly as the specification function `DeltaStep` says, and leaves the response open |
| Generate.Extractor.Finish | src/routes/generate.js:155-161 | At the end of the stream the open file is pushed only when `currentContent` is not empty, as `Flush` says |
| Generate.MarkersExclusive | src/routes/generate.js:125-136 | No line starts with both markers, so the two marker branches never compete |
| Generate.LineEffect | src/routes/generate.js:124-148 | One line writes one `file` event exactly when it starts with the start marker; the files either stay as they are or become the open file sealed on top of them |
| Generate.LineTransitions | src/routes/generate.js:125-147 | A start marker opens the file named by the marker, sealing any open file and emptying the buffer then, and keeping the buffer when no file was open; an end marker seals and closes an open file and changes nothing when none is open; any other line is dropped when no file is open |
| Generate.SampleMarkerOpens | src/routes/generate.js:134 | The filename is the marker line without its first `=== FILENAME:`, trimmed: the trailing `===` stays |
| Generate.OpenLine | src/routes/generate.js:125-135 | With no file open, a start marker sets the filename and writes exactly one `file` event with it |
| Generate.CloseLine | src/routes/generate.js:136-144 | With a file open, the end marker pushes `{currentFile, currentContent.trim()}` and empties the buffer and the filename |
| Generate.BodyLine | src/routes/generate.js:145-147 | With a file open, any line that starts with neither marker is appended to the buffer followed by `\n` |
| Generate.MarkerEvents | src/routes/generate.js:135 | The marker lines of a list give at most one event per line, and every one is a `file` event |
| Generate.LinesWriteMarkerEvents | src/routes/generate.js:124-148 | The lines of a delta write, in line order, exactly the `file` events of their start markers, and do not touch the response text |
| Generate.FilesOnlyGrow | src/routes/generate.js:127-143 | The lines only ever append files, at most one per line; a repeated name is a new entry, never a merge |
| Generate.LinesKeepContentsTrimmed | src/routes/generate.js:128-131 | Every stored content stays trimmed through the lines of a delta |
| Generate.DeltaKeepsContentsTrimmed | src/routes/generate.js:121-148 | A whole delta keeps every stored content trimmed |
| Generate.FlushKeepsContentsTrimmed | src/routes/generate.js:156-161 | The end-of-stream push stores a trimmed content too |
| Generate.StreamKeepsContentsTrimmed | src/routes/generate.js:115-153 | Reading the stream, to its end or its first throw, keeps every stored content trimmed |
| Generate.StoredContentsTrimmed | src/routes/generate.js:127-182 | Every row the route stores has a trimmed content, the last file's included |
| Generate.DeltaLines | src/routes/generate.js:121-122 | The lines handled, joined with `\n` and followed by the kept fragment, are the old buffer followed by the delta |
| Generate.BodyAppendedAfterFragment | src/routes/generate.js:121-122 | With a file open, body lines are appended after the fragment kept back from the last delta, not in its place |
| Generate.DeltaWritesOneProgress | src/routes/generate.js:118-151 | Each delta extends the response text by the delta and writes exactly one `progress` event, last, with the new total length; progress lengths never decrease |
| Generate.FirstChunk | src/routes/generate.js:121-147 | The first delta of the two-chunk sample opens `a ===` and leaves `yx\n` in the buffer, because the fragment `y` is kept back and `x` is appended after it |
| Generate.SecondChunk | src/routes/generate.js:136-144 | The second delta of the two-chunk sample closes `a ===` with the body `yx` |
| Generate.WholeText | src/routes/generate.js:121-147 | The same text as one delta closes `a ===` with the body `x\ny` |
| Generate.ChunkBoundaryChangesContent | src/routes/generate.js:121-146 | The same stream text split in two places gives a different file content: the extractor depends on chunking |
| Generate.FileTypeIsLastExtension | src/routes/generate.js:182 | `split('.').pop()` is the text after the last dot, or the whole name when there is no dot |
| Generate.Rows | src/routes/generate.js:174-186 | One row per extracted file |
| Generate.RowsFollowFiles | src/routes/generate.js:174-186 | Row `k` carries the project id, file `k`'s name as both name and path, its type and its content |
| Generate.PendingRows | src/routes/generate.js:174-186 | The insert loop builds exactly the rows `Rows` specifies, in file order |
| Generate.ReadStream | src/routes/generate.js:115-153 | The `for await` loop applies every text delta, ignores other items, and stops at the first item that throws, as `RunStream` says |
| Generate.RunStreamWithoutThrow | src/routes/generate.js:115-153 | A stream that never throws applies all its text deltas in order |
| Generate.DeltaAddsStreamingEvents | src/routes/generate.js:135-151 | A delta only appends `file` and `progress` events |
| Generate.StreamAddsStreamingEvents | src/routes/generate.js:115-153 | Reading the stream only appends `file` and `progress` events |
| Generate.StreamHasNoTerminal | src/routes/generate.js:72-161 | Before the transaction, no event written is `complete` or `error` |
| Generate.HandleGenerate | src/routes/generate.js:17-225 | The handler finishes the response on every path, with the reply, the rows and the project status the specification function `Generate` gives |
| Generate.Respond | src/routes/generate.js:72-211 | After the lookups: the status event, the stream, the last file, then the transaction, as `Produce` gives |
| Generate.SessionEndsWithOneTerminalEvent | src/routes/generate.js:204-224 | Every event stream the route sends ends with a `complete` or `error` event |
| Generate.ProduceEndsWithOneTerminalEvent | src/routes/generate.js:194-224 | Once streaming has begun, the stream ends with exactly one terminal event and has none before it |
| Generate.CompleteEvenAfterRollback | src/routes/generate.js:193-211 | `complete` reports the number of files extracted whether the transaction committed or rolled back; rows and status `generated` are stored only on commit |
| ClientApp.GenerationReader.constructor | public/app.js:412-415 | The reader starts with an empty buffer, no files counted and no result |
| ClientApp.GenerationReader.OnChunk | public/app.js:421-441 | One chunk updates the buffer and the counters exactly as `Feed` says |
| ClientApp.GenerationReader.ReadAll | public/app.js:417-443 | The `while (true)` loop applies every chunk in order, as `FeedAll` says |
| ClientApp.ChunkLines | public/app.js:421-423 | After a chunk the buffer is the last `\n`-segment of the old buffer and the chunk |
| JsText.SplitRejoin | public/app.js:421-423 | The lines handled, joined with `\n` and followed by `\n` and the new buffer, are the old buffer followed by the chunk |
| JsText.SplitJoin | public/app.js:422 | `split('\n')` then `join('\n')` gives the text back, and no segment holds a newline |
| JsText.SplitAppend | public/app.js:421-423 | Splitting a longer text re-splits only the last segment of the shorter one |
| ClientApp.HandleLinesAppend | public/app.js:425-442 | Handling two lists of lines in turn is handling them together |
| ClientApp.ChunkIndependence | public/app.js:417-443 | Whatever the chunking, the reader has handled every complete line of the text received and keeps the unfinished last line in its buffer, never handled |
| ClientApp.SameTextSameReader | public/app.js:417-443 | Two chunkings of the same text leave the reader in the same state |
| ClientApp.BufferEmptyAfterNewline | public/app.js:421-423 | The buffer is empty after reading exactly when the text received ends with a newline |
| ClientApp.SplitFrames | src/routes/generate.js:135 | The server's `data: <json>\n\n` framing splits into one data line and one empty line per event |
| ClientApp.HandleFrameLines | public/app.js:426-440 | Only `data: ` lines are decoded, from after the six-character prefix; each `file` event adds one to the count, `complete` records the server's count, and an `error` event's throw is swallowed |
| ClientApp.ClientReadsServerEvents | public/app.js:417-443 | Reading the server's stream in any chunking counts every `file` event and ends with the last `complete` event's count and an empty buffer |
| ClientApp.UpdateStepNumbers | public/app.js:161-180 | Each step with a number element gets `Step n`, where n counts the numbered steps up to it; the questions step gets none when there are no questions |
| ClientApp.NumberedBeforeMonotone | public/app.js:164-177 | The step counter never decreases and rises past every numbered step |
| ClientApp.StepNumbersHaveNoGaps | public/app.js:164-177 | Every number from 1 to the last one is given to some step |
| ClientApp.StepNumbersDistinct | public/app.js:164-177 | Two numbered steps never get the same number |
| ClientApp.QuestionsStepSkipped | public/app.js:161-180 | With no questions the questions step gets no number; against any non-zero number of questions, the steps before it keep their numbers and every step after it moves up by one |
| ClientApp.StripExtensionSpec | public/app.js:209 | `replace(/\.[^/.]+$/, '')` removes exactly one final extension, and nothing when the name has none |
| ClientApp.ProjectNameShape | public/app.js:209 | The project name is the stripped name with every `-` and `_` replaced by a space |
| KnowledgeGraph.Push | src/utils/knowledgeGraph.js:15-37 | A push appends the node with id `nodeId` and its edge, and increments `nodeId` |
| KnowledgeGraph.AddFeatures | src/utils/knowledgeGraph.js:41-71 | The `Features` node and one node per feature among the first five, when there are features |
| KnowledgeGraph.Categorize | src/utils/knowledgeGraph.js:89-110 | The `forEach` fills the four arrays as the specification `Grouped` says |
| KnowledgeGraph.AddLayer | src/utils/knowledgeGraph.js:113-178 | A layer node exactly when the array is not empty |
| KnowledgeGraph.AddTechStack | src/utils/knowledgeGraph.js:74-179 | The `Tech Stack` node and its layer nodes, when there is a stack |
| KnowledgeGraph.AddDescribed | src/utils/knowledgeGraph.js:24-38 | A top-level node with a description, present when the text is not empty |
| KnowledgeGraph.GenerateKnowledgeGraph | src/utils/knowledgeGraph.js:9-222 | The builder produces exactly the graph `KnowledgeGraph` specifies |
| KnowledgeGraph.NodesShape | src/utils/knowledgeGraph.js:12-21 | Node `i` has id `i`, and edge `j` leads to node `j + 1` |
| KnowledgeGraph.GraphIsTree | src/utils/knowledgeGraph.js:12-210 | Ids are the indices; every edge runs from an earlier node to the next new node, one level down; no node has two incoming edges; there is one edge fewer than nodes |
| KnowledgeGraph.TreeShape | src/utils/knowledgeGraph.js:12-210 | Any draft list whose parents are earlier nodes one level up gives such a tree |
| KnowledgeGraph.DraftsWellFormed | src/utils/knowledgeGraph.js:24-210 | Every node the builder pushes hangs under an earlier node one level up |
| KnowledgeGraph.AppendChildren | src/utils/knowledgeGraph.js:49-69 | Hanging new nodes under an existing node keeps the graph a tree |
| KnowledgeGraph.RootAndDeployment | src/utils/knowledgeGraph.js:15-21 | The project node is first at level 0, labelled with the name or `Project`; the deployment node is last, at level 1, under the root |
| KnowledgeGraph.FeatureNodes | src/utils/knowledgeGraph.js:56-70 | The feature nodes follow `Features`, one per feature among the first five, in order, with truncated labels, the whole feature as description, and edges labelled `feature 1`, `feature 2`, ... |
| KnowledgeGraph.FeatureDraftsAt | src/utils/knowledgeGraph.js:41-71 | The feature nodes are exactly the ones right after the `Features` node |
| KnowledgeGraph.TakeFeatures | src/utils/knowledgeGraph.js:56 | `slice(0, 5)` keeps the first five features, or all when there are fewer |
| KnowledgeGraph.TruncateSpec | src/utils/knowledgeGraph.js:59 | A label is the feature when it has at most 30 characters, else its first 30 followed by `...` |
| KnowledgeGraph.PlaceAppends | src/utils/knowledgeGraph.js:94-110 | A technology is appended to the array its keywords choose and no other |
| KnowledgeGraph.GroupedPartition | src/utils/knowledgeGraph.js:94-110 | Every technology lands in exactly one array: together the four arrays hold the stack |
| KnowledgeGraph.GroupedMembers | src/utils/knowledgeGraph.js:94-110 | An array holds only technologies of the stack whose first matching keyword group is its own |
| KnowledgeGraph.StackLayers | src/utils/knowledgeGraph.js:74-178 | A non-empty stack gives at least one layer node, each under `Tech Stack` and carrying a non-empty array |
| KnowledgeGraph.MetadataCounts | src/utils/knowledgeGraph.js:215-219 | The metadata counts equal the array lengths, and `maxLevel` is the deepest level: 2 with features or technologies, else 1 |
| KnowledgeGraph.MaxLevelBounds | src/utils/knowledgeGraph.js:218 | `Math.max` over the levels bounds every level and is attained |
| KnowledgeGraph.DraftLevels | src/utils/knowledgeGraph.js:29-203 | Every node after the root is at level 1 or 2, and some is at level 2 exactly when there are features or technologies |
| KnowledgeGraph.ToD3Format | src/utils/knowledgeGraph.js:229-245 | D3 keeps the node and edge counts |
| KnowledgeGraph.D3LinksResolve | src/utils/knowledgeGraph.js:229-245 | For a generated graph every D3 link's source and target are ids of D3 nodes at those indices, in node order |
| KnowledgeGraph.ToCytoscapeFormat | src/utils/knowledgeGraph.js:252-284 | All node elements come first in node order, then all edge elements in edge order, with ids `node-<id>` and `edge-<index>` |
| KnowledgeGraph.GeneratedGraphLinked | src/utils/knowledgeGraph.js:12-210 | In a generated graph ids are indices and every edge joins two of its nodes |
| KnowledgeGraph.CytoscapeIdsResolve | src/utils/knowledgeGraph.js:252-284 | The Cytoscape element ids are distinct, and every edge's source is the id of a node element |
| KnowledgeGraph.RefsDistinct | src/utils/knowledgeGraph.js:260-275 | Prefixed decimal ids differ when their prefixes or numbers differ |
| KnowledgeGraph.GroupNodes | src/utils/knowledgeGraph.js:295-301 | `nodesByLevel` maps each level to its nodes in graph order |
| KnowledgeGraph.GroupIsAtLevel | src/utils/knowledgeGraph.js:295-301 | A level is a key exactly when some node has it, and its array is the nodes at that level in order |
| KnowledgeGraph.AppendLevel | src/utils/knowledgeGraph.js:305-320 | One level block: its cards in order, the closing tag, and a connector when the level is below the number of levels minus one (with levels 1 and 2 neither block gets one; with levels 0 and 5 the first does) |
| KnowledgeGraph.ToHtml | src/utils/knowledgeGraph.js:291-325 | The rendering is the level blocks in ascending level order |
| KnowledgeGraph.KeysBelowSpec | src/utils/knowledgeGraph.js:304 | The keys are listed once each, ascending |
| KnowledgeGraph.LevelsAreKeys | src/utils/knowledgeGraph.js:304 | The levels rendered are exactly the levels of the nodes, each once, ascending |
| KnowledgeGraph.GeneratedLevels | src/utils/knowledgeGraph.js:304-320 | A generated graph renders levels 0, 1 and, with features or technologies, 2, so every block but the last is followed by a connector |
| Upload.ExtNameShape | src/routes/upload.js:31 | `path.extname` is empty or a dot followed by no other dot and no `/`, at the end of the path; a name without a dot has none |
| Upload.ExtNameOfFileName | src/routes/upload.js:31 | The extension of `stem.e` is `.e` |
| Upload.FileFilterSpec | src/routes/upload.js:29-37 | A file is admitted exactly when its lower-cased extension is `.txt`, `.md`, `.pdf`, `.docx` or `.doc` |
| Upload.FileFilterRefusesNoExtension | src/routes/upload.js:29-37 | A name without a dot is refused |
| Upload.FileFilterIgnoresCase | src/routes/upload.js:31 | The verdict does not depend on the case of the extension |
| Upload.DotFileRefused | src/routes/upload.js:31-35 | A dot file such as `.md` has no extension and is refused |
| Upload.FindUniqueName | src/routes/upload.js:94-110 | The `while` loop returns the name `UniqueName` specifies |
| Upload.StopAttemptSpec | src/routes/upload.js:98-110 | The candidates are tried in order and the search stops at the first free one among the first hundred |
| Upload.UniqueNameSpec | src/routes/upload.js:94-110 | The name chosen is the first free candidate; when `base` to `base (99)` are all taken it is `base (100)`, unchecked |
| Upload.CandidatesDistinct | src/routes/upload.js:107-108 | No candidate name is tried twice |
| Upload.SaveEach | src/routes/upload.js:123-157 | The loop over the files saves them in order and leaves at the first failure, as `SaveFiles` says |
| Upload.UnlinkAll | src/routes/upload.js:187-191 | The catch block unlinks every temporary file, in order |
| Upload.SavingStopsAtFailure | src/routes/upload.js:150-156 | Files after a failing one change nothing |
| Upload.SaveFilesSpec | src/routes/upload.js:123-157 | Every file before the first failure gives its document row and has its temporary file unlinked; the failure carries that file's error |
| Upload.HandleUpload | src/routes/upload.js:69-200 | The handler gives the outcome `UploadRoute` specifies |
| Upload.UploadAllOrNothing | src/routes/upload.js:123-197 | The project and its documents are committed exactly when every file is saved, one document per file in upload order; otherwise nothing is |
| Upload.UploadRemovesTemporaryFiles | src/routes/upload.js:79-191 | An empty upload is refused with 400 before the transaction; otherwise every temporary file is unlinked, on success and on failure |
| Upload.NewProjectDefaults | src/routes/upload.js:89-91 | The description defaults to empty, the type to `application`, and the name starts with the requested name or `Project ` |
| RouteCommon.CombinedContentOne | src/routes/analyse.js:64-66 | One document gives its own section |
| RouteCommon.CombinedContentConcat | src/routes/analyse.js:64-66 | The documents appear in row order, one blank line between two of them |
| RouteCommon.JsonSpanExists | src/routes/analyse.js:115-120 | There is a `{...}` span exactly when some `{` comes before some `}` |
| RouteCommon.JsonSpanAt | src/routes/analyse.js:115 | The span runs from the first `{` to the last `}` |
| Analyse.CacheKeyInjective | src/routes/analyse.js:29 | Different projects never share a cache key |
| Analyse.MissingProjectIdRefused | src/routes/analyse.js:21-26 | A missing project id is refused with 400 before the cache is read |
| Analyse.CacheHitAnswersFromCache | src/routes/analyse.js:28-34 | A cached analysis is returned with no query and no model call |
| Analyse.ModelCalledOnlyWithDocuments | src/routes/analyse.js:42-75 | The model is called only for an existing project with documents, with their combined text; no documents gives 400 |
| Analyse.ReadAnalysisSpec | src/routes/analyse.js:113-120 | The object in the reply is taken whatever prose surrounds it; when it does not parse the fallback is used |
| Analyse.ReadAnalysisWithoutObject | src/routes/analyse.js:115-125 | A reply without a `{` before a `}` gives the fallback |
| Analyse.FallbackSummary | src/routes/analyse.js:127 | The fallback summary is the first 500 characters of the reply, or all of it |
| Analyse.FallbackFixedFields | src/routes/analyse.js:128-143 | The fallback has no features or requirements, two questions, `medium` complexity and the stack Node.js, React, PostgreSQL |
| Analyse.AnalysisCachedForNextRequest | src/routes/analyse.js:147-166 | A completed analysis is saved, then cached under the project's key, and a second request is answered from the cache with the same reply |
| Enrich.AnswersTextOne | src/routes/enrichRequirements.js:52-54 | One answer gives a question line and an answer line |
| Enrich.AnswersTextConcat | src/routes/enrichRequirements.js:52-54 | The answers appear in entry order, one blank line between two of them |
| Enrich.StripMarker | src/routes/enrichRequirements.js:96 | Removing a marker never lengthens the text |
| Enrich.StripMarkerUnchanged | src/routes/enrichRequirements.js:96 | A pass leaves the text unchanged exactly when the marker does not occur in it |
| Enrich.StripMarkerLeading | src/routes/enrichRequirements.js:96 | The marker goes together with the white space after it |
| Enrich.StripMarkerKeepsPrefix | src/routes/enrichRequirements.js:96 | Text before the marker's first character is kept as it is |
| Enrich.CleanFencedReply | src/routes/enrichRequirements.js:95-96 | A reply fenced as a `json` code block gives back the text inside the fence |
| Enrich.ReadEnrichedFenced | src/routes/enrichRequirements.js:95-108 | An object fenced as a `json` code block is the enriched analysis when it parses, else the current analysis |
| Enrich.ReadEnrichedKeepsCurrent | src/routes/enrichRequirements.js:97-108 | Without a `{...}` span in the cleaned reply the current analysis stays |
| Enrich.ArgumentCheckOrder | src/routes/enrichRequirements.js:16-22 | Missing answers reach the 500 reply before the argument check; a missing project id with answers gives 400; an empty answers object passes the check |
| Enrich.UnreadableReplyKeepsAnalysis | src/routes/enrichRequirements.js:39-122 | An unreadable reply saves and returns the current analysis, `{}` when the project had none |
| Chat.ContextFrame | src/routes/chat.js:72-81 | The context opens with the project's name and ends with the closing instructions |
| Chat.ContextShowsAnalysis | src/routes/chat.js:72-81 | The context shows `Analysis: <analysis_json>` whenever the project has an analysis |
| Chat.ContextShowsDocuments | src/routes/chat.js:72-81 | Every document's text appears in full in the context |
| Chat.ContextWithoutSections | src/routes/chat.js:72-81 | Without an analysis and documents, only the blank lines of those two sections remain |
| Chat.BuildMessages | src/routes/chat.js:54-92 | The `push`, `unshift`, `push` steps build exactly the list `Conversation` specifies |
| Chat.ConversationSpec | src/routes/chat.js:54-92 | After a history the list is the history then the new message; a first message sits between the context and the acknowledgement |
| Chat.WindowSpec | src/routes/chat.js:103 | `slice(-10)` keeps the last ten messages, or all when there are fewer |
| Chat.NewMessageInWindow | src/routes/chat.js:54-103 | The new message always reaches the model: last after a history, second of three on a first message |
| Chat.HandleChat | src/routes/chat.js:13-137 | The handler gives the outcome `ChatRoute` specifies |
| Chat.ArgumentsCheckedFirst | src/routes/chat.js:19-24 | A missing project id or message is refused with 400 before the database is touched |
| Chat.UserMessageSavedFirst | src/routes/chat.js:47-112 | The user's message is saved before the model call and stays saved when it fails; documents are read only for a first message |
| DeployMarketing.BaseUrlSpec | src/routes/deployMarketing.js:26 | One trailing `/` is removed and only one; an unset value gives `http://localhost:4004` |
| DeployMarketing.UrlsDistinct | src/routes/deployMarketing.js:67-71 | Under one base, different projects get different URLs, and a marketing URL is never an application URL |
| DeployMarketing.FeatureIconCycles | src/routes/deployMarketing.js:380-383 | The icons repeat every eight cards |
| DeployMarketing.MarketingPageSpec | src/routes/deployMarketing.js:99-164 | Both links lead to the application URL; at most six cards show the first features in order with the icons in turn; the tech section appears exactly when the stack is non-empty, one badge per entry |
| DeployMarketing.MarketingPageDefaults | src/routes/deployMarketing.js:100-103 | Independently, a nameless project is titled `Your Application` and a missing or falsy summary gives `A powerful application built with AI`; otherwise the name and the summary are shown. Without an analysis there are no cards and no tech section |
| DeployMarketing.DeploymentUrls | src/routes/deployMarketing.js:67-82 | A deployment records and returns the marketing and application URLs under the base URL with status `deployed` |
| DeployMarketing.UnrenderableAnalysis | src/routes/deployMarketing.js:86-151 | Truthy non-array features give the 500 reply with `features.slice(...).map is not a function` for a string and `features.slice is not a function` otherwise; beside array features, a non-empty string stack gives `techStack.map is not a function`; the reply is 500 exactly in these cases |
| DeployMarketing.StringFeaturesRefused | src/routes/deployMarketing.js:86-135 | An analysis holding only a non-empty string of features is refused with the `map` error, and an empty one is deployed |
| DeployMarketing.DeployRefusals | src/routes/deployMarketing.js:18-43 | A missing id is refused with 400 before anything else, then a missing project with 404 |

## Left out

- Text lengths count Unicode scalar values, not UTF-16 code units. So `fullResponse.length` and the 30-, 500- and 6-character cuts differ from JavaScript for text outside the Basic Multilingual Plane.
- `toLowerCase` is modelled on the ASCII letters only. The keyword bucketing, the allowed extensions and the fence markers are ASCII.
- `toHTML` sorts the level keys as strings. The model sorts them as numbers, which agrees for the levels 0 to 9; a generated graph only has levels 0 to 2.
- Timestamps, durations and random numbers are left out: the `duration` of `complete`, `generatedAt`, `created_at`/`uploaded_at`, and the deploy reply's `timestamp`. The multer file name suffix is left out too. `Date.now()` in the default project name is a parameter.
- Literal prompt text, HTML and CSS around the counted and conditional parts of the templates are left out (`generateMarketingCSS` among them).
- The `TextDecoder` in the client is left out: chunks arrive as text.
- `JSON.parse` is a parameter (`parse`), and `JSON.stringify` of events is a parameter (`encode`). The model keeps events and replies as values, not serialised text. So the analyse cache stores the reply value, not its JSON text.
- Database and cache failures are modelled only in the generation route and, for uploads, per file. The generation route covers the project lookup, the context load, the connection and the transaction. In the analyse, enrich and chat routes only the model call can fail. Connection release, logging and response headers are left out.
- In deployment, failures of the directory creation, the two file writes and the metadata update are left out; so is the CSS file written beside the page.
- multer's storage, size limit and ten-file limit are left out.
- The extraction libraries (`marked`, `mammoth`, `pdf-parse`) are left out: a file's extracted text or failure reason is part of the input.
- The order of `Object.entries` is taken as given: the answers are a list of entries. JavaScript lists integer-like keys first; that reordering is not modelled.
- Request ids are modelled as their decimal text (`projectId: string` in the handlers). The client sends the numeric id, and the analyse reply, the chat reply and the `complete` event echo it unchanged, so there it is a JSON number; in the model the echoed ids are strings (`JString(projectId)`, `Complete(projectId, ...)`).
- DeployMarketing.TechBadges: a stack that is a JSON object with a positive `length` member makes the source throw `techStack.map is not a function` (`src/routes/deployMarketing.js:146-151`). The model leaves the tech section out for every object instead.
- JSON numbers are integers in the model (`JsonValues.Json`). A fractional number in an analysis, shown by the marketing page, is not admitted.
- KnowledgeGraph.KnowledgeGraph: the analysis is typed in the model (`KnowledgeGraph.KgInput`), although the route passes `analysisData.features || []` and the other fields unchanged (`src/routes/knowledgeGraph.js:48`): `features` and `recommended_tech_stack` are lists of strings, and `summary` and `architecture_type` are strings. The source takes any JSON there, and the model does not admit these inputs: a non-empty string `features` or `recommended_tech_stack` passes the length test and then throws (`slice(...).forEach` and `forEach` are not functions, `src/utils/knowledgeGraph.js:56` and `:94`); a number, a boolean or an object without `length` there skips the section; a truthy non-string `summary` or `architecture_type` becomes a non-string node `description` (`:30`, `:188`); and a feature or technology that is not a string throws a `TypeError` (`feature.substring`, `:59`; `tech.toLowerCase()`, `:95`).
- When the file filter refuses a file, multer passes the error to Express's error handler, which is not part of this model: the model stops at the filter's verdict and message.
- Upload document ids and the `file_type` column are left out: the column is always derived from the filename.
- The chat route's `GET /api/chat/:projectId` history listing is left out: it is a plain query.
- In deployment, the page's application URL uses the project row's id while the returned URLs use the request's `projectId`. They agree when the request's id is the row's id in decimal; `DeployMarketing.DeploymentUrls` states that case only.
- The DOM, `updateGenerationProgress`, notifications and timers in the client are left out, as are `formatFileSize` and the progress percentages (floating point).
- `src/routes/download.js` and `src/routes/knowledgeGraph.js` are left out: a thin wrapper over an archiver and the database, and a four-way format switch into the converters modelled here.
- Entry-file synthesis and the validation of generated code are not part of this model: the route does not perform them.
