# Chat page core, modelled in Dafny

This project models the conversation core of the chatbot page, along with its prompt-template editor.

The chat page (`Message.tsx`) keeps a log of messages. A send appends a user message and an assistant placeholder (`"..."`). A threaded reply inserts the same pair in the middle of the log instead. A debounced stream step then finds the waiting placeholder and works in one of two ways:

- If the message before it names a document, the step first asks the document indexer for passages and attaches them.
- Otherwise it assembles the outbound request and picks the model.

To assemble the request, the step:

1. splices the live conversation into the prompt template at its `"your"` marker;
2. drops placeholder turns;
3. quotes or tags user turns;
4. deduplicates system turns;
5. inserts the documents after the last system turn.

For the model, an `auto|model1|model2|threshold` name picks a model by the counted prompt size. As the answer streams, it replaces the placeholder's content in the log and is saved into the stored copy. A debounced save writes the log to storage after every change, unless the log is empty. Other behaviour:

- Each answer's completion is tracked in a map of flags.
- When the page is idle and every answer has completed, the log is cut to its latest `maxMessages` and saved.
- On every render, a grouping pass splits the log into reply groups and rewrites each message's `isChild` flag.

The template editor (`AddPrompt.tsx`) edits a list of entries. That list holds the `"your"` marker and fixed `{role, prompt}` turns. The editor can:

- insert an entry at a position;
- remove one;
- change an entry's role or prompt;
- set the name, the temperature and the quoting switch;
- validate the name and the temperature;
- save or clone the template, dropping blank entries.

Modules, one file each:

- `Wrappers`: `Option`.
- `Seqs`: lodash-style `findIndex` / `findLastIndex`, `filter`, `flat`.
- `Text`: join, split, `trim`, unary `+`.
- `ChatTypes`: messages, turns and template entries.
- `Threads`: the grouping pass.
- `PromptAssembly`: the outbound request.
- `DocQuery`: the indexer request.
- `Conversation`: the page's state as the class `Chat`.
- `PromptEditor`: the template editor as the class `Editor`.

Imperative parts are Dafny methods proved against specification functions. This covers:

- the grouping loop (`Threads.GroupThreads` against `Flagged` / `Groups`);
- the template splice loop (`PromptAssembly.AssembleRequest` against `Spliced`);
- the flag scan of the idle save;
- the state changes of the page and of the editor.

The rest is functions and lemmas.

## Model

| member | source | states |
|---|---|---|
| Threads.GroupThreads | src/components/pages/ChatbotPage/Message.tsx:92-123 | The one-pass loop returns exactly the rewritten log `Flagged(msgs)` and its reply groups `Groups(Flagged(msgs))`. This includes the reset of each emitted group head's flag. |
| Threads.GroupsShape | src/components/pages/ChatbotPage/Message.tsx:92-123 | The groups partition the flagged log in order, and there are none only for an empty log. Each group starts with a non-child, and every later member is a child except possibly the log's last message. With two or more messages, the last group has at least two members. |
| Threads.FlagsRewritten | src/components/pages/ChatbotPage/Message.tsx:95-102 | Only `isChild` changes. The first message ends as a head. A later message ends as a child exactly when it does not show a reply box. Re-running the pass on its own output changes nothing. |
| Threads.GroupFromPartition | src/components/pages/ChatbotPage/Message.tsx:104-119 | Collecting groups from an open group neither drops, duplicates nor reorders messages, and opens no empty group. |
| Threads.GroupFromShape | src/components/pages/ChatbotPage/Message.tsx:104-119 | Every group collected starts with a non-child and holds children after it. The log's last message always joins the open group. |
| Threads.LastPairIsOwnGroup | src/components/pages/ChatbotPage/Message.tsx:104-119 | When the second-to-last message ends as a head, that message and the last one form the last group. |
| PromptAssembly.MarkerTurns | src/components/pages/ChatbotPage/Message.tsx:314-341 | The marker stands for the included messages, then the checked messages, then the user turn. The user turn is left out exactly when the triggering message is checked. |
| PromptAssembly.AssembleRequest | src/components/pages/ChatbotPage/Message.tsx:312-354 | The loop over the template produces `Spliced(template, marker)`: every entry's turns, in template order. |
| PromptAssembly.SplicedConcat | src/components/pages/ChatbotPage/Message.tsx:312-354 | Splicing distributes over concatenation of templates. |
| PromptAssembly.SplicedLength | src/components/pages/ChatbotPage/Message.tsx:312-354 | The request has one turn per fixed entry, plus the whole marker expansion for every `"your"` marker. |
| PromptAssembly.SplicedFixed | src/components/pages/ChatbotPage/Message.tsx:348-353 | A template without markers becomes its entries as turns, in order. |
| PromptAssembly.SplicedAroundMarker | src/components/pages/ChatbotPage/Message.tsx:312-354 | With one marker between fixed entries, the request is the entries before it, then the included, checked and user turns, then the entries after it. |
| PromptAssembly.SplicedAround | src/components/pages/ChatbotPage/Message.tsx:312-354 | For any expansion of the marker, a template of fixed entries around one marker becomes the entries before it, the expansion, then the entries after it. |
| PromptAssembly.RewriteShape | src/components/pages/ChatbotPage/Message.tsx:372-387 | With both switches off, a user turn is unchanged. With a tag set, the turn is enclosed in `<tag>` … `</tag>`. |
| PromptAssembly.Outgoing | src/components/pages/ChatbotPage/Message.tsx:368-389 | The filtered and rewritten list holds no assistant placeholder and is no longer than its input. |
| PromptAssembly.OutgoingKeepsOtherTurns | src/components/pages/ChatbotPage/Message.tsx:368-389 | Only placeholders are dropped, and roles are kept. Non-user turns pass unchanged. User turns are rewritten only for a top-level send, and a threaded reply's turns pass untouched. |
| PromptAssembly.OutgoingUnchanged | src/components/pages/ChatbotPage/Message.tsx:368-389 | Without placeholders and with both wrapping switches off, the filter and the rewrite leave the turns exactly as they are. |
| PromptAssembly.FilterKeptAll | src/components/pages/ChatbotPage/Message.tsx:368-371 | A list without placeholders passes the filter unchanged. |
| PromptAssembly.DedupFrom | src/components/pages/ChatbotPage/Message.tsx:390-393 | Deduplication never lengthens the list. |
| PromptAssembly.DedupFromKeepsNonSystem | src/components/pages/ChatbotPage/Message.tsx:390-393 | The non-system turns come out exactly as they went in, in order. |
| PromptAssembly.DedupFromSubsequence | src/components/pages/ChatbotPage/Message.tsx:390-393 | The result is a subsequence of the input. |
| PromptAssembly.DedupFromDistinct | src/components/pages/ChatbotPage/Message.tsx:390-393 | Kept system turns have pairwise different contents, none of them already seen. |
| PromptAssembly.DedupFromKeepsNewSystem | src/components/pages/ChatbotPage/Message.tsx:390-393 | Every system turn whose content was not seen before is kept. |
| PromptAssembly.DedupKeepsOrderAndNonSystem | src/components/pages/ChatbotPage/Message.tsx:390-393 | `uniqBy` keeps every non-system turn and every system content, and keeps each system content once and only once, in order. The result is `FirstOccurrences`. |
| PromptAssembly.DedupFromSnoc | src/components/pages/ChatbotPage/Message.tsx:390-393 | A turn appended to the input is appended to the output unless it is a system turn whose content was seen or said before. |
| PromptAssembly.DedupKeepsFirstOccurrences | src/components/pages/ChatbotPage/Message.tsx:390-393 | Deduplication equals the reference that drops exactly the system turns repeating an earlier system turn's content. |
| PromptAssembly.DedupExamples | src/components/pages/ChatbotPage/Message.tsx:390-393 | Two equal system turns collapse into one, while two equal user turns both stay. |
| PromptAssembly.DedupKeepsKept | src/components/pages/ChatbotPage/Message.tsx:390-393 | Deduplication introduces no placeholder. |
| PromptAssembly.DocTurns | src/components/pages/ChatbotPage/Message.tsx:399-411 | Every document becomes a user turn, in order, and the turns end with the assistant acknowledgement. |
| PromptAssembly.InsertDocuments | src/components/pages/ChatbotPage/Message.tsx:395-416 | Without documents, or without any system turn, the list is unchanged. |
| PromptAssembly.DocumentsFollowLastSystemTurn | src/components/pages/ChatbotPage/Message.tsx:395-416 | The documents, then the acknowledgement, come right after the last system turn. Every other turn keeps its relative place. |
| PromptAssembly.InsertKeepsKept | src/components/pages/ChatbotPage/Message.tsx:395-416 | Document insertion introduces no placeholder. |
| PromptAssembly.AllDocs | src/components/pages/ChatbotPage/Message.tsx:304-310 | The documents end with the triggering message's own. With nothing included, they are only those. |
| PromptAssembly.AllDocsMembers | src/components/pages/ChatbotPage/Message.tsx:304-310 | A document is sent exactly when the triggering message or some included message carries it. |
| PromptAssembly.AllDocsIncludedFirst | src/components/pages/ChatbotPage/Message.tsx:304-310 | The first included message's documents open the list. |
| PromptAssembly.ChooseModel | src/components/pages/ChatbotPage/Message.tsx:419-429 | A model name that does not start with `auto` is used as it is. |
| PromptAssembly.DigitsAreNumber | src/components/pages/ChatbotPage/Message.tsx:424 | Unary `+` on a run of decimal digits is its decimal value. |
| PromptAssembly.AutoModelSelection | src/components/pages/ChatbotPage/Message.tsx:419-429 | A name made of `auto`, `m1`, `m2` and a digit threshold `t`, joined by bars, picks `m2` exactly when the counted size exceeds `t`, and `m1` otherwise. |
| PromptAssembly.AutoModelMissingParts | src/components/pages/ChatbotPage/Message.tsx:419-429 | Without a threshold, the first model is always picked. Without model names, the model is undefined. |
| PromptAssembly.Outbound | src/components/pages/ChatbotPage/Message.tsx:368-416 | The final outbound list never carries an assistant placeholder. |
| PromptAssembly.BeConciseSplice | src/components/pages/ChatbotPage/Message.tsx:312-354 | Splicing "Hi" into `[{system, "Be concise"}, "your"]` gives the system turn, then the user turn. |
| PromptAssembly.BeConciseExample | src/components/pages/ChatbotPage/Message.tsx:312-416 | For that template, with nothing included, checked or wrapped, the whole outbound list is exactly `[system "Be concise", user "Hi"]`. |
| DocQuery.IncludedUserContents | src/components/pages/ChatbotPage/Message.tsx:265 | One line per included message the user wrote, in order: that message's content. |
| DocQuery.IncludedUserContentsMembers | src/components/pages/ChatbotPage/Message.tsx:265 | A text is among these lines exactly when some included user message has it. |
| DocQuery.Preceding | src/components/pages/ChatbotPage/Message.tsx:247-256 | There is a previous text exactly when the message is a reply and the first log message with its id has a message before it. That text is the content of the message just before it. |
| DocQuery.PrecedingFirstMatch | src/components/pages/ChatbotPage/Message.tsx:247-256 | For a reply first found at `at`, the previous text is the content at `at - 1`. A reply that opens the log has none. |
| DocQuery.PrecedingNone | src/components/pages/ChatbotPage/Message.tsx:247-256 | A top-level message has no previous text, and neither has a reply whose id is not in the log. |
| DocQuery.QueryLines | src/components/pages/ChatbotPage/Message.tsx:264-270 | No query line is empty. |
| DocQuery.QueryLinesPieces | src/components/pages/ChatbotPage/Message.tsx:264-270 | The lines are the non-empty included user contents, then the preceding text if it exists and is not empty, then the message's content if it is not empty. |
| DocQuery.IncludedQuery | src/components/pages/ChatbotPage/Message.tsx:264-275 | With messages included, the query is the non-empty included user contents, the preceding text and the message, joined by newlines, and one passage is asked for. |
| DocQuery.IncludedQueryExample | src/components/pages/ChatbotPage/Message.tsx:264-270 | One included user message and a top-level message give a two-line query. |
| DocQuery.DocumentQuery | src/components/pages/ChatbotPage/Message.tsx:258-277 | The query names the message's document. `k` is 1 exactly when messages are included, and 5 exactly when none are. The score bounds are 0.6 and 0.3. |
| DocQuery.IgnoredHashes | src/components/pages/ChatbotPage/Message.tsx:239-245 | A hash is ignored exactly when some included message carries it. |
| DocQuery.QueryLinesRecoverable | src/components/pages/ChatbotPage/Message.tsx:264-270 | Splitting the query on newlines gives back its lines, provided no piece holds a newline. |
| DocQuery.TopLevelQuery | src/components/pages/ChatbotPage/Message.tsx:264-270 | A top-level message with nothing included is its own query. |
| DocQuery.ThreadedQuery | src/components/pages/ChatbotPage/Message.tsx:247-270 | A threaded reply with nothing included asks about the preceding message, then itself, on two lines. |
| DocQuery.FirstApiKey | src/components/pages/ChatbotPage/Message.tsx:271 | The first of the comma-separated API keys is sent. |
| Conversation.SentDocId | src/components/pages/ChatbotPage/Message.tsx:141 | The selector's "Choose document" entry and the empty string record no document. Any other choice is kept. |
| Conversation.SendAppendsPair | src/components/pages/ChatbotPage/Message.tsx:147-186 | A top-level send appends exactly the user message (top-level, scrolled to) and a child placeholder, and the user message has the smaller id. |
| Conversation.SendInsertsPair | src/components/pages/ChatbotPage/Message.tsx:169-180 | A threaded reply at `i` puts the user message at `i` and the placeholder at `i + 1`, both as children, and shifts the later messages by two. Both scroll into view exactly when they land at the end. |
| Conversation.StreamIndex | src/components/pages/ChatbotPage/Message.tsx:226-230 | The stream index never exceeds the log's length. |
| Conversation.Locate | src/components/pages/ChatbotPage/Message.tsx:224-235 | The step goes on only when the message before the stream index is an assistant `"..."` placeholder with at least one message before it. That earlier message is not checked to be a user message. A placeholder that opens the log is `Orphan`, and the step stops. |
| Conversation.LocatePendingIff | src/components/pages/ChatbotPage/Message.tsx:224-231 | The step has a placeholder to answer exactly when the message before the stream index is an assistant `"..."` placeholder with a message before it. |
| Conversation.LocateAfterTopLevelSend | src/components/pages/ChatbotPage/Message.tsx:226-232 | After a top-level send, the stream step answers the message just sent. |
| Conversation.LocateAfterThreadedSend | src/components/pages/ChatbotPage/Message.tsx:226-232 | After a threaded reply at `i`, the stream step answers into the placeholder at `i + 1`. |
| Conversation.SendOpensOwnGroup | src/components/pages/ChatbotPage/Message.tsx:104-119 | After a top-level send, the new pair forms the last reply group on its own. |
| Conversation.IdleTrimKeepsLatest | src/components/pages/ChatbotPage/Message.tsx:209-212 | `splice(-k)` keeps the latest `k` messages in order. It keeps all of them when there are fewer, and all of them for `k = 0`. |
| Conversation.WithDocuments | src/components/pages/ChatbotPage/Message.tsx:279-290 | The document reference is cleared either way, and no field besides the documents and their hashes changes. On success, the i-th hash and the i-th document come from the i-th passage. On failure, the old documents stay. |
| Conversation.DocumentsThenRequest | src/components/pages/ChatbotPage/Message.tsx:289-294 | After the documents are attached, the same placeholder still waits, and the next step sends the request. |
| Conversation.WithContentById | src/components/pages/ChatbotPage/Message.tsx:633-634 | Writing streamed text changes only the content of the first log message with the placeholder's id. |
| Conversation.WithContentWithoutMatch | src/components/pages/ChatbotPage/Message.tsx:633-634 | Without a log message carrying that id, the log is unchanged. |
| Conversation.AnsweredIsNotPending | src/components/pages/ChatbotPage/Message.tsx:446-453 | Once an answer other than `"..."` is in the placeholder the step was waiting on, the step finds nothing pending. |
| Conversation.PersistById | src/components/pages/ChatbotPage/Message.tsx:356-363 | Saving streamed content changes only the content of the first stored entry with the placeholder's id. |
| Conversation.PersistWithoutMatch | src/components/pages/ChatbotPage/Message.tsx:356-363 | Without a stored entry carrying that id, nothing is written. |
| Conversation.Chat.constructor | src/components/pages/ChatbotPage/Message.tsx:68-91 | The page opens on the saved log, or on the greeting, with no flags, no includes and the stream index at -1. |
| Conversation.Chat.Send | src/components/pages/ChatbotPage/Message.tsx:132-187 | The log becomes `AfterSend(...)`. A threaded reply sets the stream index to `index + 1` and the includes. A top-level send resets both and scrolls. Empty content changes nothing. |
| Conversation.Chat.SaveSplitMessages | src/components/pages/ChatbotPage/Message.tsx:198-215 | When every flag is true, the log is cut to its latest `maxMessages` (10 when unset), saved, and the flags are cleared. Otherwise nothing changes. |
| Conversation.Chat.RegroupThreads | src/components/pages/ChatbotPage/Message.tsx:92-123 | The memo rewrites the logged messages' flags in place and returns the reply groups of the result. |
| Conversation.Chat.QueryDocuments | src/components/pages/ChatbotPage/Message.tsx:237-295 | The indexer is asked `DocumentQuery(...)`. The user message gets the passages and loses its reference. The log is saved. |
| Conversation.Chat.RequestAnswer | src/components/pages/ChatbotPage/Message.tsx:297-429 | The placeholder is marked pending, and the view follows when it is last. The request is `Outbound(...)` and the model is `ChooseModel` of the counted size. The log is unchanged. |
| Conversation.Chat.StreamInto | src/components/pages/ChatbotPage/Message.tsx:236-296 | With a placeholder waiting, a message that names a document gets its documents written in, and the log is saved with the flags and scrolling unchanged. Any other message is sent as the request, with the log and storage unchanged. |
| Conversation.Chat.BeginStream | src/components/pages/ChatbotPage/Message.tsx:222-235 | Nothing happens unless `Locate` finds a pending placeholder. When the message names a document, the step queries it, writes the documents into that message, saves the log, and leaves the flags and scrolling alone. Otherwise the request is sent from the unchanged log, and storage is not written. |
| Conversation.Chat.PersistContent | src/components/pages/ChatbotPage/Message.tsx:356-363 | The stored copy becomes `Persisted(...)`, and nothing else changes. |
| Conversation.Chat.SaveLog | src/components/pages/ChatbotPage/Message.tsx:470-478 | A non-empty log replaces the stored copy, an empty one is not saved, and nothing else changes. |
| Conversation.SendAndAnswer | src/components/pages/ChatbotPage/Message.tsx:446-478 | After a top-level send, the save that follows, and the end of the stream, the answer is in the placeholder's place and the stored copy equals the log. |
| Conversation.Chat.ShowChunk | src/components/pages/ChatbotPage/Message.tsx:446-447 | The streamed text so far replaces the placeholder's content in the log, and nothing else changes. |
| Conversation.Chat.CompleteStream | src/components/pages/ChatbotPage/Message.tsx:446-453 | The final answer replaces the placeholder's content in the log and in the stored copy, and its flag is set to true. |
| Text.TrimEmptyIffBlank | src/components/pages/ChatbotPage/AddPrompt.tsx:243 | `trim().length > 0` holds exactly when the prompt has a non-whitespace character. |
| PromptEditor.InsertKeepsOthers | src/components/pages/ChatbotPage/AddPrompt.tsx:71-74 | Inserting adds one empty entry at the position: a system entry at 0, a user entry elsewhere. The others keep their order, and the marker count is unchanged. |
| PromptEditor.RemoveKeepsOthers | src/components/pages/ChatbotPage/AddPrompt.tsx:75-78 | Removing takes out exactly the entry at the index and keeps the others in order. Removing a fixed entry keeps the marker count. |
| PromptEditor.EditKeepsMarkers | src/components/pages/ChatbotPage/AddPrompt.tsx:163-180 | Editing a fixed entry's role or prompt keeps the marker count. |
| PromptEditor.SaveFilterShape | src/components/pages/ChatbotPage/AddPrompt.tsx:241-244 | The saved entries are a subsequence of the edited ones and hold the same number of markers. |
| PromptEditor.SaveFilterKeepsFilledEntries | src/components/pages/ChatbotPage/AddPrompt.tsx:241-244 | The saved list is exactly the edited list filtered by the whitespace test: the markers and the entries with a non-blank prompt, in order and with their repetitions. |
| PromptEditor.Submitted | src/components/pages/ChatbotPage/AddPrompt.tsx:257-266 | A template is handed over exactly when the name is not empty and the temperature lies in [0, 2]. It carries the given name and id. |
| PromptEditor.Editor.constructor | src/components/pages/ChatbotPage/AddPrompt.tsx:55-64 | The form opens on the edited template's entries and name, or on the defaults. The temperature is kept unless negative, otherwise it is 0.7. Quoting starts off. |
| PromptEditor.Editor.YourIndex | src/components/pages/ChatbotPage/AddPrompt.tsx:56-58 | The index is that of the first `"your"` marker. It is -1 exactly when there is none. |
| PromptEditor.Editor.AddEntry | src/components/pages/ChatbotPage/AddPrompt.tsx:71-74 | The entries become `InsertedEntry(old entries, posIndex)`, and the form fields are unchanged. |
| PromptEditor.Editor.RemoveEntry | src/components/pages/ChatbotPage/AddPrompt.tsx:75-78 | The entries become `RemovedEntry(old entries, index)`, and the form fields are unchanged. |
| PromptEditor.Editor.SetRole | src/components/pages/ChatbotPage/AddPrompt.tsx:167-170 | Only the role of entry `i` changes. |
| PromptEditor.Editor.SetPrompt | src/components/pages/ChatbotPage/AddPrompt.tsx:176-179 | Only the prompt of entry `i` changes. |
| PromptEditor.Editor.SetName | src/components/pages/ChatbotPage/AddPrompt.tsx:91 | The Name input sets the name, and nothing else changes. |
| PromptEditor.Editor.SetTemperature | src/components/pages/ChatbotPage/AddPrompt.tsx:92-102 | The Temperature input sets the temperature, unchecked until the save, and nothing else changes. |
| PromptEditor.Editor.SetWrapSingleLine | src/components/pages/ChatbotPage/AddPrompt.tsx:103-109 | The quoting checkbox sets the switch, and nothing else changes. |
| PromptEditor.Editor.Save | src/components/pages/ChatbotPage/AddPrompt.tsx:253-267 | Save hands over the filtered template with the edited template's id exactly when the form validates. |
| PromptEditor.Editor.Clone | src/components/pages/ChatbotPage/AddPrompt.tsx:232-252 | Clone, offered only while editing, hands over the same template without an id exactly when the form validates. |

## Left out

- Rendering, styling, scrolling, focus, measuring, notifications, the per-message components and their ref maps (`messageRefs`, `autoScrollIds`, `needRefreshMessageIds`, `doneMessages`) are not modelled. Only the `doScroll` switch and the `scrollToBottom` flags are.
- Timers are not modelled: the 42 ms debounces, the 60 s idle detection and the 1 s throttle. The idle save, the debounced save of the log (`Conversation.Chat.SaveLog`), the stream step and the other storage writes are operations the caller invokes after the change that triggers them. The throttled intermediate saves are the same `Conversation.Chat.PersistContent` as the final one.
- Browser storage is the field `stored`. `JSON` round-tripping is identity.
- The clock is the parameters `now`, `now1` and `now2`.
- The indexer call and its score filter (`filterDocs`, `doc2ChatContent`) are the parameter `indexer`. A failed request is `None`.
- The token counter is the parameter `countTokens`.
- The streaming client, `onController` and the `onError` re-render are not modelled.
- `Conversation.Chat.ShowChunk`: the message item of the placeholder is taken to be mounted. The source writes the chunk only when the item's ref exists.
- The stream step's two `await`s (the indexer query and the token count) are not modelled. Each branch of `Conversation.Chat.BeginStream` is one atomic step. In the source, a message sent during the indexer request is overwritten when the step sets the log to its own copy.
- The answer post-processing (`postprocessAnswer`, `unWrapRawContent`, `processTaggedMessage`) is not modelled: `Conversation.Chat.CompleteStream` receives the already processed answer.
- `wrapRawContent` and `htmlEncode` are functions in `PromptAssembly.Wrapping`. They are external utilities, not part of this model.
- The single-line condition on quoting is commented out in the source. The model quotes every user turn of a top-level send when `wrapSingleLine` is set, as the code does.
- `Conversation.Chat.Send`: `index > messages.length` is excluded by its precondition. There `insertAt` would leave a hole in the array, which a sequence cannot hold.
- `Conversation.Chat.Send`: the `notifyIndexerVersionError` notification is left out.
- `Conversation.Chat.SaveSplitMessages`: `maxMessages` is given as an already parsed natural number, or absent for the default 10. `parseInt` of a malformed or negative stored setting is not modelled.
- `Conversation.Chat.SaveSplitMessages`: the lodash `forEach` visits keys in insertion order and stops at the first false flag. The model scans keys in any order. Only whether some flag is false matters.
- `PromptAssembly.ChooseModel`: unary `+` is modelled for decimal digit strings, optionally surrounded by whitespace. Every other form (signs, fractions, exponents, hex, `Infinity`) is treated as NaN, which picks `model1`. JavaScript would read some of those forms as numbers.
- `PromptAssembly.DedupFrom`: the `uniqueId` keys of non-system turns are taken to be distinct from every other key. The key of a non-system turn ends in `:apiMessages` and a counter, so it never equals a system key (`…:system`) or another turn's key.
- `Conversation.Chat.BeginStream`: in the request branch, it states the turns, the unchanged log and the unchanged stored copy. The model, the flags and the scroll switch are left to `Conversation.Chat.RequestAnswer`'s contract.
- `Conversation.Locate`: when the placeholder is the log's first message, the source reads `messages[-1]`, which is `undefined`, and throws when it reads `userMessage.docId`. The model reports this as `Orphan` and does nothing.
- Aliasing is not modelled. The source's in-place writes to the shared message objects (the flag rewrite in the render memo, the document fields, the streamed content written by the message item) are modelled as updates of the `messages` sequence. The editor's in-place `splice` and field writes on the array it was given (`editData.prompts`) are modelled on the `prompts` field only, so the edited template handed in is not seen to change.
- `PromptEditor.Editor.SetTemperature`: the number input's own bounds and one-decimal precision are not modelled. Any value can be set, and the save rejects one outside [0, 2].
- Floating-point numbers are `real`. The temperature and score constants are exact.
