/** The conversation state of the chat page: the message log, the completion
    flag of every streamed answer, where the next answer streams, the messages
    a threaded reply includes, and the copy of the log kept in browser
    storage; with the operations that change it. */
module Conversation {
  import opened Wrappers
  import opened Seqs
  import opened Text
  import opened ChatTypes
  import opened Threads
  import opened PromptAssembly
  import opened DocQuery

  /** The only message of a conversation with nothing stored. */
  const Greeting := "Hello! How can I assist you today?"

  function GreetingMessage(now: int): Message
  {
    Message(Assistant, Greeting, false, now, None, false, false, 0, None, [], [])
  }

  /** How many messages an idle trim keeps when no setting is stored. */
  const DefaultMaxMessages: nat := 10

  /** The document selector's placeholder entry, which stands for no document. */
  const NoDocumentChoice := "Choose document"

  /** The document reference a send records: the selector's placeholder
      entry and the empty string mean none. */
  function SentDocId(docId: Option<string>): (r: Option<string>)
    ensures r.Some? <==> docId.Some? && docId.value != "" && docId.value != NoDocumentChoice
    ensures r.Some? ==> r == docId
  {
    if docId == Some(NoDocumentChoice) || docId == Some("") then None else docId
  }

  /** The user message and the assistant placeholder one send adds; `now1`
      and `now2` are two readings of the clock. */
  function SentPair(content: string, anyChecked: bool, tokens: int, docId: Option<string>,
                    now1: int, now2: int, threaded: bool, scroll: bool): seq<Message>
  {
    [Message(User, content, anyChecked, now1 - 1, Some(now1), threaded, scroll, tokens, docId, [], []),
     Message(Assistant, PlaceholderText, anyChecked, now2, Some(now2), true, scroll, tokens, None, [], [])]
  }

  /** A send is a threaded reply when it is given an index that is not negative. */
  predicate Threaded(index: Option<int>)
  {
    index.Some? && index.value >= 0
  }

  /** The log after `onSend`: unchanged for empty content; otherwise the pair
      inserted at the index of a threaded reply, or appended. */
  function AfterSend(msgs: seq<Message>, content: string, index: Option<int>, tokens: Option<int>,
                     docId: Option<string>, now1: int, now2: int): seq<Message>
    requires Threaded(index) ==> index.value <= |msgs|
  {
    if content == "" then msgs
    else
      var anyChecked := |CheckedMessages(msgs)| > 0;
      var doc := SentDocId(docId);
      if Threaded(index) then
        var i := index.value;
        msgs[..i] + SentPair(content, anyChecked, tokens.GetOr(0), doc, now1, now2, true, !(i < |msgs|)) + msgs[i..]
      else
        msgs + SentPair(content, anyChecked, tokens.GetOr(0), doc, now1, now2, false, true)
  }

  /** A top-level send appends exactly two messages: the user's, which is not
      a child, then the placeholder, which is; the user's id is the smaller. */
  lemma SendAppendsPair(msgs: seq<Message>, content: string, index: Option<int>, tokens: Option<int>,
                        docId: Option<string>, now1: int, now2: int)
    requires content != "" && !Threaded(index) && now1 <= now2
    ensures var r := AfterSend(msgs, content, index, tokens, docId, now1, now2); var n := |msgs|;
      && |r| == n + 2
      && r[..n] == msgs
      && r[n].source == User && r[n].content == content && !r[n].isChild && r[n].scrollToBottom
      && IsPlaceholder(r[n + 1]) && r[n + 1].isChild
      && r[n].id < r[n + 1].id
  {
    var r := AfterSend(msgs, content, index, tokens, docId, now1, now2);
    assert r[..|msgs|] == msgs;
  }

  /** A threaded reply at `i` puts the user's message at `i` and the
      placeholder at `i + 1`, both children; the messages before stay, the
      later ones move up by two in their order; they scroll into view only
      when they land at the end. */
  lemma SendInsertsPair(msgs: seq<Message>, content: string, i: nat, tokens: Option<int>,
                        docId: Option<string>, now1: int, now2: int)
    requires content != "" && i <= |msgs| && now1 <= now2
    ensures var r := AfterSend(msgs, content, Some(i), tokens, docId, now1, now2);
      && |r| == |msgs| + 2
      && r[..i] == msgs[..i]
      && r[i + 2..] == msgs[i..]
      && r[i].source == User && r[i].content == content && r[i].isChild
      && IsPlaceholder(r[i + 1]) && r[i + 1].isChild
      && (r[i].scrollToBottom <==> i == |msgs|) && (r[i + 1].scrollToBottom <==> i == |msgs|)
      && r[i].id < r[i + 1].id
  {
    var r := AfterSend(msgs, content, Some(i), tokens, docId, now1, now2);
    var pair := r[i..i + 2];
    assert r == msgs[..i] + pair + msgs[i..];
    assert r[..i] == msgs[..i];
    assert r[i + 2..] == msgs[i..];
  }

  /** Where the placeholder waiting for an answer is: `streamIndex` is one
      past it; `Orphan` when it is the first message, so that no user message
      precedes it and the step stops with an error. */
  datatype Slot = NothingPending | Orphan | Pending(streamIndex: nat)

  /** `streamMessageIndex + 1`, or the log's length when it is -1, at most the length. */
  function StreamIndex(n: nat, streamMessageIndex: int): (si: int)
    ensures si <= n
  {
    var si := if streamMessageIndex == -1 then n else streamMessageIndex + 1;
    if si > n then n else si
  }

  /** The stream step goes on only when the message before the stream index
      is an assistant placeholder (reading before the start of the log also
      stops it). */
  function Locate(msgs: seq<Message>, streamMessageIndex: int): (s: Slot)
    ensures s.Pending? ==> 2 <= s.streamIndex <= |msgs| && IsPlaceholder(msgs[s.streamIndex - 1])
    ensures s.Orphan? ==> |msgs| > 0 && IsPlaceholder(msgs[0])
  {
    if |msgs| == 0 then NothingPending
    else
      var si := StreamIndex(|msgs|, streamMessageIndex);
      if si < 1 || !IsPlaceholder(msgs[si - 1]) then NothingPending
      else if si == 1 then Orphan
      else Pending(si)
  }

  /** The stream step has a placeholder to answer exactly when the message
      before the stream index is one and at least one message precedes it. */
  lemma LocatePendingIff(msgs: seq<Message>, streamMessageIndex: int)
    ensures var si := StreamIndex(|msgs|, streamMessageIndex);
      Locate(msgs, streamMessageIndex).Pending? <==> |msgs| > 0 && si >= 2 && IsPlaceholder(msgs[si - 1])
  {
  }

  /** After a top-level send the answer streams into the new placeholder,
      for the message just sent. */
  lemma LocateAfterTopLevelSend(msgs: seq<Message>, content: string, index: Option<int>, tokens: Option<int>,
                                docId: Option<string>, now1: int, now2: int)
    requires content != "" && !Threaded(index)
    ensures var r := AfterSend(msgs, content, index, tokens, docId, now1, now2);
      && Locate(r, -1) == Pending(|msgs| + 2)
      && r[|msgs|].content == content
  {
  }

  /** After a threaded reply at `i` the answer streams into the placeholder
      at `i + 1`, for the reply just inserted. */
  lemma LocateAfterThreadedSend(msgs: seq<Message>, content: string, i: nat, tokens: Option<int>,
                                docId: Option<string>, now1: int, now2: int)
    requires content != "" && i <= |msgs|
    ensures var r := AfterSend(msgs, content, Some(i), tokens, docId, now1, now2);
      && Locate(r, i + 1) == Pending(i + 2)
      && r[i].content == content
  {
    var r := AfterSend(msgs, content, Some(i), tokens, docId, now1, now2);
    assert r[i + 1] == SentPair(content, |CheckedMessages(msgs)| > 0, tokens.GetOr(0), SentDocId(docId),
                                now1, now2, true, !(i < |msgs|))[1];
  }

  /** A top-level send forms a reply group of its own: the user's message
      heads the log's last group and the placeholder completes it. */
  lemma SendOpensOwnGroup(msgs: seq<Message>, content: string, index: Option<int>, tokens: Option<int>,
                          docId: Option<string>, now1: int, now2: int)
    requires content != "" && !Threaded(index)
    ensures var r := AfterSend(msgs, content, index, tokens, docId, now1, now2);
      var g := Groups(Flagged(r));
      |g| > 0 && g[|g| - 1] == r[|msgs|..]
  {
    var r := AfterSend(msgs, content, index, tokens, docId, now1, now2);
    var n := |msgs|;
    assert r[n..] == [r[n], r[n + 1]];
    LastPairIsOwnGroup(r);
    assert Flagged(r)[n..] == r[n..];
  }

  /** `messages.splice(-k)`: a negative start counts back from the end and
      stops at 0, and `-0` is 0. */
  function Retained(msgs: seq<Message>, k: nat): seq<Message>
  {
    var start := if k == 0 then 0 else if |msgs| >= k then |msgs| - k else 0;
    msgs[start..]
  }

  /** The idle trim keeps the latest `k` messages in order, all of them when
      there are fewer, and all of them for `k = 0`. */
  lemma IdleTrimKeepsLatest(msgs: seq<Message>, k: nat)
    ensures var r := Retained(msgs, k);
      && |r| == (if k == 0 || |msgs| <= k then |msgs| else k)
      && r == msgs[|msgs| - |r|..]
  {
  }

  /** Every answer recorded so far has completed (true of no answers). */
  predicate AllDone(isDone: map<int, bool>)
  {
    forall id :: id in isDone ==> isDone[id]
  }

  /** One passage the indexer returned and the score filter kept: its hash
      and its text as chat content. */
  datatype Passage = Passage(hash: string, chatContent: string)

  /** The user message after the document query: the reference is cleared
      either way, and the passages are attached when the query succeeded. */
  function WithDocuments(m: Message, found: Option<seq<Passage>>): (r: Message)
    ensures r.docId == None
    ensures r.(docId := m.docId, docs := m.docs, docHashes := m.docHashes) == m
    ensures found.None? ==> r.docs == m.docs && r.docHashes == m.docHashes
    ensures found.Some? ==>
      && |r.docs| == |r.docHashes| == |found.value|
      && forall i :: 0 <= i < |found.value| ==>
           r.docHashes[i] == found.value[i].hash && r.docs[i] == found.value[i].chatContent
  {
    match found
    case None => m.(docId := None)
    case Some(ps) =>
      m.(docId := None,
         docHashes := seq(|ps|, i requires 0 <= i < |ps| => ps[i].hash),
         docs := seq(|ps|, i requires 0 <= i < |ps| => ps[i].chatContent))
  }

  /** After the documents are attached, the placeholder still waits at the
      same place and the message no longer asks for documents, so the next
      step sends the request. */
  lemma DocumentsThenRequest(msgs: seq<Message>, streamMessageIndex: int, found: Option<seq<Passage>>)
    requires Locate(msgs, streamMessageIndex).Pending?
    ensures var si := Locate(msgs, streamMessageIndex).streamIndex;
      var after := msgs[si - 2 := WithDocuments(msgs[si - 2], found)];
      && Locate(after, streamMessageIndex) == Pending(si)
      && !HasDocRef(after[si - 2])
  {
  }

  /** The log with `content` written into the first message carrying `id`;
      unchanged when no message does. */
  function WithContent(msgs: seq<Message>, id: int, content: string): (r: seq<Message>)
    ensures |r| == |msgs|
  {
    var at := FindIndex(msgs, HasId(id));
    if at >= 0 then msgs[at := msgs[at].(content := content)] else msgs
  }

  /** Only the content of the first message carrying the id changes. */
  lemma WithContentById(msgs: seq<Message>, id: int, content: string, at: nat)
    requires at < |msgs| && msgs[at].id == id
    requires forall j :: 0 <= j < at ==> msgs[j].id != id
    ensures var r := WithContent(msgs, id, content);
      && |r| == |msgs|
      && r[at].content == content
      && r[at].(content := msgs[at].content) == msgs[at]
      && forall j :: 0 <= j < |r| && j != at ==> r[j] == msgs[j]
  {
    assert FindIndex(msgs, HasId(id)) == at;
  }

  /** Without a message carrying the id nothing changes. */
  lemma WithContentWithoutMatch(msgs: seq<Message>, id: int, content: string)
    requires forall j :: 0 <= j < |msgs| ==> msgs[j].id != id
    ensures WithContent(msgs, id, content) == msgs
  {
  }

  /** Once an answer other than `"..."` is written into the placeholder the
      stream step was waiting on (the first message with its id), the step
      finds nothing to do: the same answer is not requested twice. */
  lemma AnsweredIsNotPending(msgs: seq<Message>, streamMessageIndex: int, answer: string)
    requires Locate(msgs, streamMessageIndex).Pending?
    requires var k := Locate(msgs, streamMessageIndex).streamIndex - 1;
      forall j :: 0 <= j < k ==> msgs[j].id != msgs[k].id
    requires answer != PlaceholderText
    ensures var k := Locate(msgs, streamMessageIndex).streamIndex - 1;
      Locate(WithContent(msgs, msgs[k].id, answer), streamMessageIndex) == NothingPending
  {
    var k := Locate(msgs, streamMessageIndex).streamIndex - 1;
    WithContentById(msgs, msgs[k].id, answer, k);
  }

  /** `saveMessagesFn`: the first stored entry with the placeholder's id gets
      the streamed content; with no such entry, or nothing stored, nothing is
      written. */
  function Persisted(stored: Option<seq<Message>>, id: int, content: string): Option<seq<Message>>
  {
    if stored.Some? && FindIndex(stored.value, HasId(id)) >= 0 then Some(WithContent(stored.value, id, content))
    else stored
  }

  /** Only the content of the matching entry changes. */
  lemma PersistById(stored: Option<seq<Message>>, id: int, content: string, at: nat)
    requires stored.Some? && at < |stored.value| && stored.value[at].id == id
    requires forall j :: 0 <= j < at ==> stored.value[j].id != id
    ensures var r := Persisted(stored, id, content);
      && r.Some? && |r.value| == |stored.value|
      && r.value[at].content == content
      && r.value[at].(content := stored.value[at].content) == stored.value[at]
      && forall j :: 0 <= j < |r.value| && j != at ==> r.value[j] == stored.value[j]
  {
    WithContentById(stored.value, id, content, at);
  }

  /** Without a matching entry nothing is written. */
  lemma PersistWithoutMatch(stored: Option<seq<Message>>, id: int, content: string)
    requires stored.Some? ==> forall j :: 0 <= j < |stored.value| ==> stored.value[j].id != id
    ensures Persisted(stored, id, content) == stored
  {
  }

  /** The whole text of a request, which the token counter measures. */
  function Contents(turns: seq<Turn>): string
  {
    Join(seq(|turns|, i requires 0 <= i < |turns| => turns[i].content), "")
  }

  /** What one run of the stream step did. */
  datatype StreamStart =
    | NothingToStream
    | DocumentsQueried(params: QueryParams)
    | Requested(turns: seq<Turn>, model: Option<string>)

  class Chat {
    var messages: seq<Message>
    var isDone: map<int, bool>
    var streamMessageIndex: int
    var includes: seq<Message>
    var doScroll: bool
    /** The log saved in browser storage for this collection; `None` when
        nothing is saved. */
    var stored: Option<seq<Message>>

    /** The page opens on the saved log, or on the greeting when nothing is
        saved. */
    constructor(saved: Option<seq<Message>>, now: int)
      ensures messages == (if saved.Some? then saved.value else [GreetingMessage(now)])
      ensures isDone == map[] && streamMessageIndex == -1 && includes == [] && !doScroll
      ensures stored == saved
    {
      messages := if saved.Some? then saved.value else [GreetingMessage(now)];
      isDone := map[];
      streamMessageIndex := -1;
      includes := [];
      doScroll := false;
      stored := saved;
    }

    /** `onSend`. */
    method Send(content: string, index: Option<int>, includeMessages: Option<seq<Message>>,
                tokens: Option<int>, docId: Option<string>, now1: int, now2: int)
      requires Threaded(index) ==> index.value <= |messages|
      modifies this
      ensures messages == AfterSend(old(messages), content, index, tokens, docId, now1, now2)
      ensures content == "" ==>
        streamMessageIndex == old(streamMessageIndex) && includes == old(includes) && doScroll == old(doScroll)
      ensures content != "" && Threaded(index) ==>
        && streamMessageIndex == index.value + 1
        && includes == includeMessages.GetOr([])
        && doScroll == old(doScroll)
      ensures content != "" && !Threaded(index) ==> streamMessageIndex == -1 && includes == [] && doScroll
      ensures isDone == old(isDone) && stored == old(stored)
    {
      if |content| == 0 {
        return;
      }
      var doc := SentDocId(docId);
      var anyChecked := |CheckedMessages(messages)| > 0;
      var userMessage := Message(User, content, anyChecked, now1 - 1, Some(now1), false, true, tokens.GetOr(0), doc, [], []);
      var assistantMessage := Message(Assistant, PlaceholderText, anyChecked, now2, Some(now2), true, true, tokens.GetOr(0), None, [], []);
      if index.Some? && index.value >= 0 {
        var i := index.value;
        userMessage := userMessage.(isChild := true);
        if i < |messages| {
          userMessage := userMessage.(scrollToBottom := false);
          assistantMessage := assistantMessage.(scrollToBottom := false);
        }
        ghost var before := messages;
        messages := messages[..i] + [assistantMessage] + messages[i..];
        assert messages[..i] == before[..i] && messages[i..] == [assistantMessage] + before[i..];
        messages := messages[..i] + [userMessage] + messages[i..];
        assert messages == before[..i] + [userMessage, assistantMessage] + before[i..];
        streamMessageIndex := i + 1;
        includes := includeMessages.GetOr([]);
      } else {
        messages := messages + [userMessage, assistantMessage];
        streamMessageIndex := -1;
        doScroll := true;
        includes := [];
      }
    }

    /** `saveSplitMessages`, run when the page goes idle: when every recorded
        answer has completed, the log is cut to its latest `maxMessages`
        (10 when unset), saved, and the flags are forgotten. */
    method SaveSplitMessages(maxMessages: Option<nat>)
      modifies this
      ensures AllDone(old(isDone)) ==>
        && messages == Retained(old(messages), maxMessages.GetOr(DefaultMaxMessages))
        && stored == Some(messages)
        && isDone == map[]
      ensures !AllDone(old(isDone)) ==> messages == old(messages) && stored == old(stored) && isDone == old(isDone)
      ensures streamMessageIndex == old(streamMessageIndex) && includes == old(includes) && doScroll == old(doScroll)
    {
      var canSave := true;
      var flags := isDone;
      var unvisited := flags.Keys;
      while unvisited != {}
        invariant unvisited <= flags.Keys
        invariant forall key :: key in flags && key !in unvisited ==> flags[key]
        decreases |unvisited|
      {
        if forall k :: k !in unvisited {
          assert false;
        }
        var key :| key in unvisited;
        if !flags[key] {
          canSave := false;
          break;
        }
        unvisited := unvisited - {key};
      }
      if canSave {
        var saveMessages := Retained(messages, maxMessages.GetOr(DefaultMaxMessages));
        stored := Some(saveMessages);
        messages := saveMessages;
        isDone := map[];
      }
    }

    /** The render-time grouping memo, which rewrites the flags of the logged
        messages themselves. */
    method RegroupThreads() returns (groups: seq<seq<Message>>)
      modifies this
      ensures messages == Flagged(old(messages)) && groups == Groups(messages)
      ensures isDone == old(isDone) && streamMessageIndex == old(streamMessageIndex)
      ensures includes == old(includes) && doScroll == old(doScroll) && stored == old(stored)
    {
      var flagged;
      groups, flagged := GroupThreads(messages);
      messages := flagged;
    }

    /** The document branch of the stream step: the indexer is asked for
        passages for the user message before the placeholder, whose
        reference is then cleared, and the log is saved. `indexer` stands
        for the document indexer together with the score filter (`None`
        when the request fails). */
    method QueryDocuments(streamIndex: nat, apiKeys: string, indexer: QueryParams -> Option<seq<Passage>>)
      returns (params: QueryParams)
      requires 2 <= streamIndex <= |messages| && HasDocRef(messages[streamIndex - 2])
      modifies this
      ensures params == DocumentQuery(old(messages), old(includes), old(messages)[streamIndex - 2], apiKeys)
      ensures messages == old(messages)[streamIndex - 2 := WithDocuments(old(messages)[streamIndex - 2], indexer(params))]
      ensures stored == Some(messages)
      ensures isDone == old(isDone) && doScroll == old(doScroll)
      ensures streamMessageIndex == old(streamMessageIndex) && includes == old(includes)
    {
      var userMessage := messages[streamIndex - 2];
      params := DocumentQuery(messages, includes, userMessage, apiKeys);
      messages := messages[streamIndex - 2 := WithDocuments(userMessage, indexer(params))];
      stored := Some(messages);
    }

    /** The request branch of the stream step: the answer is recorded as
        pending, the view follows it when it is the last message, and the
        outbound turns and the model are returned. `countTokens` stands for
        the token counter. */
    method RequestAnswer(streamIndex: nat, template: seq<TemplateEntry>, w: Wrapping, model: string,
                         countTokens: string -> int)
      returns (finalMessages: seq<Turn>, autoModel: Option<string>)
      requires 2 <= streamIndex <= |messages|
      modifies this
      ensures messages == old(messages) && stored == old(stored)
      ensures finalMessages == Outbound(template, includes, CheckedMessages(messages), messages[streamIndex - 2], w)
      ensures autoModel == ChooseModel(model, countTokens(Contents(finalMessages)))
      ensures isDone == old(isDone)[messages[streamIndex - 1].id := false]
      ensures doScroll == (old(doScroll) || streamIndex == |messages|)
      ensures streamMessageIndex == old(streamMessageIndex) && includes == old(includes)
    {
      var userMessage := messages[streamIndex - 2];
      var assistantPreMessage := messages[streamIndex - 1];
      if streamIndex == |messages| {
        doScroll := true;
      }
      isDone := isDone[assistantPreMessage.id := false];
      var marker := MarkerTurns(includes, CheckedMessages(messages), userMessage);
      var requestMessages := AssembleRequest(template, marker);
      var apiMessages := Outgoing(requestMessages, userMessage.isChild, w);
      finalMessages := InsertDocuments(Dedup(apiMessages), AllDocs(includes, userMessage));
      autoModel := ChooseModel(model, countTokens(Contents(finalMessages)));
    }

    /** The stream step once a placeholder waits at `streamIndex - 1`: the
        documents of the message before it are fetched first when it names
        a document, and the request is made otherwise. */
    method StreamInto(streamIndex: nat, template: seq<TemplateEntry>, w: Wrapping, model: string, apiKeys: string,
                      countTokens: string -> int, indexer: QueryParams -> Option<seq<Passage>>)
      returns (start: StreamStart)
      requires 2 <= streamIndex <= |messages|
      modifies this
      ensures start.DocumentsQueried? || start.Requested?
      ensures start.DocumentsQueried? ==>
        && HasDocRef(old(messages)[streamIndex - 2]) && stored == Some(messages)
        && start.params == DocumentQuery(old(messages), old(includes), old(messages)[streamIndex - 2], apiKeys)
        && messages == old(messages)[streamIndex - 2 :=
             WithDocuments(old(messages)[streamIndex - 2], indexer(start.params))]
        && isDone == old(isDone) && doScroll == old(doScroll)
      ensures start.Requested? ==>
        && !HasDocRef(old(messages)[streamIndex - 2])
        && messages == old(messages) && stored == old(stored)
        && start.turns == Outbound(template, old(includes), CheckedMessages(old(messages)),
                                   old(messages)[streamIndex - 2], w)
      ensures streamMessageIndex == old(streamMessageIndex) && includes == old(includes)
    {
      if HasDocRef(messages[streamIndex - 2]) {
        var params := QueryDocuments(streamIndex, apiKeys, indexer);
        return DocumentsQueried(params);
      }
      var finalMessages, autoModel := RequestAnswer(streamIndex, template, w, model, countTokens);
      start := Requested(finalMessages, autoModel);
    }

    /** One run of the debounced stream step: nothing happens unless an
        assistant placeholder waits at the stream index after a user
        message (`Locate`); that message's documents are fetched first when
        it names a document, and the request is made otherwise. */
    method BeginStream(template: seq<TemplateEntry>, w: Wrapping, model: string, apiKeys: string,
                       countTokens: string -> int, indexer: QueryParams -> Option<seq<Passage>>)
      returns (start: StreamStart)
      modifies this
      ensures !Locate(old(messages), old(streamMessageIndex)).Pending? ==>
        && start == NothingToStream && messages == old(messages) && stored == old(stored)
        && isDone == old(isDone) && doScroll == old(doScroll)
      ensures Locate(old(messages), old(streamMessageIndex)).Pending? ==> start.DocumentsQueried? || start.Requested?
      ensures start.DocumentsQueried? ==>
        var slot := Locate(old(messages), old(streamMessageIndex));
        && slot.Pending? && HasDocRef(old(messages)[slot.streamIndex - 2]) && stored == Some(messages)
        && start.params == DocumentQuery(old(messages), old(includes), old(messages)[slot.streamIndex - 2], apiKeys)
        && messages == old(messages)[slot.streamIndex - 2 :=
             WithDocuments(old(messages)[slot.streamIndex - 2], indexer(start.params))]
        && isDone == old(isDone) && doScroll == old(doScroll)
      ensures start.Requested? ==>
        var slot := Locate(old(messages), old(streamMessageIndex));
        && slot.Pending? && !HasDocRef(old(messages)[slot.streamIndex - 2])
        && messages == old(messages) && stored == old(stored)
        && start.turns == Outbound(template, old(includes), CheckedMessages(old(messages)),
                                   old(messages)[slot.streamIndex - 2], w)
      ensures streamMessageIndex == old(streamMessageIndex) && includes == old(includes)
    {
      var slot := Locate(messages, streamMessageIndex);
      if !slot.Pending? {
        return NothingToStream;
      }
      start := StreamInto(slot.streamIndex, template, w, model, apiKeys, countTokens, indexer);
    }

    /** `saveMessagesFn`: the streamed content goes into the stored entry of
        the placeholder. */
    method PersistContent(placeholderId: int, content: string)
      modifies this
      ensures stored == Persisted(old(stored), placeholderId, content)
      ensures messages == old(messages) && isDone == old(isDone) && streamMessageIndex == old(streamMessageIndex)
      ensures includes == old(includes) && doScroll == old(doScroll)
    {
      if stored.Some? {
        var dbMessages := stored.value;
        var dbMsgIndex := FindIndex(dbMessages, HasId(placeholderId));
        if dbMsgIndex >= 0 {
          dbMessages := dbMessages[dbMsgIndex := dbMessages[dbMsgIndex].(content := content)];
          stored := Some(dbMessages);
        }
      }
    }

    /** The debounced save that follows every change of the log: a
        non-empty log replaces the stored copy; an empty one is not saved. */
    method SaveLog()
      modifies this
      ensures stored == (if |old(messages)| > 0 then Some(old(messages)) else old(stored))
      ensures messages == old(messages) && isDone == old(isDone) && streamMessageIndex == old(streamMessageIndex)
      ensures includes == old(includes) && doScroll == old(doScroll)
    {
      if |messages| > 0 {
        stored := Some(messages);
      }
    }

    /** `editMessage` of the placeholder's message item: the streamed text so
        far replaces the content of the log entry itself (the item holds the
        same object as the log). */
    method ShowChunk(placeholderId: int, content: string)
      modifies this
      ensures messages == WithContent(old(messages), placeholderId, content)
      ensures stored == old(stored) && isDone == old(isDone) && streamMessageIndex == old(streamMessageIndex)
      ensures includes == old(includes) && doScroll == old(doScroll)
    {
      var index := FindIndex(messages, HasId(placeholderId));
      if index >= 0 {
        messages := messages[index := messages[index].(content := content)];
      }
    }

    /** The last chunk of a streamed answer: the final content replaces the
        placeholder in the log and in the stored copy, and the answer is
        recorded as complete. */
    method CompleteStream(placeholderId: int, answer: string)
      modifies this
      ensures messages == WithContent(old(messages), placeholderId, answer)
      ensures stored == Persisted(old(stored), placeholderId, answer)
      ensures isDone == old(isDone)[placeholderId := true]
      ensures streamMessageIndex == old(streamMessageIndex)
      ensures includes == old(includes) && doScroll == old(doScroll)
    {
      ShowChunk(placeholderId, answer);
      PersistContent(placeholderId, answer);
      isDone := isDone[placeholderId := true];
    }
  }

  /** A top-level send, the save that follows it and the end of the stream
      leave the answer in the log and in storage, in the placeholder's
      place, and the stored copy equals the log. */
  method SendAndAnswer(chat: Chat, content: string, tokens: Option<int>, docId: Option<string>,
                       now1: int, now2: int, answer: string)
    requires content != "" && now1 <= now2
    requires forall j :: 0 <= j < |chat.messages| ==> chat.messages[j].id != now2
    modifies chat
    ensures |chat.messages| == |old(chat.messages)| + 2
    ensures chat.messages[|old(chat.messages)| + 1].content == answer
    ensures chat.stored == Some(chat.messages)
    ensures chat.isDone == old(chat.isDone)[now2 := true]
  {
    var n := |chat.messages|;
    chat.Send(content, None, None, tokens, docId, now1, now2);
    SendAppendsPair(old(chat.messages), content, None, tokens, docId, now1, now2);
    chat.SaveLog();
    var sent := chat.messages;
    assert sent[n + 1].id == now2;
    WithContentById(sent, now2, answer, n + 1);
    chat.CompleteStream(now2, answer);
  }
}
