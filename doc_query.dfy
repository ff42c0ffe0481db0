/** The request sent to the document indexer for a message that carries a
    document reference: which document, the query text, the API key, how
    many passages to return and which passages the reply already has. */
module DocQuery {
  import opened Wrappers
  import opened Seqs
  import opened Text
  import opened ChatTypes

  /** The score bounds the indexer is asked to apply. */
  const MaxScore: real := 0.6
  const IncludeAllIfKLessThanScore: real := 0.3

  datatype QueryParams = QueryParams(
    docId: string,
    query: string,
    apiKey: string,
    maxScore: real,
    k: nat,
    includeAllIfKLessThanScore: real,
    ignoreHashes: seq<string>)

  predicate SentByUser(m: Message)
  {
    m.source == User
  }

  predicate NonEmpty(s: string)
  {
    |s| > 0
  }

  /** The contents of the included messages the user wrote, in order. */
  function IncludedUserContents(includes: seq<Message>): (r: seq<string>)
    ensures |r| <= |includes|
    ensures var fromUser := Filter(includes, SentByUser);
      |r| == |fromUser| && forall i :: 0 <= i < |r| ==> r[i] == fromUser[i].content
  {
    var fromUser := Filter(includes, SentByUser);
    seq(|fromUser|, i requires 0 <= i < |fromUser| => fromUser[i].content)
  }

  /** A text is among the included user contents exactly when some included
      message the user wrote has it. */
  lemma IncludedUserContentsMembers(includes: seq<Message>, c: string)
    ensures c in IncludedUserContents(includes)
        <==> exists i :: 0 <= i < |includes| && includes[i].source == User && includes[i].content == c
  {
    var fromUser := Filter(includes, SentByUser);
    var r := IncludedUserContents(includes);
    if c in r {
      var k :| 0 <= k < |r| && r[k] == c;
      assert fromUser[k] in includes;
      var i :| 0 <= i < |includes| && includes[i] == fromUser[k];
      assert includes[i].source == User && includes[i].content == c;
    }
    if exists i :: 0 <= i < |includes| && includes[i].source == User && includes[i].content == c {
      var i :| 0 <= i < |includes| && includes[i].source == User && includes[i].content == c;
      FilterKeeps(includes, SentByUser, i);
      var k :| 0 <= k < |fromUser| && fromUser[k] == includes[i];
      assert r[k] == c;
    }
  }

  /** The test `findIndex` applies: the message carries this id. */
  function HasId(id: int): Message -> bool
  {
    (m: Message) => m.id == id
  }

  /** For a threaded reply, the content of the message just before the
      first message carrying the reply's id; `undefined` when the reply is
      top-level or nothing precedes that message. */
  function Preceding(msgs: seq<Message>, user: Message): (r: Option<string>)
    ensures r.Some? <==> user.isChild && FindIndex(msgs, HasId(user.id)) >= 1
    ensures r.Some? ==> exists i :: 1 <= i < |msgs| && msgs[i].id == user.id && r.value == msgs[i - 1].content
  {
    if !user.isChild then None
    else
      var at := FindIndex(msgs, HasId(user.id));
      if at >= 1 then Some(msgs[at - 1].content) else None
  }

  /** For a reply whose first occurrence in the log is at `at`, the preceding
      text is the content just before it, and there is none when the reply
      opens the log. */
  lemma PrecedingFirstMatch(msgs: seq<Message>, user: Message, at: nat)
    requires user.isChild
    requires at < |msgs| && msgs[at].id == user.id
    requires forall j :: 0 <= j < at ==> msgs[j].id != user.id
    ensures Preceding(msgs, user) == if at >= 1 then Some(msgs[at - 1].content) else None
  {
    assert FindIndex(msgs, HasId(user.id)) == at;
  }

  /** Neither a top-level message nor a reply missing from the log has a
      preceding text. */
  lemma PrecedingNone(msgs: seq<Message>, user: Message)
    requires !user.isChild || forall j :: 0 <= j < |msgs| ==> msgs[j].id != user.id
    ensures Preceding(msgs, user) == None
  {
    if user.isChild {
      assert forall j :: 0 <= j < |msgs| ==> !HasId(user.id)(msgs[j]);
    }
  }

  /** The pieces of the query before empty ones are dropped. */
  function Candidates(msgs: seq<Message>, includes: seq<Message>, user: Message): seq<string>
  {
    var previous := Preceding(msgs, user);
    IncludedUserContents(includes) + (if previous.Some? then [previous.value] else []) + [user.content]
  }

  /** The query's lines: the non-empty candidates, in order. */
  function QueryLines(msgs: seq<Message>, includes: seq<Message>, user: Message): (r: seq<string>)
    ensures forall i :: 0 <= i < |r| ==> |r[i]| > 0
  {
    Filter(Candidates(msgs, includes, user), NonEmpty)
  }

  /** The query's lines are the non-empty included user contents, then the
      preceding text when there is one and it is not empty, then the
      message's own content when it is not empty. */
  lemma {:induction false} QueryLinesPieces(msgs: seq<Message>, includes: seq<Message>, user: Message)
    ensures var previous := Preceding(msgs, user);
      QueryLines(msgs, includes, user) ==
        Filter(IncludedUserContents(includes), NonEmpty)
        + (if previous.Some? && previous.value != "" then [previous.value] else [])
        + (if user.content != "" then [user.content] else [])
  {
    var previous := Preceding(msgs, user);
    var included := IncludedUserContents(includes);
    var p := if previous.Some? then [previous.value] else [];
    FilterConcat(included + p, [user.content], NonEmpty);
    FilterConcat(included, p, NonEmpty);
    assert [user.content][1..] == [];
    if previous.Some? {
      assert p[1..] == [];
    }
  }

  /** The hashes of every document the included messages carry (the
      `ignoreHashes` of the request), in order. */
  function IgnoreHashes(includes: seq<Message>): seq<string>
  {
    Flatten(seq(|includes|, i requires 0 <= i < |includes| => includes[i].docHashes))
  }

  /** The query for `user`, whose document reference is set: the lines
      joined by newlines, the first key of the comma-separated API keys, one
      passage when messages are included and five otherwise. */
  function DocumentQuery(msgs: seq<Message>, includes: seq<Message>, user: Message, apiKeys: string): (r: QueryParams)
    requires HasDocRef(user)
    ensures r.docId == user.docId.value
    ensures r.k == 1 <==> |includes| > 0
    ensures r.k == 5 <==> |includes| == 0
    ensures r.maxScore == 0.6 && r.includeAllIfKLessThanScore == 0.3
  {
    QueryParams(
      user.docId.value,
      Join(QueryLines(msgs, includes, user), "\n"),
      Split(apiKeys, ',')[0],
      MaxScore,
      if |includes| > 0 then 1 else 5,
      IncludeAllIfKLessThanScore,
      IgnoreHashes(includes))
  }

  /** A hash is ignored exactly when one of the included messages carries it. */
  lemma IgnoredHashes(msgs: seq<Message>, includes: seq<Message>, user: Message, apiKeys: string, h: string)
    requires HasDocRef(user)
    ensures h in DocumentQuery(msgs, includes, user, apiKeys).ignoreHashes
        <==> exists i :: 0 <= i < |includes| && h in includes[i].docHashes
  {
    var ss := seq(|includes|, i requires 0 <= i < |includes| => includes[i].docHashes);
    assert forall k :: 0 <= k < |ss| ==> ss[k] == includes[k].docHashes;
    FlattenMembership(ss, h);
  }

  /** Every line of the query comes back when the query is split on
      newlines, as long as no piece holds a newline itself. */
  lemma QueryLinesRecoverable(msgs: seq<Message>, includes: seq<Message>, user: Message, apiKeys: string)
    requires HasDocRef(user)
    requires forall c :: c in Candidates(msgs, includes, user) ==> '\n' !in c
    requires |QueryLines(msgs, includes, user)| > 0
    ensures Split(DocumentQuery(msgs, includes, user, apiKeys).query, '\n') == QueryLines(msgs, includes, user)
  {
    var lines := QueryLines(msgs, includes, user);
    assert forall i :: 0 <= i < |lines| ==> '\n' !in lines[i];
    SplitJoin(lines, '\n');
  }

  /** A top-level message sent without included messages is its own query. */
  lemma TopLevelQuery(msgs: seq<Message>, user: Message, apiKeys: string)
    requires HasDocRef(user) && !user.isChild && user.content != ""
    ensures DocumentQuery(msgs, [], user, apiKeys).query == user.content
  {
    var c := Candidates(msgs, [], user);
    assert c == [user.content];
    assert c[1..] == [];
  }

  /** A threaded reply without included messages asks about the message
      before it, then itself. */
  lemma ThreadedQuery(msgs: seq<Message>, user: Message, apiKeys: string, at: nat)
    requires HasDocRef(user) && user.isChild && user.content != ""
    requires 1 <= at < |msgs| && msgs[at].id == user.id
    requires forall i :: 0 <= i < at ==> msgs[i].id != user.id
    requires msgs[at - 1].content != ""
    ensures DocumentQuery(msgs, [], user, apiKeys).query == msgs[at - 1].content + "\n" + user.content
  {
    var previous := msgs[at - 1].content;
    assert FindIndex(msgs, HasId(user.id)) == at;
    assert Preceding(msgs, user) == Some(previous);
    var c := Candidates(msgs, [], user);
    assert c == [previous, user.content];
    assert c[1..] == [user.content] && c[1..][1..] == [];
    var lines := QueryLines(msgs, [], user);
    assert lines == [previous] + Filter(c[1..], NonEmpty);
    assert Filter(c[1..], NonEmpty) == [user.content];
    assert lines[1..] == [user.content];
    assert Join(lines[1..], "\n") == user.content;
    assert Join(lines, "\n") == previous + "\n" + user.content;
  }

  /** With messages included, the query starts with what the user wrote in
      them (empty texts dropped), then the preceding text of a reply, then
      the message itself, one per line; a single passage is asked for. */
  lemma IncludedQuery(msgs: seq<Message>, includes: seq<Message>, user: Message, apiKeys: string, previous: string)
    requires HasDocRef(user) && |includes| > 0 && user.content != ""
    requires Preceding(msgs, user) == Some(previous) && previous != ""
    ensures var q := DocumentQuery(msgs, includes, user, apiKeys);
      && q.query == Join(Filter(IncludedUserContents(includes), NonEmpty) + [previous, user.content], "\n")
      && q.k == 1
  {
    var lines := QueryLines(msgs, includes, user);
    assert lines == Filter(IncludedUserContents(includes), NonEmpty) + [previous, user.content] by {
      QueryLinesPieces(msgs, includes, user);
      assert [previous] + [user.content] == [previous, user.content];
    }
  }

  /** One included user message and a top-level message: two lines. */
  lemma IncludedQueryExample(msgs: seq<Message>, included: Message, user: Message, apiKeys: string)
    requires HasDocRef(user) && !user.isChild && user.content != ""
    requires included.source == User && included.content != ""
    ensures DocumentQuery(msgs, [included], user, apiKeys).query == included.content + "\n" + user.content
  {
    var fromIncluded := IncludedUserContents([included]);
    assert fromIncluded == [included.content] by {
      assert [included][1..] == [];
      assert Filter([included], SentByUser) == [included];
    }
    var lines := QueryLines(msgs, [included], user);
    assert lines == [included.content, user.content] by {
      QueryLinesPieces(msgs, [included], user);
      assert fromIncluded[1..] == [];
      assert Filter(fromIncluded, NonEmpty) == [included.content];
    }
    assert lines[1..] == [user.content];
    assert Join(lines[1..], "\n") == user.content;
    assert Join(lines, "\n") == included.content + "\n" + user.content;
  }

  /** With several comma-separated keys, the first is used. */
  lemma FirstApiKey(msgs: seq<Message>, includes: seq<Message>, user: Message, keys: seq<string>)
    requires HasDocRef(user)
    requires |keys| >= 1 && forall i :: 0 <= i < |keys| ==> ',' !in keys[i]
    ensures DocumentQuery(msgs, includes, user, Join(keys, ",")).apiKey == keys[0]
  {
    SplitJoin(keys, ',');
  }
}
