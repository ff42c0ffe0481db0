/** Thread grouping: the pass over the conversation log that splits it into
    reply groups and rewrites every message's `isChild` flag. */
module Threads {
  import opened ChatTypes
  import opened Seqs

  /** A message starts a reply box when it is not the first one, comes from
      the user and is not already flagged as a child. */
  predicate ShowsReplyBox(msgs: seq<Message>, i: nat)
    requires i < |msgs|
  {
    i > 0 && msgs[i].source == User && !msgs[i].isChild
  }

  /** The `isChild` flag message `i` ends with: the first message is a group
      head, and every later message is a child unless it shows a reply box. */
  function FinalIsChild(msgs: seq<Message>, i: nat): bool
    requires i < |msgs|
  {
    i > 0 && (msgs[i].source == Assistant || msgs[i].isChild)
  }

  /** The log after the pass has rewritten the flags. */
  function Flagged(msgs: seq<Message>): (f: seq<Message>)
    ensures |f| == |msgs|
  {
    seq(|msgs|, i requires 0 <= i < |msgs| => msgs[i].(isChild := FinalIsChild(msgs, i)))
  }

  /** Groups of the flagged messages `rest`, given the still open group `open`:
      a non-child message closes the open group and opens the next one, unless
      it is the very last message, which always joins the open group. */
  function GroupFrom(rest: seq<Message>, open: seq<Message>): seq<seq<Message>>
  {
    if |rest| == 0 then [open]
    else if |rest| > 1 && !rest[0].isChild then [open] + GroupFrom(rest[1..], [rest[0]])
    else GroupFrom(rest[1..], open + [rest[0]])
  }

  /** The reply groups of an already flagged log. */
  function Groups(f: seq<Message>): seq<seq<Message>>
  {
    if |f| == 0 then [] else GroupFrom(f[1..], [f[0]])
  }

  /** A message that shows a reply box (and is not the last one) closes the open group. */
  lemma GroupFromCloses(f: seq<Message>, head: nat, index: nat)
    requires head < index < |f| - 1 && !f[index].isChild
    ensures GroupFrom(f[index..], f[head..index])
         == [f[head..index]] + GroupFrom(f[index + 1..], [f[index]])
  {
    assert f[index..][0] == f[index] && f[index..][1..] == f[index + 1..];
  }

  /** A child message (that is not the last one) joins the open group. */
  lemma GroupFromExtends(f: seq<Message>, head: nat, index: nat)
    requires head < index < |f| - 1 && f[index].isChild
    ensures GroupFrom(f[index..], f[head..index]) == GroupFrom(f[index + 1..], f[head..index + 1])
  {
    assert f[index..][0] == f[index] && f[index..][1..] == f[index + 1..];
    assert f[head..index + 1] == f[head..index] + [f[index]];
  }

  /** The last message always joins the open group, which is then the last group. */
  lemma GroupFromLast(f: seq<Message>, head: nat)
    requires head < |f| - 1
    ensures GroupFrom(f[|f| - 1..], f[head..|f| - 1]) == [f[head..]]
  {
    var n := |f|;
    assert f[n - 1..][0] == f[n - 1] && f[n - 1..][1..] == [];
    assert f[head..n - 1] + [f[n - 1]] == f[head..];
  }

  /** The open group `msgs[head..index]` while the loop runs: flags already
      rewritten, except that the first message's flag is only reset when its
      group is emitted. */
  ghost function Pending(msgs: seq<Message>, head: nat, index: nat): seq<Message>
    requires head < index <= |msgs|
  {
    if head == 0 then [msgs[0]] + Flagged(msgs)[1..index] else Flagged(msgs)[head..index]
  }

  lemma PendingGrows(msgs: seq<Message>, head: nat, index: nat)
    requires head < index < |msgs|
    ensures Pending(msgs, head, index) + [Flagged(msgs)[index]] == Pending(msgs, head, index + 1)
  {
    var f := Flagged(msgs);
    assert f[head..index] + [f[index]] == f[head..index + 1];
    assert f[1..index] + [f[index]] == f[1..index + 1];
  }

  lemma PendingEmitted(msgs: seq<Message>, head: nat, index: nat)
    requires head < index <= |msgs|
    requires head > 0 ==> !Flagged(msgs)[head].isChild
    ensures var p := Pending(msgs, head, index);
      p[0 := p[0].(isChild := false)] == Flagged(msgs)[head..index]
  {
  }

  /** The state of the pass between two visits: the emitted groups, the log
      with its flags rewritten so far, the open group `replyMessages`, and
      `head`, where the open group's first message sits in the log. */
  datatype Scan = Scan(groups: seq<seq<Message>>, flagged: seq<Message>,
                       replyMessages: seq<Message>, head: nat)

  /** One call of the `forEach` callback, on message `index`: its flag is
      rewritten; the open group is emitted (its first message's flag reset
      first) when the message shows a reply box or is the last one, in which
      case the last message joins it before; a message that shows a reply box
      opens a new group. */
  function Visit(msgs: seq<Message>, index: nat, s: Scan): (t: Scan)
    requires index < |msgs| && |s.flagged| == index && s.head <= index
    ensures |t.flagged| == |s.flagged| + 1 && t.head <= |t.flagged|
  {
    var message := msgs[index].(isChild := (index > 0 && msgs[index].source == Assistant) || msgs[index].isChild);
    var showReplyBox := !message.isChild && index > 0;
    var last := index == |msgs| - 1;
    var flagged := s.flagged + [message];
    var open := if last then s.replyMessages + [message] else s.replyMessages;
    var reset := (showReplyBox || last) && |open| > 0;
    var open' := if reset then open[0 := open[0].(isChild := false)] else open;
    var flagged' := if reset then flagged[s.head := flagged[s.head].(isChild := false)] else flagged;
    var groups := if showReplyBox || last then s.groups + [open'] else s.groups;
    if showReplyBox then Scan(groups, flagged', [message], index)
    else Scan(groups, flagged', open' + [message], s.head)
  }

  /** The state after the callback has visited `msgs[..index]`. */
  ghost function ScanTo(msgs: seq<Message>, index: nat): (s: Scan)
    requires index <= |msgs|
    ensures |s.flagged| == index && s.head <= index
  {
    if index == 0 then Scan([], [], [], 0) else Visit(msgs, index - 1, ScanTo(msgs, index - 1))
  }

  /** What the pass has built after visiting `msgs[..index]`, in the terms of
      `Flagged` and `Groups`. */
  ghost predicate Scanned(msgs: seq<Message>, index: nat, s: Scan)
  {
    var f := Flagged(msgs);
    var n := |msgs|;
    && index <= n
    && |s.flagged| == index
    && (index == 0 ==> s.groups == [] && s.replyMessages == [] && s.head == 0)
    && (s.head > 0 ==> s.head < index && !f[s.head].isChild)
    && (0 < index < n ==> s.head < index && s.replyMessages == Pending(msgs, s.head, index))
    && (0 < index < n ==> s.groups + GroupFrom(f[index..], f[s.head..index]) == Groups(f))
    && (0 < index < n ==> s.flagged == (if s.head == 0 then Pending(msgs, 0, index) else f[..index]))
    && (index == n ==> s.flagged == f && s.groups == Groups(f))
  }

  /** The visit of the first message: it opens the first group, which it
      closes at once when it is the only message. */
  lemma {:induction false} VisitFirst(msgs: seq<Message>)
    requires |msgs| > 0
    ensures Scanned(msgs, 1, Visit(msgs, 0, Scan([], [], [], 0)))
  {
    var f := Flagged(msgs);
    assert msgs[0].(isChild := msgs[0].isChild) == msgs[0];
    if |msgs| == 1 {
      assert f[1..] == [] && f[0..] == [f[0]];
      assert [f[0]] == f;
    } else {
      assert Pending(msgs, 0, 1) == [msgs[0]];
      assert f[0..1] == [f[0]];
    }
  }

  /** The visit of a message that shows a reply box and is not the last one:
      the open group, its head flag reset, is emitted, and the message opens
      the next group. */
  lemma {:induction false} VisitCut(msgs: seq<Message>, index: nat, s: Scan)
    requires 0 < index < |msgs| - 1 && ShowsReplyBox(msgs, index)
    requires Scanned(msgs, index, s)
    ensures Scanned(msgs, index + 1, Visit(msgs, index, s))
  {
    var f := Flagged(msgs);
    var m := f[index];
    assert msgs[index].(isChild := false) == m;
    var fl := s.flagged + [m];
    var t := Scan(s.groups + [s.replyMessages[0 := s.replyMessages[0].(isChild := false)]],
                  fl[s.head := fl[s.head].(isChild := false)], [m], index);
    assert Visit(msgs, index, s) == t;
    CutScanned(msgs, index, s);
  }

  lemma {:induction false} CutScanned(msgs: seq<Message>, index: nat, s: Scan)
    requires 0 < index < |msgs| - 1 && ShowsReplyBox(msgs, index)
    requires Scanned(msgs, index, s)
    ensures |s.replyMessages| > 0 && s.head < index
    ensures var m := Flagged(msgs)[index];
      var fl := s.flagged + [m];
      Scanned(msgs, index + 1, Scan(s.groups + [s.replyMessages[0 := s.replyMessages[0].(isChild := false)]],
                                    fl[s.head := fl[s.head].(isChild := false)], [m], index))
  {
    CutGroup(msgs, index, s);
    CutFlags(msgs, index, s);
  }

  lemma {:induction false} CutGroup(msgs: seq<Message>, index: nat, s: Scan)
    requires 0 < index < |msgs| - 1 && ShowsReplyBox(msgs, index)
    requires Scanned(msgs, index, s)
    ensures |s.replyMessages| > 0
    ensures var f := Flagged(msgs);
      && s.replyMessages[0 := s.replyMessages[0].(isChild := false)] == f[s.head..index]
      && (s.groups + [f[s.head..index]]) + GroupFrom(f[index + 1..], f[index..index + 1]) == Groups(f)
  {
    var f := Flagged(msgs);
    PendingEmitted(msgs, s.head, index);
    GroupFromCloses(f, s.head, index);
    assert f[index..index + 1] == [f[index]];
  }

  lemma {:induction false} CutFlags(msgs: seq<Message>, index: nat, s: Scan)
    requires 0 < index < |msgs| - 1 && ShowsReplyBox(msgs, index)
    requires Scanned(msgs, index, s)
    ensures var fl := s.flagged + [Flagged(msgs)[index]];
      s.head < |fl| && fl[s.head := fl[s.head].(isChild := false)] == Flagged(msgs)[..index + 1]
  {
    var f := Flagged(msgs);
    var fl := s.flagged + [f[index]];
    if s.head == 0 {
      PendingGrows(msgs, 0, index);
      assert fl == Pending(msgs, 0, index + 1);
    } else {
      assert fl == f[..index] + [f[index]];
    }
  }

  /** The visit of a child message that is not the last one: it joins the open group. */
  lemma {:induction false} VisitChild(msgs: seq<Message>, index: nat, s: Scan)
    requires 0 < index < |msgs| - 1 && !ShowsReplyBox(msgs, index)
    requires Scanned(msgs, index, s)
    ensures Scanned(msgs, index + 1, Visit(msgs, index, s))
  {
    var f := Flagged(msgs);
    var m := f[index];
    assert msgs[index].(isChild := true) == m;
    assert Visit(msgs, index, s) == Scan(s.groups, s.flagged + [m], s.replyMessages + [m], s.head);
    ChildScanned(msgs, index, s);
  }

  lemma {:induction false} ChildScanned(msgs: seq<Message>, index: nat, s: Scan)
    requires 0 < index < |msgs| - 1 && !ShowsReplyBox(msgs, index)
    requires Scanned(msgs, index, s)
    ensures var m := Flagged(msgs)[index];
      Scanned(msgs, index + 1, Scan(s.groups, s.flagged + [m], s.replyMessages + [m], s.head))
  {
    var f := Flagged(msgs);
    PendingGrows(msgs, s.head, index);
    ChildGroup(msgs, index, s);
    if s.head > 0 {
      assert f[..index] + [f[index]] == f[..index + 1];
    }
  }

  lemma {:induction false} ChildGroup(msgs: seq<Message>, index: nat, s: Scan)
    requires 0 < index < |msgs| - 1 && !ShowsReplyBox(msgs, index)
    requires Scanned(msgs, index, s)
    ensures var f := Flagged(msgs);
      s.groups + GroupFrom(f[index + 1..], f[s.head..index + 1]) == Groups(f)
  {
    GroupFromExtends(Flagged(msgs), s.head, index);
  }

  /** The visit of the last message (when it is not also the first): it
      joins the open group, which is emitted as the last group. */
  lemma {:induction false} VisitLast(msgs: seq<Message>, s: Scan)
    requires |msgs| > 1
    requires Scanned(msgs, |msgs| - 1, s)
    ensures Scanned(msgs, |msgs|, Visit(msgs, |msgs| - 1, s))
  {
    var n := |msgs|;
    var m := Flagged(msgs)[n - 1];
    assert msgs[n - 1].(isChild := m.isChild) == m;
    LastScanned(msgs, s, Visit(msgs, n - 1, s));
  }

  lemma {:induction false} LastScanned(msgs: seq<Message>, s: Scan, t: Scan)
    requires |msgs| > 1
    requires Scanned(msgs, |msgs| - 1, s)
    requires var m := Flagged(msgs)[|msgs| - 1];
      var fl := s.flagged + [m];
      var r := s.replyMessages + [m];
      && |t.flagged| == |msgs|
      && t.groups == s.groups + [r[0 := r[0].(isChild := false)]]
      && s.head < |fl|
      && t.flagged == fl[s.head := fl[s.head].(isChild := false)]
    requires t.head == s.head || (t.head == |msgs| - 1 && ShowsReplyBox(msgs, |msgs| - 1))
    ensures Scanned(msgs, |msgs|, t)
  {
    LastGroup(msgs, s);
    LastFlags(msgs, s);
  }

  lemma {:induction false} LastGroup(msgs: seq<Message>, s: Scan)
    requires |msgs| > 1
    requires Scanned(msgs, |msgs| - 1, s)
    ensures var r := s.replyMessages + [Flagged(msgs)[|msgs| - 1]];
      s.groups + [r[0 := r[0].(isChild := false)]] == Groups(Flagged(msgs))
  {
    var f := Flagged(msgs);
    var n := |msgs|;
    var r := s.replyMessages + [f[n - 1]];
    PendingGrows(msgs, s.head, n - 1);
    PendingEmitted(msgs, s.head, n);
    assert r[0 := r[0].(isChild := false)] == f[s.head..];
    GroupFromLast(f, s.head);
  }

  lemma {:induction false} LastFlags(msgs: seq<Message>, s: Scan)
    requires |msgs| > 1
    requires Scanned(msgs, |msgs| - 1, s)
    ensures var fl := s.flagged + [Flagged(msgs)[|msgs| - 1]];
      s.head < |fl| && fl[s.head := fl[s.head].(isChild := false)] == Flagged(msgs)
  {
    var f := Flagged(msgs);
    var n := |msgs|;
    var fl := s.flagged + [f[n - 1]];
    if s.head == 0 {
      PendingGrows(msgs, 0, n - 1);
      assert fl == Pending(msgs, 0, n);
    } else {
      assert fl == f[..n - 1] + [f[n - 1]];
    }
  }

  /** Every state the pass goes through is described by `Scanned`. */
  lemma {:induction false} ScanToScanned(msgs: seq<Message>, index: nat)
    requires index <= |msgs|
    ensures Scanned(msgs, index, ScanTo(msgs, index))
  {
    if index == 1 {
      VisitFirst(msgs);
    } else if index > 1 {
      var i := index - 1;
      ScanToScanned(msgs, i);
      if i < |msgs| - 1 && ShowsReplyBox(msgs, i) {
        VisitCut(msgs, i, ScanTo(msgs, i));
      } else if i < |msgs| - 1 {
        VisitChild(msgs, i, ScanTo(msgs, i));
      } else {
        VisitLast(msgs, ScanTo(msgs, i));
      }
    }
  }

  /** The grouping memo: one pass over the log that rewrites the flags and
      collects the reply groups. */
  method GroupThreads(msgs: seq<Message>) returns (groups: seq<seq<Message>>, flagged: seq<Message>)
    ensures flagged == Flagged(msgs)
    ensures groups == Groups(flagged)
  {
    var n := |msgs|;
    groups, flagged := [], [];
    var replyMessages: seq<Message> := [];
    var head := 0;  // where replyMessages[0] sits in flagged
    for index := 0 to n
      invariant Scan(groups, flagged, replyMessages, head) == ScanTo(msgs, index)
    {
      var message := msgs[index];
      var isChild := (index > 0 && message.source == Assistant) || message.isChild;
      var showReplyBox := !isChild && index > 0;
      message := message.(isChild := isChild);
      flagged := flagged + [message];
      if index == n - 1 {
        replyMessages := replyMessages + [message];
      }
      if showReplyBox || index == n - 1 {
        if |replyMessages| > 0 {
          replyMessages := replyMessages[0 := replyMessages[0].(isChild := false)];
          flagged := flagged[head := flagged[head].(isChild := false)];
        }
        groups := groups + [replyMessages];
      }
      if showReplyBox {
        replyMessages := [];
        head := index;
      }
      replyMessages := replyMessages + [message];
    }
    ScanToScanned(msgs, n);
  }

  /** Grouping neither drops, duplicates nor reorders messages, and opens no empty group. */
  lemma {:induction false} GroupFromPartition(rest: seq<Message>, open: seq<Message>)
    requires |open| > 0
    ensures var g := GroupFrom(rest, open);
      Flatten(g) == open + rest && forall k :: 0 <= k < |g| ==> |g[k]| > 0
    decreases |rest|
  {
    var g := GroupFrom(rest, open);
    if |rest| == 0 {
      assert Flatten(g) == open + Flatten([]);
    } else if |rest| > 1 && !rest[0].isChild {
      var tail := GroupFrom(rest[1..], [rest[0]]);
      GroupFromPartition(rest[1..], [rest[0]]);
      assert g == [open] + tail && g[1..] == tail;
      assert [rest[0]] + rest[1..] == rest;
    } else {
      GroupFromPartition(rest[1..], open + [rest[0]]);
      assert open + [rest[0]] + rest[1..] == open + rest;
    }
  }

  /** Every group starts with a message that is not a child; inside a group
      every later message is a child, except the very last message of the
      log, which joins the open group whatever its flag. */
  lemma {:induction false} GroupFromShape(rest: seq<Message>, open: seq<Message>)
    requires |open| > 0 && !open[0].isChild
    requires forall j :: 1 <= j < |open| ==> open[j].isChild
    ensures var g := GroupFrom(rest, open);
      && (forall k :: 0 <= k < |g| ==> |g[k]| > 0 && !g[k][0].isChild)
      && (forall k, j :: 0 <= k < |g| && 1 <= j < |g[k]| && !(k == |g| - 1 && j == |g[k]| - 1)
            ==> g[k][j].isChild)
      && (|rest| > 0 ==> |g| > 0 && |g[|g| - 1]| > 1)
    decreases |rest|
  {
    var g := GroupFrom(rest, open);
    if |rest| == 0 {
    } else if |rest| > 1 && !rest[0].isChild {
      var tail := GroupFrom(rest[1..], [rest[0]]);
      GroupFromShape(rest[1..], [rest[0]]);
      assert g == [open] + tail;
      assert forall k :: 1 <= k < |g| ==> g[k] == tail[k - 1];
    } else if |rest| == 1 {
      assert g == [open + [rest[0]]];
    } else {
      GroupFromShape(rest[1..], open + [rest[0]]);
    }
  }

  /** What the reply groups of a log are: they partition the flagged log in
      order, each starts with a message that shows no parent (the first
      message or a user message that shows a reply box), every other member
      is a child except possibly the log's last message, and that last
      message never opens a group of its own. */
  lemma GroupsShape(msgs: seq<Message>)
    ensures var f := Flagged(msgs); var g := Groups(f);
      && Flatten(g) == f
      && (|g| == 0 <==> |msgs| == 0)
      && (forall k :: 0 <= k < |g| ==> |g[k]| > 0 && !g[k][0].isChild)
      && (forall k, j :: 0 <= k < |g| && 1 <= j < |g[k]| && !(k == |g| - 1 && j == |g[k]| - 1)
            ==> g[k][j].isChild)
      && (|msgs| > 1 ==> |g[|g| - 1]| > 1)
  {
    var f := Flagged(msgs);
    if |f| > 0 {
      GroupFromPartition(f[1..], [f[0]]);
      GroupFromShape(f[1..], [f[0]]);
      assert [f[0]] + f[1..] == f;
    }
  }

  /** What the pass does to the flags: every other field is kept, the first
      message is a group head, a later message is a child exactly when it
      does not show a reply box; and re-running the pass on a log it has
      already rewritten (the memo runs again on every render, over the same
      mutated messages) changes nothing. */
  lemma FlagsRewritten(msgs: seq<Message>)
    ensures var f := Flagged(msgs);
      && (forall i :: 0 <= i < |msgs| ==> f[i].(isChild := msgs[i].isChild) == msgs[i])
      && (|msgs| > 0 ==> !f[0].isChild)
      && (forall i :: 0 < i < |msgs| ==> (f[i].isChild <==> !ShowsReplyBox(msgs, i)))
      && Flagged(f) == f
  {
    var f := Flagged(msgs);
    assert forall i :: 0 <= i < |f| ==> Flagged(f)[i] == f[i];
  }

  /** When the second-to-last message ends as a group head, it and the last
      message form the last group. */
  lemma LastPairIsOwnGroup(msgs: seq<Message>)
    requires |msgs| >= 2 && !FinalIsChild(msgs, |msgs| - 2)
    ensures var g := Groups(Flagged(msgs)); |g| > 0 && g[|g| - 1] == Flagged(msgs)[|msgs| - 2..]
  {
    var f := Flagged(msgs);
    var g := Groups(f);
    GroupsShape(msgs);
    var k := |g| - 1;
    var last := g[k];
    FlattenLast(g);
    var j := |f| - |last|;
    var n := |msgs| - 2;
    assert f[j..] == last;
    assert |last| > 1 && !f[n].isChild;
    assert j == n;
  }
}
