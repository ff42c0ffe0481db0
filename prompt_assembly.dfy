/** The outbound prompt: the template with its `"your"` marker expanded, the
    placeholder turns dropped and user turns wrapped, system entries
    deduplicated, retrieved documents inserted, and the model chosen. */
module PromptAssembly {
  import opened Wrappers
  import opened Seqs
  import opened Text
  import opened ChatTypes

  /** A stored message as a `{role, content}` turn. */
  function AsTurn(m: Message): Turn
  {
    Turn(m.source, m.content)
  }

  function AsTurns(ms: seq<Message>): (r: seq<Turn>)
    ensures |r| == |ms|
    ensures forall i :: 0 <= i < |ms| ==> r[i] == AsTurn(ms[i])
  {
    seq(|ms|, i requires 0 <= i < |ms| => AsTurn(ms[i]))
  }

  /** What one `"your"` marker stands for: the included messages, then the
      checked messages, then the triggering user turn unless the stored
      triggering message is itself checked. */
  function MarkerTurns(includes: seq<Message>, checked: seq<Message>, user: Message): (r: seq<Turn>)
    ensures |r| == |includes| + |checked| + (if user.checked then 0 else 1)
    ensures r[..|includes|] == AsTurns(includes)
    ensures r[|includes|..|includes| + |checked|] == AsTurns(checked)
    ensures !user.checked ==> r[|r| - 1] == Turn(User, user.content)
  {
    AsTurns(includes) + AsTurns(checked) + (if user.checked then [] else [Turn(User, user.content)])
  }

  /** The turns one template entry contributes. */
  function Expand(e: TemplateEntry, marker: seq<Turn>): seq<Turn>
  {
    match e
    case Your => marker
    case Entry(role, prompt) => [Turn(role, prompt)]
  }

  /** The template with every marker expanded, entry after entry. */
  function Spliced(template: seq<TemplateEntry>, marker: seq<Turn>): seq<Turn>
  {
    if |template| == 0 then []
    else Spliced(template[..|template| - 1], marker) + Expand(template[|template| - 1], marker)
  }

  /** The `forEach` over the template that pushes onto `requestMessages`. */
  method AssembleRequest(template: seq<TemplateEntry>, marker: seq<Turn>) returns (requestMessages: seq<Turn>)
    ensures requestMessages == Spliced(template, marker)
  {
    requestMessages := [];
    for i := 0 to |template|
      invariant requestMessages == Spliced(template[..i], marker)
    {
      assert template[..i + 1][..i] == template[..i];
      match template[i]
      case Your =>
        for j := 0 to |marker|
          invariant requestMessages == Spliced(template[..i], marker) + marker[..j]
        {
          requestMessages := requestMessages + [marker[j]];
          assert marker[..j + 1] == marker[..j] + [marker[j]];
        }
      case Entry(role, prompt) =>
        requestMessages := requestMessages + [Turn(role, prompt)];
    }
    assert template[..|template|] == template;
  }

  lemma {:induction false} SplicedConcat(a: seq<TemplateEntry>, b: seq<TemplateEntry>, marker: seq<Turn>)
    ensures Spliced(a + b, marker) == Spliced(a, marker) + Spliced(b, marker)
    decreases |b|
  {
    if |b| == 0 {
      assert a + b == a;
    } else {
      var b', e := b[..|b| - 1], b[|b| - 1];
      var x, y, z := Spliced(a, marker), Spliced(b', marker), Expand(e, marker);
      assert Spliced(a + b, marker) == Spliced(a + b', marker) + z by {
        var ab := a + b;
        assert ab[..|ab| - 1] == a + b' && ab[|ab| - 1] == e;
      }
      SplicedConcat(a, b', marker);
      assert Spliced(b, marker) == y + z;
      assert (x + y) + z == x + (y + z);
    }
  }

  /** Appending one entry adds its expansion and, for a marker, one to the count. */
  lemma SplicedStep(init: seq<TemplateEntry>, last: TemplateEntry, marker: seq<Turn>)
    ensures |Spliced(init + [last], marker)| == |Spliced(init, marker)| + |Expand(last, marker)|
    ensures MarkerCount(init + [last]) == MarkerCount(init) + (if last.Your? then 1 else 0)
  {
    var t := init + [last];
    assert t[..|t| - 1] == init;
    FilterConcat(init, [last], IsMarker);
    assert [last][1..] == [];
  }

  /** The size of the request: every fixed entry gives one turn and every
      marker gives the whole expansion. */
  lemma {:induction false} SplicedLength(template: seq<TemplateEntry>, marker: seq<Turn>)
    ensures MarkerCount(template) <= |template|
    ensures |Spliced(template, marker)|
         == (|template| - MarkerCount(template)) + MarkerCount(template) * |marker|
    decreases |template|
  {
    if |template| > 0 {
      var init := template[..|template| - 1];
      var last := template[|template| - 1];
      assert init + [last] == template;
      SplicedLength(init, marker);
      SplicedStep(init, last, marker);
      assert |Expand(last, marker)| == if last.Your? then |marker| else 1;
      CountStep(|init|, MarkerCount(init), |marker|, last.Your?, |Spliced(init, marker)|);
    }
  }

  /** The arithmetic of one step of `SplicedLength`. */
  lemma CountStep(n: nat, c: nat, m: nat, isMarker: bool, before: nat)
    requires c <= n && before == (n - c) + c * m
    ensures var c' := c + (if isMarker then 1 else 0);
      && c' <= n + 1
      && before + (if isMarker then m else 1) == (n + 1 - c') + c' * m
  {
    if isMarker {
      assert (c + 1) * m == c * m + m;
    }
  }

  /** A template without markers: its entries as turns, in order. */
  predicate NoMarker(template: seq<TemplateEntry>)
  {
    forall i :: 0 <= i < |template| ==> template[i].Entry?
  }

  function FixedTurns(template: seq<TemplateEntry>): seq<Turn>
    requires NoMarker(template)
  {
    seq(|template|, i requires 0 <= i < |template| && NoMarker(template) =>
      Turn(template[i].role, template[i].prompt))
  }

  lemma {:induction false} SplicedFixed(template: seq<TemplateEntry>, marker: seq<Turn>)
    requires NoMarker(template)
    ensures Spliced(template, marker) == FixedTurns(template)
    decreases |template|
  {
    if |template| > 0 {
      var init := template[..|template| - 1];
      SplicedFixed(init, marker);
      assert FixedTurns(template) == FixedTurns(init) + [FixedTurns(template)[|template| - 1]];
    }
  }

  /** With one marker between fixed entries, the request is the entries
      before it in template order, the marker's turns (included messages,
      checked messages, the user turn), then the entries after it. */
  lemma SplicedAroundMarker(before: seq<TemplateEntry>, after: seq<TemplateEntry>,
                            includes: seq<Message>, checked: seq<Message>, user: Message)
    requires NoMarker(before) && NoMarker(after)
    ensures Spliced(before + [Your] + after, MarkerTurns(includes, checked, user))
         == FixedTurns(before) + MarkerTurns(includes, checked, user) + FixedTurns(after)
  {
    SplicedAround(before, after, MarkerTurns(includes, checked, user));
  }

  /** `SplicedAroundMarker` for any expansion of the marker. */
  lemma SplicedAround(before: seq<TemplateEntry>, after: seq<TemplateEntry>, m: seq<Turn>)
    requires NoMarker(before) && NoMarker(after)
    ensures Spliced(before + [Your] + after, m) == FixedTurns(before) + m + FixedTurns(after)
  {
    var head := before + [Your];
    assert Spliced(head, m) == FixedTurns(before) + m by {
      SplicedConcat(before, [Your], m);
      SplicedFixed(before, m);
      assert [Your][..0] == [];
    }
    assert Spliced(head + after, m) == Spliced(head, m) + FixedTurns(after) by {
      SplicedConcat(head, after, m);
      SplicedFixed(after, m);
    }
  }

  /** How user turns are rewritten before sending: the prompt's
      `wrapSingleLine`, `wrapCustomXmlTag` and `customXmlTag` settings (an
      absent tag is the empty string), and the two text utilities, which are
      not part of this model. */
  datatype Wrapping = Wrapping(
    wrapSingleLine: bool,
    wrapCustomXmlTag: bool,
    customXmlTag: string,
    wrapRaw: string -> string,
    htmlEncode: string -> string)

  /** `<tag>` + content + `</tag>`. */
  function Tagged(tag: string, content: string): string
  {
    "<" + tag + ">" + content + "</" + tag + ">"
  }

  function Rewrite(content: string, w: Wrapping): (r: string)
  {
    var c := if w.wrapSingleLine then w.wrapRaw(content) else content;
    if w.wrapCustomXmlTag && w.customXmlTag != "" then Tagged(w.customXmlTag, w.htmlEncode(c)) else c
  }

  /** The tag, when set, encloses the encoded (and possibly quoted) content. */
  lemma RewriteShape(content: string, w: Wrapping)
    ensures !w.wrapSingleLine && !w.wrapCustomXmlTag ==> Rewrite(content, w) == content
    ensures w.wrapCustomXmlTag && w.customXmlTag != "" ==>
      var t := w.customXmlTag;
      var r := Rewrite(content, w);
      && StartsWith(r, "<" + t + ">")
      && r[|r| - |t| - 3..] == "</" + t + ">"
  {
  }

  /** The turns the stream request keeps: every turn but an assistant placeholder. */
  predicate Kept(t: Turn)
  {
    !(t.role == Assistant && t.content == PlaceholderText)
  }

  predicate AllKept(turns: seq<Turn>)
  {
    forall i :: 0 <= i < |turns| ==> Kept(turns[i])
  }

  function Transform(t: Turn, userIsChild: bool, w: Wrapping): Turn
  {
    if t.role == User && !userIsChild then Turn(User, Rewrite(t.content, w)) else t
  }

  /** The `filter` then `map` chain over `requestMessages`. */
  function Outgoing(turns: seq<Turn>, userIsChild: bool, w: Wrapping): (r: seq<Turn>)
    ensures |r| <= |turns|
    ensures AllKept(r)
  {
    var kept := Filter(turns, Kept);
    seq(|kept|, i requires 0 <= i < |kept| => Transform(kept[i], userIsChild, w))
  }

  /** Only placeholders are dropped and only user turns of a top-level send
      are rewritten: every other turn goes through as it was, in order, and
      a threaded reply's turns are not rewritten at all. */
  lemma OutgoingKeepsOtherTurns(turns: seq<Turn>, userIsChild: bool, w: Wrapping)
    ensures var kept := Filter(turns, Kept); var r := Outgoing(turns, userIsChild, w);
      && |r| == |kept|
      && (forall i :: 0 <= i < |r| ==> r[i].role == kept[i].role)
      && (forall i :: 0 <= i < |r| && kept[i].role != User ==> r[i] == kept[i])
      && (forall i :: 0 <= i < |r| && kept[i].role == User && !userIsChild ==>
            r[i].content == Rewrite(kept[i].content, w))
      && (userIsChild ==> r == kept)
  {
  }

  /** Without placeholders and with both wrapping switches off, the filter
      and the rewrite leave the turns as they are. */
  lemma OutgoingUnchanged(turns: seq<Turn>, userIsChild: bool, w: Wrapping)
    requires AllKept(turns) && !w.wrapSingleLine && !w.wrapCustomXmlTag
    ensures Outgoing(turns, userIsChild, w) == turns
  {
    FilterKeptAll(turns);
    forall i | 0 <= i < |turns| ensures Transform(turns[i], userIsChild, w) == turns[i] {
      RewriteShape(turns[i].content, w);
    }
  }

  /** Turns without any placeholder all get through. */
  lemma {:induction false} FilterKeptAll(turns: seq<Turn>)
    requires AllKept(turns)
    ensures Filter(turns, Kept) == turns
    decreases |turns|
  {
    if |turns| > 0 {
      FilterKeptAll(turns[1..]);
      assert [turns[0]] + turns[1..] == turns;
    }
  }

  /** lodash `uniqBy` keyed on content for system turns and on a fresh
      `uniqueId` for every other turn: a system turn is dropped when an
      earlier system turn had the same content (`seen`). */
  function DedupFrom(turns: seq<Turn>, seen: set<string>): (r: seq<Turn>)
    ensures |r| <= |turns|
  {
    if |turns| == 0 then []
    else if turns[0].role == System && turns[0].content in seen then DedupFrom(turns[1..], seen)
    else [turns[0]] + DedupFrom(turns[1..], if turns[0].role == System then seen + {turns[0].content} else seen)
  }

  function Dedup(turns: seq<Turn>): seq<Turn>
  {
    DedupFrom(turns, {})
  }

  predicate IsSystemTurn(t: Turn)
  {
    t.role == System
  }

  /** Some system turn of `turns` has content `c`. */
  predicate SystemSaid(turns: seq<Turn>, c: string)
  {
    exists j :: 0 <= j < |turns| && turns[j].role == System && turns[j].content == c
  }

  /** The turn at `i` is a system turn whose content an earlier system turn
      already had. */
  predicate RepeatsEarlierSystem(turns: seq<Turn>, i: nat)
    requires i < |turns|
  {
    turns[i].role == System && SystemSaid(turns[..i], turns[i].content)
  }

  /** Reference for the deduplication, read from the end: each turn stays
      unless it repeats an earlier system turn. */
  function FirstOccurrences(turns: seq<Turn>): (r: seq<Turn>)
    ensures |r| <= |turns|
    decreases |turns|
  {
    if |turns| == 0 then []
    else
      var n := |turns| - 1;
      FirstOccurrences(turns[..n]) + (if RepeatsEarlierSystem(turns, n) then [] else [turns[n]])
  }

  lemma SystemSaidCons(x: Turn, rest: seq<Turn>, c: string)
    ensures SystemSaid([x] + rest, c) <==> (x.role == System && x.content == c) || SystemSaid(rest, c)
  {
    var a := [x] + rest;
    if SystemSaid(a, c) {
      var j :| 0 <= j < |a| && a[j].role == System && a[j].content == c;
      if j > 0 {
        assert rest[j - 1] == a[j];
      }
    }
    if SystemSaid(rest, c) {
      var j :| 0 <= j < |rest| && rest[j].role == System && rest[j].content == c;
      assert a[j + 1] == rest[j];
    }
    assert a[0] == x;
  }

  /** Appending a turn to the input appends it to the output exactly when it
      is not a system turn already seen or said before it. */
  lemma {:induction false} DedupFromSnoc(a: seq<Turn>, t: Turn, seen: set<string>)
    ensures DedupFrom(a + [t], seen) ==
      DedupFrom(a, seen) + (if t.role == System && (t.content in seen || SystemSaid(a, t.content)) then [] else [t])
    decreases |a|
  {
    if |a| == 0 {
      assert a + [t] == [t] && [t][1..] == [];
      assert !SystemSaid(a, t.content);
    } else {
      var x := a[0];
      var rest := a[1..];
      assert (a + [t])[0] == x && (a + [t])[1..] == rest + [t];
      assert [x] + rest == a;
      SystemSaidCons(x, rest, t.content);
      var seen' := if x.role == System then seen + {x.content} else seen;
      DedupFromSnoc(rest, t, seen);
      DedupFromSnoc(rest, t, seen');
    }
  }

  /** The deduplication keeps exactly the first occurrence of each system
      content and every other turn, in order. */
  lemma {:induction false} DedupKeepsFirstOccurrences(turns: seq<Turn>)
    ensures Dedup(turns) == FirstOccurrences(turns)
    decreases |turns|
  {
    if |turns| > 0 {
      var n := |turns| - 1;
      var init := turns[..n];
      assert init + [turns[n]] == turns;
      DedupFromSnoc(init, turns[n], {});
      DedupKeepsFirstOccurrences(init);
    }
  }

  /** No two system turns share their content. */
  predicate DistinctSystemTurns(turns: seq<Turn>)
  {
    forall i, j :: 0 <= i < j < |turns| && turns[i].role == System && turns[j].role == System
      ==> turns[i].content != turns[j].content
  }

  lemma {:induction false} DedupFromKeepsNonSystem(turns: seq<Turn>, seen: set<string>)
    ensures Filter(DedupFrom(turns, seen), Not(IsSystemTurn)) == Filter(turns, Not(IsSystemTurn))
    decreases |turns|
  {
    if |turns| > 0 {
      var t := turns[0];
      var seen' := if t.role == System then seen + {t.content} else seen;
      DedupFromKeepsNonSystem(turns[1..], seen);
      DedupFromKeepsNonSystem(turns[1..], seen');
      if !(t.role == System && t.content in seen) {
        FilterConcat([t], DedupFrom(turns[1..], seen'), Not(IsSystemTurn));
        FilterConcat([t], turns[1..], Not(IsSystemTurn));
        assert [t] + turns[1..] == turns;
      }
    }
  }

  lemma {:induction false} DedupFromSubsequence(turns: seq<Turn>, seen: set<string>)
    ensures Subsequence(DedupFrom(turns, seen), turns)
    decreases |turns|
  {
    if |turns| > 0 {
      var t := turns[0];
      var seen' := if t.role == System then seen + {t.content} else seen;
      DedupFromSubsequence(turns[1..], seen);
      DedupFromSubsequence(turns[1..], seen');
      var r := DedupFrom(turns, seen);
      if !(t.role == System && t.content in seen) {
        assert r[0] == t && r[1..] == DedupFrom(turns[1..], seen');
      }
    }
  }

  /** The system turns kept are new to `seen` and pairwise different. */
  lemma {:induction false} DedupFromDistinct(turns: seq<Turn>, seen: set<string>)
    ensures var r := DedupFrom(turns, seen);
      && DistinctSystemTurns(r)
      && (forall i :: 0 <= i < |r| && r[i].role == System ==> r[i].content !in seen)
    decreases |turns|
  {
    if |turns| > 0 {
      var t := turns[0];
      var seen' := if t.role == System then seen + {t.content} else seen;
      DedupFromDistinct(turns[1..], seen);
      DedupFromDistinct(turns[1..], seen');
      var r := DedupFrom(turns, seen);
      if !(t.role == System && t.content in seen) {
        var rest := DedupFrom(turns[1..], seen');
        assert r == [t] + rest;
        forall i | 0 < i < |r| ensures r[i] == rest[i - 1] {
        }
      }
    }
  }

  /** Every system turn whose content is new to `seen` is kept. */
  lemma {:induction false} DedupFromKeepsNewSystem(turns: seq<Turn>, seen: set<string>)
    ensures var r := DedupFrom(turns, seen);
      forall i :: 0 <= i < |turns| && turns[i].role == System && turns[i].content !in seen
        ==> turns[i] in r
    decreases |turns|
  {
    if |turns| > 0 {
      var t := turns[0];
      var seen' := if t.role == System then seen + {t.content} else seen;
      DedupFromKeepsNewSystem(turns[1..], seen);
      DedupFromKeepsNewSystem(turns[1..], seen');
      var r := DedupFrom(turns, seen);
      forall i | 0 <= i < |turns| && turns[i].role == System && turns[i].content !in seen
        ensures turns[i] in r
      {
        if i > 0 {
          assert turns[i] == turns[1..][i - 1];
          if t.role == System && turns[i].content == t.content {
            assert turns[i] == t;
          }
        }
      }
    }
  }

  /** `uniqBy` never drops a non-system turn, keeps every system content
      once and only once, and keeps the turns in their order. */
  lemma DedupKeepsOrderAndNonSystem(turns: seq<Turn>)
    ensures var r := Dedup(turns);
      && Filter(r, Not(IsSystemTurn)) == Filter(turns, Not(IsSystemTurn))
      && Subsequence(r, turns)
      && DistinctSystemTurns(r)
      && (forall i :: 0 <= i < |turns| && turns[i].role == System ==> turns[i] in r)
      && r == FirstOccurrences(turns)
  {
    DedupKeepsFirstOccurrences(turns);
    DedupFromKeepsNonSystem(turns, {});
    DedupFromSubsequence(turns, {});
    DedupFromDistinct(turns, {});
    DedupFromKeepsNewSystem(turns, {});
  }

  /** Two system turns with the same text collapse into one; two user turns
      with the same text both stay. */
  lemma DedupExamples(text: string)
    ensures Dedup([Turn(System, text), Turn(System, text)]) == [Turn(System, text)]
    ensures Dedup([Turn(User, text), Turn(User, text)]) == [Turn(User, text), Turn(User, text)]
  {
    var sys := Turn(System, text);
    assert [sys, sys][1..] == [sys] && [sys][1..] == [];
    assert DedupFrom([sys], {text}) == [];
    assert {} + {text} == {text};
    assert Dedup([sys, sys]) == [sys] + DedupFrom([sys], {text});
    var usr := Turn(User, text);
    assert [usr, usr][1..] == [usr] && [usr][1..] == [];
    assert DedupFrom([usr], {}) == [usr];
    assert Dedup([usr, usr]) == [usr] + DedupFrom([usr], {});
  }

  /** The acknowledgement that follows the inserted documents. */
  const Acknowledgement := "I have received the documents you provided. I understand that I will be penalized if my answers deviate from your documents. Please state your request, and I will provide the best answer based on my knowledge and the documents you provide."

  /** The documents as user turns, then one assistant acknowledgement. */
  function DocTurns(docs: seq<string>): (r: seq<Turn>)
    ensures |r| == |docs| + 1
    ensures forall k :: 0 <= k < |docs| ==> r[k] == Turn(User, docs[k])
    ensures r[|docs|] == Turn(Assistant, Acknowledgement)
  {
    seq(|docs|, k requires 0 <= k < |docs| => Turn(User, docs[k])) + [Turn(Assistant, Acknowledgement)]
  }

  /** `finalMessages.splice(insertToIndex + 1, 0, ...docMessages)` after the
      last system turn; without documents, or without a system turn, the
      list stays as it is. */
  function InsertDocuments(turns: seq<Turn>, docs: seq<string>): (r: seq<Turn>)
    ensures |docs| == 0 ==> r == turns
    ensures (forall i :: 0 <= i < |turns| ==> turns[i].role != System) ==> r == turns
  {
    if |docs| == 0 then turns
    else
      var at := FindLastIndex(turns, IsSystemTurn);
      if at == -1 then turns else turns[..at + 1] + DocTurns(docs) + turns[at + 1..]
  }

  /** With documents and a system turn, the documents and the acknowledgement
      come right after the last system turn, and nothing else moves. */
  lemma DocumentsFollowLastSystemTurn(turns: seq<Turn>, docs: seq<string>, at: nat)
    requires |docs| > 0
    requires at < |turns| && turns[at].role == System
    requires forall i :: at < i < |turns| ==> turns[i].role != System
    ensures var r := InsertDocuments(turns, docs);
      && |r| == |turns| + |docs| + 1
      && r[..at + 1] == turns[..at + 1]
      && (forall k :: 0 <= k < |docs| ==> r[at + 1 + k] == Turn(User, docs[k]))
      && r[at + 1 + |docs|] == Turn(Assistant, Acknowledgement)
      && r[at + |docs| + 2..] == turns[at + 1..]
  {
    var r := InsertDocuments(turns, docs);
    var d := DocTurns(docs);
    assert r == turns[..at + 1] + d + turns[at + 1..] by {
      assert FindLastIndex(turns, IsSystemTurn) == at;
    }
    ThreePieces(turns[..at + 1], d, turns[at + 1..]);
  }

  /** The pieces of a concatenation of three. */
  lemma ThreePieces<T>(p: seq<T>, d: seq<T>, q: seq<T>)
    ensures var r := p + d + q;
      && |r| == |p| + |d| + |q|
      && r[..|p|] == p
      && (forall k :: 0 <= k < |d| ==> r[|p| + k] == d[k])
      && r[|p| + |d|..] == q
  {
  }

  /** Every document the request carries: those of the included messages,
      then the triggering message's own. */
  function AllDocs(includes: seq<Message>, user: Message): (r: seq<string>)
    ensures |includes| == 0 ==> r == user.docs
    ensures |r| >= |user.docs| && r[|r| - |user.docs|..] == user.docs
  {
    Flatten(seq(|includes|, i requires 0 <= i < |includes| => includes[i].docs)) + user.docs
  }

  /** A document is sent exactly when the triggering message or one of the
      included messages carries it. */
  lemma AllDocsMembers(includes: seq<Message>, user: Message, d: string)
    ensures d in AllDocs(includes, user) <==> d in user.docs || exists i :: 0 <= i < |includes| && d in includes[i].docs
  {
    var ds := seq(|includes|, i requires 0 <= i < |includes| => includes[i].docs);
    assert forall k :: 0 <= k < |ds| ==> ds[k] == includes[k].docs;
    FlattenMembership(ds, d);
  }

  /** The included messages' documents come first, each message's block in
      the order the messages were included. */
  lemma AllDocsIncludedFirst(includes: seq<Message>, user: Message)
    requires |includes| > 0
    ensures var r := AllDocs(includes, user); var first := includes[0].docs;
      |r| >= |first| && r[..|first|] == first
  {
    var ds := seq(|includes|, i requires 0 <= i < |includes| => includes[i].docs);
    assert ds[0] == includes[0].docs;
  }

  /** The model of the request. A name that starts with `auto` is the
      sentinel `auto|model1|model2|threshold`: the counted prompt size picks
      `model2` when it exceeds the threshold and `model1` otherwise (also
      when the threshold is not a number); a missing part is `undefined`,
      here `None`. */
  function ChooseModel(model: string, countedTokens: int): (r: Option<string>)
    ensures !StartsWith(model, "auto") ==> r == Some(model)
  {
    if !StartsWith(model, "auto") then Some(model)
    else
      var parts := Split(model, '|');
      var model1 := if |parts| > 1 then Some(parts[1]) else None;
      var model2 := if |parts| > 2 then Some(parts[2]) else None;
      var threshold := if |parts| > 3 then ParseNumber(parts[3]) else None;
      if threshold.Some? && countedTokens > threshold.value then model2 else model1
  }

  /** Parsing a run of digits needs no trimming. */
  lemma DigitsAreNumber(digits: string)
    requires forall i :: 0 <= i < |digits| ==> IsDigit(digits[i])
    ensures ParseNumber(digits) == Some(DigitsValue(digits))
  {
    assert TrimStart(digits) == digits;
    assert TrimEnd(digits) == digits;
  }

  /** The sentinel `auto|model1|model2|threshold` (its four `parts`, none
      holding a `|`) routes on the counted size: above the threshold to the
      second model, otherwise to the first. */
  lemma AutoModelSelection(parts: seq<string>, countedTokens: int)
    requires |parts| == 4 && StartsWith(parts[0], "auto")
    requires forall i :: 0 <= i < |parts| ==> '|' !in parts[i]
    requires forall i :: 0 <= i < |parts[3]| ==> IsDigit(parts[3][i])
    ensures ChooseModel(Join(parts, "|"), countedTokens)
         == Some(if countedTokens > DigitsValue(parts[3]) then parts[2] else parts[1])
  {
    var s := Join(parts, "|");
    JoinStartsWith(parts, "|", "auto");
    SplitJoin(parts, '|');
    DigitsAreNumber(parts[3]);
  }

  /** A sentinel without a threshold always picks the first model, and one
      without any model names leaves the model undefined. */
  lemma AutoModelMissingParts(parts: seq<string>, countedTokens: int)
    requires |parts| == 3 && StartsWith(parts[0], "auto")
    requires forall i :: 0 <= i < |parts| ==> '|' !in parts[i]
    ensures ChooseModel(Join(parts, "|"), countedTokens) == Some(parts[1])
    ensures ChooseModel(parts[0], countedTokens) == None
  {
    JoinStartsWith(parts, "|", "auto");
    SplitJoin(parts, '|');
    SplitWithoutSeparator(parts[0], '|');
  }

  /** The whole outbound list: spliced template, filtered and rewritten,
      deduplicated, with the documents inserted. */
  function Outbound(template: seq<TemplateEntry>, includes: seq<Message>, checked: seq<Message>,
                    user: Message, w: Wrapping): (r: seq<Turn>)
    ensures AllKept(r)
  {
    var outgoing := Outgoing(Spliced(template, MarkerTurns(includes, checked, user)), user.isChild, w);
    var unique := Dedup(outgoing);
    DedupKeepsKept(outgoing, {});
    InsertKeepsKept(unique, AllDocs(includes, user));
    InsertDocuments(unique, AllDocs(includes, user))
  }

  /** Document insertion adds no placeholder. */
  lemma InsertKeepsKept(turns: seq<Turn>, docs: seq<string>)
    requires AllKept(turns)
    ensures AllKept(InsertDocuments(turns, docs))
  {
    var r := InsertDocuments(turns, docs);
    if |docs| > 0 {
      var at := FindLastIndex(turns, IsSystemTurn);
      if at != -1 {
        var d := DocTurns(docs);
        assert r == turns[..at + 1] + d + turns[at + 1..];
        forall i | 0 <= i < |r| ensures Kept(r[i]) {
          if i <= at {
            assert r[i] == turns[i];
          } else if i <= at + |docs| + 1 {
            assert r[i] == d[i - at - 1];
          } else {
            assert r[i] == turns[i - |docs| - 1];
          }
        }
      }
    }
  }

  /** Deduplication adds no placeholder. */
  lemma {:induction false} DedupKeepsKept(turns: seq<Turn>, seen: set<string>)
    requires AllKept(turns)
    ensures AllKept(DedupFrom(turns, seen))
    decreases |turns|
  {
    if |turns| > 0 {
      var t := turns[0];
      var seen' := if t.role == System then seen + {t.content} else seen;
      assert AllKept(turns[1..]) by {
        forall i | 0 <= i < |turns[1..]| ensures Kept(turns[1..][i]) {
          assert turns[1..][i] == turns[i + 1];
        }
      }
      DedupKeepsKept(turns[1..], seen);
      DedupKeepsKept(turns[1..], seen');
      var r := DedupFrom(turns, seen);
      if !(t.role == System && t.content in seen) {
        var rest := DedupFrom(turns[1..], seen');
        assert r == [t] + rest;
        forall i | 0 <= i < |r| ensures Kept(r[i]) {
          if i > 0 {
            assert r[i] == rest[i - 1];
          }
        }
      } else {
        assert r == DedupFrom(turns[1..], seen);
      }
    }
  }

  /** The splice step of the example below. */
  lemma BeConciseSplice(user: Message)
    requires user.content == "Hi" && !user.checked
    ensures Spliced([Entry(System, "Be concise"), Your], MarkerTurns([], [], user))
         == [Turn(System, "Be concise"), Turn(User, "Hi")]
  {
    var system := Entry(System, "Be concise");
    assert MarkerTurns([], [], user) == [Turn(User, "Hi")];
    SplicedAroundMarker([system], [], [], [], user);
    assert [system] + [Your] + [] == [system, Your];
    assert FixedTurns([system]) == [Turn(System, "Be concise")];
  }

  /** With the template `[{system, "Be concise"}, "your"]`, nothing included
      or checked and no wrapping, sending "Hi" yields exactly the system turn
      and the user turn. */
  lemma BeConciseExample(user: Message, w: Wrapping)
    requires user.content == "Hi" && !user.checked && user.docs == []
    requires !w.wrapSingleLine && !w.wrapCustomXmlTag
    ensures Outbound([Entry(System, "Be concise"), Your], [], [], user, w)
         == [Turn(System, "Be concise"), Turn(User, "Hi")]
  {
    var spliced := [Turn(System, "Be concise"), Turn(User, "Hi")];
    var sp := Spliced([Entry(System, "Be concise"), Your], MarkerTurns([], [], user));
    assert sp == spliced by {
      BeConciseSplice(user);
    }
    var out := Outgoing(sp, user.isChild, w);
    assert out == spliced by {
      OutgoingUnchanged(spliced, user.isChild, w);
    }
    var unique := Dedup(out);
    assert unique == spliced by {
      assert spliced[1..] == [Turn(User, "Hi")] && spliced[1..][1..] == [];
    }
    var docs := AllDocs([], user);
    assert docs == [];
    assert InsertDocuments(unique, docs) == spliced;
  }
}
