/** What the chain of normalisation steps guarantees together, whatever messages come in. */
module Chains {
  import opened Options
  import opened Messages
  import opened Normalize

  predicate Distinct(ms: seq<Message>)
  {
    forall i, j :: 0 <= i < |ms| && j == i + 1 < |ms| ==> ms[i].role != ms[j].role
  }

  /** No assistant message carries tool results. */
  predicate Plain(ms: seq<Message>) { forall i :: 0 <= i < |ms| && ms[i].role == Assistant ==> ms[i].toolResults == [] }

  /** User, assistant, user, ... */
  predicate Alternating(ms: seq<Message>)
  {
    forall i :: 0 <= i < |ms| ==> ms[i].role == if i % 2 == 0 then User else Assistant
  }

  predicate NoToolContent(ms: seq<Message>) { forall i :: 0 <= i < |ms| ==> !HasTools(ms[i]) }

  function Last(ms: seq<Message>): Message
    requires ms != []
  {
    ms[|ms| - 1]
  }

  // ----- merging -----

  /** What merging has achieved on a prefix. */
  predicate Merged(ms: seq<Message>, r: seq<Message>)
  {
    && Anchored(r) && Distinct(r) && Plain(r)
    && (ms == [] <==> r == [])
    && (ms != [] ==> Last(r).role == Last(ms).role && (IsCaller(Last(ms)) ==> IsCaller(Last(r))))
  }

  lemma AppendKeeps(ms: seq<Message>, r: seq<Message>, m: Message)
    requires Merged(ms, r) && Anchored(ms + [m]) && (r != [] ==> Last(r).role != m.role)
    ensures Merged(ms + [m], r + [m])
  {
    AnchoredSnoc(ms, m);
    AnchoredSnoc(r, m);
    if r != [] { assert (ms + [m])[|ms| - 1] == Last(ms); }
  }

  lemma UpdateKeeps(ms: seq<Message>, r: seq<Message>, m: Message)
    requires Merged(ms, r) && Anchored(ms + [m]) && r != [] && Last(r).role == m.role
    ensures Merged(ms + [m], r[|r| - 1 := MergeTwo(Last(r), m)])
    ensures m.role == User ==> m.toolResults == []
  {
    AnchoredSnoc(ms, m);
    var r' := r[|r| - 1 := MergeTwo(Last(r), m)];
    assert MergeTwo(Last(r), m).toolResults == Last(r).toolResults;
    forall i | 0 <= i < |r'| ensures AnchoredAt(r', i) {
      assert AnchoredAt(r, i);
    }
  }

  /** Merging an anchored list leaves neighbours of different roles, every tool result still behind its
      calls, and no tool results on an assistant. */
  lemma {:induction false} MergeKeeps(ms: seq<Message>)
    requires Anchored(ms)
    ensures Merged(ms, Merge(ms))
  {
    if ms != [] {
      var front, m := ms[..|ms| - 1], ms[|ms| - 1];
      assert ms == front + [m];
      AnchoredSnoc(front, m);
      MergeKeeps(front);
      var r := Merge(front);
      if r == [] || m.role != Last(r).role {
        AppendKeeps(front, r, m);
      } else {
        UpdateKeeps(front, r, m);
      }
    }
  }

  // ----- the first message, the roles, the alternation -----

  lemma UserFirstKeeps(ms: seq<Message>)
    requires Anchored(ms) && Distinct(ms) && Plain(ms) && ms != []
    ensures var r := UserFirst(ms); r != [] && r[0].role == User && Anchored(r) && Distinct(r) && Plain(r)
  {
    if ms[0].role != User {
      var r := [Filler(User)] + ms;
      forall i | 0 <= i < |r| ensures AnchoredAt(r, i) {
        if i > 0 { assert AnchoredAt(ms, i - 1); }
      }
    }
  }

  /** Only known roles, from user on, and never two assistants in a row. */
  predicate Known(ms: seq<Message>)
  {
    && ms != [] && ms[0].role == User
    && (forall i :: 0 <= i < |ms| ==> ms[i].role == User || ms[i].role == Assistant)
    && (forall i, j :: 0 <= i < |ms| && j == i + 1 < |ms| ==> ms[i].role == User || ms[j].role == User)
  }

  lemma KnownRolesKeeps(ms: seq<Message>)
    requires Anchored(ms) && Distinct(ms) && Plain(ms) && ms != [] && ms[0].role == User
    ensures var r := KnownRoles(ms); Known(r) && Anchored(r) && Plain(r)
  {
    var r := KnownRoles(ms);
    forall i | 0 <= i < |r| ensures AnchoredAt(r, i) {
      assert AnchoredAt(ms, i);
    }
  }

  lemma AlternatingSnoc(ms: seq<Message>, m: Message)
    requires Alternating(ms) && ms != [] && m.role == (if Last(ms).role == User then Assistant else User)
    ensures Alternating(ms + [m])
  {
  }

  predicate Good(ms: seq<Message>) { ms != [] && Alternating(ms) && Anchored(ms) && Plain(ms) }

  lemma GoodSnoc(ms: seq<Message>, m: Message)
    requires Good(ms) && m.role == (if Last(ms).role == User then Assistant else User)
    requires (m.toolResults == [] || EndsWithCaller(ms)) && (m.role == Assistant ==> m.toolResults == [])
    ensures Good(ms + [m])
  {
    AlternatingSnoc(ms, m);
    AnchoredSnoc(ms, m);
  }

  lemma {:induction false} AlternateKeeps(ms: seq<Message>)
    requires Known(ms) && Anchored(ms) && Plain(ms)
    ensures var r := Alternate(ms); Good(r) && Last(r) == Last(ms)
  {
    var front, m := ms[..|ms| - 1], ms[|ms| - 1];
    assert ms == front + [m];
    AnchoredSnoc(front, m);
    if front == [] {
      assert Alternate(front) == [];
      assert Alternate(ms) == [m];
    } else {
      AlternateKeeps(front);
      var r := Alternate(front);
      assert Last(front) == ms[|ms| - 2];
      if m.role == User && Last(r).role == User {
        GoodSnoc(r, Filler(Assistant));
        GoodSnoc(r + [Filler(Assistant)], m);
      } else {
        GoodSnoc(r, m);
        assert r + [] == r;
      }
    }
  }

  // ----- the chain -----

  lemma StripAnchored(ms: seq<Message>)
    ensures Anchored(Strip(ms)) && NoToolContent(Strip(ms))
  {
    assert forall i :: 0 <= i < |ms| ==> AnchoredAt(Strip(ms), i);
  }

  /** For any messages at all the chain ends in user/assistant alternation from user on, with every tool
      result directly behind an assistant message with tool calls. */
  lemma ChainIsGood(hasTools: bool, ms: seq<Message>)
    requires ms != []
    ensures Good(Chain(hasTools, ms))
  {
    var a := if hasTools then Anchor(ms) else Strip(ms);
    AnchorIs(ms);
    StripAnchored(ms);
    MergeKeeps(a);
    UserFirstKeeps(Merge(a));
    KnownRolesKeeps(UserFirst(Merge(a)));
    AlternateKeeps(KnownRoles(UserFirst(Merge(a))));
  }

  // ----- no tools, no tool content -----

  lemma {:induction false} MergeNoTools(ms: seq<Message>)
    requires NoToolContent(ms)
    ensures NoToolContent(Merge(ms))
  {
    if ms != [] { MergeNoTools(ms[..|ms| - 1]); }
  }

  lemma {:induction false} AlternateNoTools(ms: seq<Message>)
    requires NoToolContent(ms)
    ensures NoToolContent(Alternate(ms))
  {
    if ms != [] { AlternateNoTools(ms[..|ms| - 1]); }
  }

  /** Without tools no tool content survives the chain. */
  lemma ChainWithoutTools(ms: seq<Message>)
    ensures NoToolContent(Chain(false, ms))
  {
    StripAnchored(ms);
    MergeNoTools(Strip(ms));
    AlternateNoTools(KnownRoles(UserFirst(Merge(Strip(ms)))));
  }

  // ----- with tools, nothing anchored is lost -----

  /** The tool calls of the assistant messages, in order. */
  function CallsOf(ms: seq<Message>): seq<CallIn>
  {
    if ms == [] then [] else CallsOf(ms[..|ms| - 1]) + OwnCalls(Last(ms))
  }

  function OwnCalls(m: Message): seq<CallIn> { if m.role == Assistant then m.toolCalls else [] }

  /** The tool results of all messages, in order. */
  function ResultsOf(ms: seq<Message>): seq<ResultIn>
  {
    if ms == [] then [] else ResultsOf(ms[..|ms| - 1]) + Last(ms).toolResults
  }

  /** Those on messages that are not an assistant's. */
  function Forwarded(ms: seq<Message>): seq<ResultIn>
  {
    if ms == [] then [] else Forwarded(ms[..|ms| - 1]) + OwnResults(Last(ms))
  }

  function OwnResults(m: Message): seq<ResultIn> { if m.role == Assistant then [] else m.toolResults }

  lemma PlainSnoc(ms: seq<Message>, m: Message)
    ensures Plain(ms + [m]) <==> Plain(ms) && (m.role == Assistant ==> m.toolResults == [])
  {
    var all := ms + [m];
    assert all[|ms|] == m && forall i :: 0 <= i < |ms| ==> all[i] == ms[i];
  }

  /** All results are forwarded if and only if no assistant carries any. */
  lemma {:induction false} ForwardedIff(ms: seq<Message>)
    ensures Forwarded(ms) == ResultsOf(ms) <==> Plain(ms)
    ensures |Forwarded(ms)| == |ResultsOf(ms)| <==> Plain(ms)
    ensures |Forwarded(ms)| <= |ResultsOf(ms)|
  {
    if ms != [] {
      var front, m := ms[..|ms| - 1], Last(ms);
      ForwardedIff(front);
      PlainSnoc(front, m);
      assert ms == front + [m];
    }
  }

  /** Everything said, each message on new lines. */
  function Transcript(ms: seq<Message>): string
  {
    if ms == [] then "" else Transcript(ms[..|ms| - 1]) + ("\n" + Last(ms).content)
  }

  /** The three observations together. */
  datatype Kept = Kept(calls: seq<CallIn>, results: seq<ResultIn>, transcript: string)

  function Observe(ms: seq<Message>): Kept { Kept(CallsOf(ms), Forwarded(ms), Transcript(ms)) }

  function ObserveNext(k: Kept, m: Message): Kept
  {
    Kept(k.calls + OwnCalls(m), k.results + OwnResults(m), k.transcript + ("\n" + m.content))
  }

  lemma ObserveSnoc(ms: seq<Message>, m: Message)
    ensures Observe(ms + [m]) == ObserveNext(Observe(ms), m)
  {
    assert (ms + [m])[..|ms|] == ms;
  }

  lemma Regroup<T>(a: seq<T>, b: seq<T>, c: seq<T>)
    ensures (a + b) + c == a + (b + c) && a + [] == a
  {
  }

  /** Merging two messages shows what the two show in a row. */
  lemma MergeTwoShows(k: Kept, last: Message, m: Message)
    requires last.role == m.role && (m.toolResults == [] || m.role == Assistant)
    ensures ObserveNext(k, MergeTwo(last, m)) == ObserveNext(ObserveNext(k, last), m)
  {
    Regroup(k.calls, OwnCalls(last), OwnCalls(m));
    Regroup(k.results, OwnResults(last), OwnResults(m));
    Regroup(last.toolResults, [], []);
    Regroup(k.transcript, "\n" + last.content, "\n" + m.content);
    assert ("\n" + last.content) + ("\n" + m.content) == "\n" + (last.content + "\n" + m.content);
  }

  /** Merging an anchored list keeps every assistant's tool calls, every other message's tool results
      and every line of text, in order. */
  lemma {:induction false} MergeObserves(ms: seq<Message>)
    requires Anchored(ms)
    ensures Observe(Merge(ms)) == Observe(ms)
  {
    if ms != [] {
      var front, m := ms[..|ms| - 1], ms[|ms| - 1];
      assert ms == front + [m];
      AnchoredSnoc(front, m);
      MergeObserves(front);
      MergeKeeps(front);
      var r := Merge(front);
      ObserveSnoc(front, m);
      ObserveSnoc(r, m);
      if r != [] && m.role == Last(r).role {
        var rest := r[..|r| - 1];
        assert r == rest + [Last(r)] && r[|r| - 1 := MergeTwo(Last(r), m)] == rest + [MergeTwo(Last(r), m)];
        ObserveSnoc(rest, Last(r));
        ObserveSnoc(rest, MergeTwo(Last(r), m));
        if m.role != Assistant { NotAnchoredHere(front, m); }
        MergeTwoShows(Observe(rest), Last(r), m);
      }
    }
  }

  /** A message of the same role as the one before, not an assistant, has no tool results. */
  lemma NotAnchoredHere(front: seq<Message>, m: Message)
    requires Anchored(front + [m]) && front != [] && Last(front).role == m.role != Assistant
    ensures m.toolResults == []
  {
    AnchoredSnoc(front, m);
  }

  /** Merging an anchored list loses no call and no text, and no result exactly when no assistant carries
      any: such a message is merged into the assistant it follows. */
  lemma MergeLosesIff(ms: seq<Message>)
    requires Anchored(ms)
    ensures CallsOf(Merge(ms)) == CallsOf(ms) && Transcript(Merge(ms)) == Transcript(ms)
    ensures ResultsOf(Merge(ms)) == ResultsOf(ms) <==> Plain(ms)
  {
    MergeObserves(ms);
    MergeKeeps(ms);
    ForwardedIff(Merge(ms));
    ForwardedIff(ms);
  }

  /** Tool calls and forwarded tool results only. */
  function Tools(ms: seq<Message>): (seq<CallIn>, seq<ResultIn>) { (CallsOf(ms), Forwarded(ms)) }

  lemma ToolsSnoc(ms: seq<Message>, m: Message)
    ensures Tools(ms + [m]) == (CallsOf(ms) + OwnCalls(m), Forwarded(ms) + OwnResults(m))
  {
    assert (ms + [m])[..|ms|] == ms;
  }

  lemma {:induction false} UserFirstTools(ms: seq<Message>)
    ensures Tools([Filler(User)] + ms) == Tools(ms)
  {
    if ms == [] {
      assert [Filler(User)] + ms == [Filler(User)] && [Filler(User)][..0] == [];
    } else {
      var front, m := ms[..|ms| - 1], Last(ms);
      UserFirstTools(front);
      assert [Filler(User)] + ms == ([Filler(User)] + front) + [m] && ms == front + [m];
      ToolsSnoc([Filler(User)] + front, m);
      ToolsSnoc(front, m);
    }
  }

  lemma {:induction false} KnownRolesTools(ms: seq<Message>)
    ensures Tools(KnownRoles(ms)) == Tools(ms)
  {
    if ms != [] {
      var front, m := ms[..|ms| - 1], Last(ms);
      KnownRolesTools(front);
      ToolsSnoc(KnownRoles(front), KnownRole(m));
    }
  }

  lemma {:induction false} AlternateTools(ms: seq<Message>)
    ensures Tools(Alternate(ms)) == Tools(ms)
  {
    if ms != [] {
      var front, m := ms[..|ms| - 1], Last(ms);
      AlternateTools(front);
      var r := Alternate(front);
      ToolsSnoc(r, Filler(Assistant));
      ToolsSnoc(r + [Filler(Assistant)], m);
      ToolsSnoc(r, m);
      Regroup(CallsOf(r), [], []);
      Regroup(Forwarded(r), [], []);
      Regroup(r, [], []);
    }
  }

  lemma ChainTools(ms: seq<Message>)
    ensures Tools(Chain(true, ms)) == Tools(Anchor(ms))
  {
    AnchorIs(ms);
    MergeObserves(Anchor(ms));
    UserFirstTools(Merge(Anchor(ms)));
    KnownRolesTools(UserFirst(Merge(Anchor(ms))));
    AlternateTools(KnownRoles(UserFirst(Merge(Anchor(ms)))));
  }

  // ----- in terms of the messages that come in -----

  /** The tool results directly behind an assistant message with tool calls, in order. */
  function AnchoredResults(ms: seq<Message>): seq<ResultIn>
  {
    if ms == [] then []
    else
      var front := ms[..|ms| - 1];
      AnchoredResults(front) + if EndsWithCaller(front) then Last(ms).toolResults else []
  }

  /** An assistant message directly behind a caller carries tool results. */
  predicate TrappedAt(ms: seq<Message>, i: nat)
    requires i < |ms|
  {
    i > 0 && IsCaller(ms[i - 1]) && ms[i].role == Assistant && ms[i].toolResults != []
  }

  predicate Trapped(ms: seq<Message>) { exists i :: 0 <= i < |ms| && TrappedAt(ms, i) }

  lemma TrappedSnoc(ms: seq<Message>, m: Message)
    ensures Trapped(ms + [m]) <==>
      Trapped(ms) || (EndsWithCaller(ms) && m.role == Assistant && m.toolResults != [])
  {
    var all := ms + [m];
    assert forall i :: 0 <= i < |ms| ==> TrappedAt(all, i) == TrappedAt(ms, i);
    assert TrappedAt(all, |ms|) == (EndsWithCaller(ms) && m.role == Assistant && m.toolResults != []);
    if Trapped(ms) {
      var i :| 0 <= i < |ms| && TrappedAt(ms, i);
      assert TrappedAt(all, i);
    }
  }

  lemma AnchorSnoc(front: seq<Message>, m: Message)
    ensures Anchor(front + [m]) == Anchor(front) + [AnchorOne(Anchor(front), m)]
  {
    assert (front + [m])[..|front|] == front;
  }

  lemma ListsSnoc(front: seq<Message>, m: Message)
    ensures CallsOf(front + [m]) == CallsOf(front) + OwnCalls(m)
    ensures ResultsOf(front + [m]) == ResultsOf(front) + m.toolResults
    ensures AnchoredResults(front + [m]) ==
      AnchoredResults(front) + if EndsWithCaller(front) then m.toolResults else []
  {
    assert (front + [m])[..|front|] == front;
  }

  lemma {:induction false} AnchorTools(ms: seq<Message>)
    ensures CallsOf(Anchor(ms)) == CallsOf(ms) && ResultsOf(Anchor(ms)) == AnchoredResults(ms)
    ensures Plain(Anchor(ms)) <==> !Trapped(ms)
    decreases |ms|
  {
    if ms != [] {
      var front, m := ms[..|ms| - 1], Last(ms);
      assert ms == front + [m];
      AnchorTools(front);
      AnchorKeepsCallers(front);
      AnchorSnoc(front, m);
      ListsSnoc(front, m);
      ListsSnoc(Anchor(front), AnchorOne(Anchor(front), m));
      PlainSnoc(Anchor(front), AnchorOne(Anchor(front), m));
      TrappedSnoc(front, m);
    }
  }

  /** With tools the chain keeps all tool calls of assistants, and, in order, all tool results that have
      calls before them, if and only if none of these is on an assistant message; the other results have
      become text. */
  lemma ChainKeepsTools(ms: seq<Message>)
    ensures CallsOf(Chain(true, ms)) == CallsOf(ms)
    ensures ResultsOf(Chain(true, ms)) == AnchoredResults(ms) <==> !Trapped(ms)
  {
    if ms == [] {
      assert Chain(true, ms) == [];
      assert !Trapped(ms);
    } else {
      ChainTools(ms);
      AnchorTools(ms);
      ChainIsGood(true, ms);
      ForwardedIff(Chain(true, ms));
      ForwardedIff(Anchor(ms));
    }
  }

  /** Only user messages carry tool results, as the converters build them. */
  predicate ResultsOnUsers(ms: seq<Message>)
  {
    forall i :: 0 <= i < |ms| && ms[i].toolResults != [] ==> ms[i].role == User
  }

  lemma ConvertedKeepsTools(ms: seq<Message>)
    requires ResultsOnUsers(ms)
    ensures CallsOf(Chain(true, ms)) == CallsOf(ms) && ResultsOf(Chain(true, ms)) == AnchoredResults(ms)
  {
    ChainKeepsTools(ms);
  }

  /** Two assistant messages, the second answering the first: the answer is anchored, and merging drops
      it. */
  lemma TrappedResultIsLost(call: CallIn, result: ResultIn)
    ensures var ms := [Message(Assistant, "", [call], [], None), Message(Assistant, "", [], [result], None)];
      && Anchored(ms) && Anchor(ms) == ms && AnchoredResults(ms) == [result]
      && ResultsOf(Merge(ms)) == [] && ResultsOf(Chain(true, ms)) != AnchoredResults(ms)
  {
    var a, b := Message(Assistant, "", [call], [], None), Message(Assistant, "", [], [result], None);
    var ms := [a, b];
    assert TrappedAt(ms, 1) && AnchoredAt(ms, 0) && AnchoredAt(ms, 1);
    AnchorIs(ms);
    ChainKeepsTools(ms);
    OneThenAnother(a, b);
    Regroup([result], [], []);
  }

  lemma OneThenAnother(a: Message, b: Message)
    requires a.role == b.role == Assistant && a.toolResults == [] && a.toolCalls != []
    ensures AnchoredResults([a, b]) == b.toolResults
    ensures Merge([a, b]) == [MergeTwo(a, b)] && ResultsOf(Merge([a, b])) == []
  {
    assert [a, b][..1] == [a] && [a][..0] == [] && [MergeTwo(a, b)][..0] == [];
    assert Merge([a]) == [a] && AnchoredResults([a]) == [];
  }

  // ----- what merging makes of a run -----

  /** A run of messages of one role. */
  predicate IsRun(run: seq<Message>)
  {
    run != [] && forall i :: 0 <= i < |run| ==> run[i].role == run[0].role
  }

  function Contents(run: seq<Message>): (r: seq<string>)
    ensures |r| == |run| && forall i :: 0 <= i < |r| ==> r[i] == run[i].content
  {
    seq(|run|, i requires 0 <= i < |run| => run[i].content)
  }

  function CallsIn(run: seq<Message>): seq<CallIn>
  {
    if run == [] then [] else CallsIn(run[..|run| - 1]) + Last(run).toolCalls
  }

  function ResultsIn(run: seq<Message>): seq<ResultIn>
  {
    if run == [] then [] else ResultsIn(run[..|run| - 1]) + Last(run).toolResults
  }

  /** `r` is the first reasoning in the run, if there is one. */
  predicate FirstReasoning(run: seq<Message>, r: Option<string>)
  {
    if r.None? then forall i :: 0 <= i < |run| ==> run[i].reasoning.None?
    else exists i :: 0 <= i < |run| && run[i].reasoning == r && forall j :: 0 <= j < i ==> run[j].reasoning.None?
  }

  /** `m` is what the run becomes: contents on lines of their own; an assistant's calls and first reasoning, a
      user's results, all in order; the rest from the first message. */
  predicate IsJoined(run: seq<Message>, m: Message)
    requires run != []
  {
    && m.role == run[0].role && m.content == Join(Contents(run), "\n")
    && m.toolCalls == (if m.role == Assistant then CallsIn(run) else run[0].toolCalls)
    && m.toolResults == (if m.role == User then ResultsIn(run) else run[0].toolResults)
    && (if m.role == Assistant then FirstReasoning(run, m.reasoning) else m.reasoning == run[0].reasoning)
  }

  lemma ReasoningSnoc(front: seq<Message>, r: Option<string>, m: Message)
    requires FirstReasoning(front, r)
    ensures FirstReasoning(front + [m], if r.None? then m.reasoning else r)
  {
    var run := front + [m];
    assert run[|front|] == m && forall j :: 0 <= j < |front| ==> run[j] == front[j];
    if r.Some? {
      var i :| 0 <= i < |front| && front[i].reasoning == r && forall j :: 0 <= j < i ==> front[j].reasoning.None?;
      assert run[i].reasoning == r;
    }
  }

  lemma JoinedOne(m: Message)
    ensures IsJoined([m], m)
  {
    var none: seq<Message> := [];
    assert [m][..0] == none && CallsIn(none) == [] && ResultsIn(none) == [];
    assert Contents([m]) == [m.content];
    assert FirstReasoning([m], m.reasoning) by { assert [m][0].reasoning == m.reasoning; }
  }

  lemma JoinedMore(front: seq<Message>, last: Message, m: Message)
    requires front != [] && IsJoined(front, last) && m.role == last.role
    ensures IsJoined(front + [m], MergeTwo(last, m))
  {
    var run := front + [m];
    assert run[..|run| - 1] == front && Last(run) == m && run[0] == front[0];
    assert Contents(run) == Contents(front) + [m.content];
    assert Contents(run)[..|front|] == Contents(front);
    Regroup(Join(Contents(front), "\n"), "\n", m.content);
    if m.role == Assistant { ReasoningSnoc(front, last.reasoning, m); }
  }

  /** `r` is `merged` and one message more, which the run has become. */
  predicate Appended(merged: seq<Message>, run: seq<Message>, r: seq<Message>)
    requires run != []
  {
    |r| == |merged| + 1 && r[..|merged|] == merged && IsJoined(run, Last(r))
  }

  lemma AppendedMore(merged: seq<Message>, front: seq<Message>, r: seq<Message>, m: Message)
    requires front != [] && Appended(merged, front, r) && m.role == front[0].role
    ensures Appended(merged, front + [m], MergeInto(r, m))
  {
    JoinedMore(front, Last(r), m);
  }

  lemma MergeSnoc(ms: seq<Message>, m: Message)
    ensures Merge(ms + [m]) == MergeInto(Merge(ms), m)
  {
    assert (ms + [m])[..|ms|] == ms;
  }

  lemma AppendedOne(before: seq<Message>, m: Message)
    requires before != [] ==> Last(before).role != m.role
    ensures Appended(Merge(before), [m], Merge(before + [m]))
  {
    MergedLast(before);
    MergeSnoc(before, m);
    JoinedOne(m);
  }

  /** A run that stands behind a message of another role becomes one message of its own. */
  lemma {:induction false} RunIsMerged(before: seq<Message>, run: seq<Message>)
    requires IsRun(run) && (before != [] ==> Last(before).role != run[0].role)
    ensures Appended(Merge(before), run, Merge(before + run))
    decreases |run|
  {
    var front, m := run[..|run| - 1], Last(run);
    assert run == front + [m];
    if front == [] {
      assert run == [m];
      AppendedOne(before, m);
    } else {
      RunIsMerged(before, front);
      AppendedMore(Merge(before), front, Merge(before + front), m);
      MergeSnoc(before + front, m);
      Regroup(before, front, [m]);
    }
  }

  /** Merging keeps the role of the last message. */
  lemma MergedLast(ms: seq<Message>)
    ensures (Merge(ms) == [] <==> ms == []) && (ms != [] ==> Last(Merge(ms)).role == Last(ms).role)
  {
  }
}
