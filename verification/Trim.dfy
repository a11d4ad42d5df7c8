/** Trimming the history to a size limit: drop the fewest leading pairs, start with a user entry, repair
    tool results whose calls are gone. */
module Trim {
  import opened Options
  import opened Text
  import opened Messages
  import opened Normalize
  import opened Payloads

  // ----- each step as a function -----

  /** stripEmptyToolUses on one entry. */
  function Stripped(e: Entry): Entry
  {
    if e.AssistantEntry? && e.toolUses == Some([]) then e.(toolUses := None) else e
  }

  function StripEmpty(h: seq<Entry>): (r: seq<Entry>)
    ensures |r| == |h| && forall i :: 0 <= i < |r| ==> r[i] == Stripped(h[i])
  {
    seq(|h|, i requires 0 <= i < |h| => Stripped(h[i]))
  }

  /** How many entries the loop drops; `size` measures the payload with a given history. */
  function Dropped(size: seq<Entry> -> int, h: seq<Entry>, limit: int): (d: nat)
    ensures d <= |h|
    decreases |h|
  {
    if |h| > 2 && size(h) > limit then 2 + Dropped(size, h[2..], limit) else 0
  }

  /** alignToUserMessage. */
  function Align(h: seq<Entry>): (r: seq<Entry>)
    ensures r == [] || r[0].UserEntry?
    ensures |r| <= |h| && r == h[|h| - |r|..]
    ensures forall i :: 0 <= i < |h| - |r| ==> !h[i].UserEntry?
  {
    if h == [] || h[0].UserEntry? then h else Align(h[1..])
  }

  /** The ids an entry offers to the tool results behind it. */
  function OfferedIds(e: Entry): set<string>
  {
    if e.AssistantEntry? && e.toolUses.Some? then set u | u in e.toolUses.value :: u.id else {}
  }

  function ValidIds(h: seq<Entry>, i: nat): set<string>
    requires i < |h|
  {
    if i > 0 then OfferedIds(h[i - 1]) else {}
  }

  function Keep(results: seq<KiroResult>, ids: set<string>): (r: seq<KiroResult>)
    ensures |r| <= |results|
  {
    if results == [] then []
    else
      var last := results[|results| - 1];
      Keep(results[..|results| - 1], ids) + if last.id in ids then [last] else []
  }

  function NonEmptyTexts(parts: seq<string>): seq<string>
  {
    if parts == [] then []
    else NonEmptyTexts(parts[..|parts| - 1]) + if parts[|parts| - 1] != "" then [parts[|parts| - 1]] else []
  }

  /** The texts of a dropped result that the code finds: those of loose parts, not of the typed list. */
  function FoundTexts(c: ResultContent): seq<string>
  {
    if c.Loose? then NonEmptyTexts(c.parts) else []
  }

  function OrphanTexts(results: seq<KiroResult>, ids: set<string>): seq<string>
  {
    if results == [] then []
    else
      var last := results[|results| - 1];
      OrphanTexts(results[..|results| - 1], ids) + if last.id in ids then [] else FoundTexts(last.content)
  }

  const MARKER := "\n[trimmed tool result] "

  /** One user entry repaired against the ids offered before it. */
  function RepairWith(e: Entry, ids: set<string>): Entry
  {
    if !e.UserEntry? || e.toolResults.None? then e
    else
      var results := e.toolResults.value;
      var kept, texts := Keep(results, ids), OrphanTexts(results, ids);
      if |kept| == |results| then e
      else
        UserEntry(if texts != [] then e.content + (MARKER + Join(texts, "; ")) else e.content,
                  if kept != [] then Some(kept) else None)
  }

  /** repairOrphanedToolResults. */
  function Repair(h: seq<Entry>): (r: seq<Entry>)
    ensures |r| == |h| && forall i :: 0 <= i < |r| ==> r[i] == RepairWith(h[i], ValidIds(h, i))
  {
    seq(|h|, i requires 0 <= i < |h| => RepairWith(h[i], ValidIds(h, i)))
  }

  /** What is left after the pairs loop and the alignment. */
  function Rest(size: seq<Entry> -> int, s: seq<Entry>, limit: int): seq<Entry>
  {
    Align(s[Dropped(size, s, limit)..])
  }

  /** TrimPayloadToLimit on the history. */
  function Trimmed(size: seq<Entry> -> int, h: seq<Entry>, limit: int): seq<Entry>
  {
    Repair(Rest(size, StripEmpty(h), limit))
  }

  // ----- the loops, on the payload's own fields -----

  class Conversation {
    var history: seq<Entry>
    const current: Entry

    constructor (p: Payload)
      ensures history == p.history && current == p.current
    {
      history, current := p.history, p.current;
    }

    method StripEmptyToolUses()
      modifies this
      ensures history == StripEmpty(old(history))
    {
      ghost var h := history;
      for i := 0 to |history|
        invariant |history| == |h| && forall k :: 0 <= k < |h| ==> history[k] == if k < i then Stripped(h[k]) else h[k]
      {
        var e := history[i];
        if e.AssistantEntry? && e.toolUses.Some? && |e.toolUses.value| == 0 {
          history := history[i := e.(toolUses := None)];
        }
      }
    }

    /** The pairs loop. The measured history is the payload's, so the field follows the local variable. */
    method DropPairs(size: seq<Entry> -> int, limit: int) returns (rest: seq<Entry>)
      modifies this
      ensures rest == history == old(history)[Dropped(size, old(history), limit)..]
    {
      rest := history;
      ghost var h, d := history, 0;
      while |rest| > 2 && size(history) > limit
        invariant 0 <= d <= |h| && rest == history == h[d..]
        invariant Dropped(size, h, limit) == d + Dropped(size, rest, limit)
        decreases |rest|
      {
        assert h[d..][2..] == h[d + 2..];
        rest := rest[2..];
        history := rest;
        d := d + 2;
      }
    }

    method TrimPayloadToLimit(size: seq<Entry> -> int, limit: int)
      modifies this
      ensures history == Trimmed(size, old(history), limit)
    {
      if |history| == 0 { return; }
      StripEmptyToolUses();
      var rest := DropPairs(size, limit);
      rest := AlignToUserMessage(rest);
      rest := RepairOrphans(rest);
      history := rest;
    }
  }

  method AlignToUserMessage(h: seq<Entry>) returns (rest: seq<Entry>)
    ensures rest == Align(h)
  {
    rest := h;
    while |rest| > 0
      invariant Align(rest) == Align(h)
    {
      if !rest[0].UserEntry? { rest := rest[1..]; } else { break; }
    }
  }

  /** The inner loop: which results stay, and the texts found in the others. */
  method SortResults(results: seq<KiroResult>, ids: set<string>) returns (kept: seq<KiroResult>, texts: seq<string>)
    ensures kept == Keep(results, ids) && texts == OrphanTexts(results, ids)
  {
    kept, texts := [], [];
    for n := 0 to |results|
      invariant kept == Keep(results[..n], ids) && texts == OrphanTexts(results[..n], ids)
    {
      assert results[..n + 1][..n] == results[..n];
      if results[n].id in ids {
        kept := kept + [results[n]];
        assert texts + [] == texts;
      } else {
        assert kept + [] == kept;
        texts := AppendTexts(texts, results[n].content);
      }
    }
    assert results[..|results|] == results;
  }

  method AppendTexts(before: seq<string>, c: ResultContent) returns (texts: seq<string>)
    ensures texts == before + FoundTexts(c)
  {
    texts := before;
    if c.Loose? {
      for n := 0 to |c.parts|
        invariant texts == before + NonEmptyTexts(c.parts[..n])
      {
        assert c.parts[..n + 1][..n] == c.parts[..n];
        if c.parts[n] != "" { texts := texts + [c.parts[n]]; }
      }
      assert c.parts[..|c.parts|] == c.parts;
    }
  }

  method RepairEntry(e: Entry, ids: set<string>) returns (r: Entry)
    ensures r == RepairWith(e, ids)
  {
    if !e.UserEntry? { return e; }
    if e.toolResults.None? { return e; }
    var results := e.toolResults.value;
    var kept, texts := SortResults(results, ids);
    r := e;
    if |kept| != |results| {
      var toolResults: Option<seq<KiroResult>> := None;
      if |kept| > 0 { toolResults := Some(kept); }
      var content := e.content;
      if |texts| > 0 {
        var marker := MARKER + Join(texts, "; ");
        content := content + marker;
      }
      r := UserEntry(content, toolResults);
    }
  }

  method RepairOrphans(h: seq<Entry>) returns (history: seq<Entry>)
    ensures history == Repair(h)
  {
    history := h;
    for i := 0 to |history|
      invariant |history| == |h|
      invariant forall k :: 0 <= k < |h| ==> history[k] == if k < i then RepairWith(h[k], ValidIds(h, k)) else h[k]
    {
      var ids := {};
      if i > 0 {
        ids := OfferedIds(history[i - 1]);
        RepairOffers(h[i - 1], ValidIds(h, i - 1));
      }
      var e := RepairEntry(history[i], ids);
      history := history[i := e];
    }
  }

  lemma RepairOffers(e: Entry, ids: set<string>)
    ensures OfferedIds(RepairWith(e, ids)) == OfferedIds(e)
  {
  }

  // ----- what trimming guarantees -----

  /** The loop drops the fewest pairs after which the payload fits or at most two entries remain. */
  lemma {:induction false} FewestPairs(size: seq<Entry> -> int, h: seq<Entry>, limit: int)
    ensures var d := Dropped(size, h, limit);
      && d % 2 == 0
      && (|h| - d <= 2 || size(h[d..]) <= limit)
      && (forall e :: 0 <= e < d && e % 2 == 0 ==> |h| - e > 2 && size(h[e..]) > limit)
    decreases |h|
  {
    if |h| > 2 && size(h) > limit {
      var rest := h[2..];
      FewestPairs(size, rest, limit);
      var d := Dropped(size, h, limit);
      assert rest[d - 2..] == h[d..];
      forall e | 0 <= e < d && e % 2 == 0 ensures |h| - e > 2 && size(h[e..]) > limit {
        if e == 0 {
          assert h[0..] == h;
        } else {
          assert rest[e - 2..] == h[e..];
        }
      }
    } else {
      assert h[0..] == h;
    }
  }

  /** Empty lists of tool uses go, and nothing else. */
  lemma StripIs(h: seq<Entry>, i: nat)
    requires i < |h|
    ensures var e, r := h[i], StripEmpty(h)[i];
      && (r.AssistantEntry? ==> r.toolUses != Some([]))
      && r.content == e.content && (e.UserEntry? ==> r == e)
      && (e.AssistantEntry? ==> r.AssistantEntry? && r.reasoning == e.reasoning)
      && (e.AssistantEntry? && e.toolUses != Some([]) ==> r == e)
  {
  }

  predicate IdsOffered(results: seq<KiroResult>, ids: set<string>)
  {
    forall k :: 0 <= k < |results| ==> results[k].id in ids
  }

  lemma {:induction false} KeepIs(results: seq<KiroResult>, ids: set<string>)
    ensures IdsOffered(Keep(results, ids), ids)
    ensures |Keep(results, ids)| == |results| <==> IdsOffered(results, ids)
    ensures IdsOffered(results, ids) ==> Keep(results, ids) == results
  {
    if results != [] {
      var front, last := results[..|results| - 1], results[|results| - 1];
      KeepIs(front, ids);
      OfferedSnoc(front, last, ids);
      OfferedSnoc(Keep(front, ids), last, ids);
      assert results == front + [last];
      if last.id !in ids { assert Keep(front, ids) + [] == Keep(front, ids); }
    }
  }

  lemma OfferedSnoc(results: seq<KiroResult>, r: KiroResult, ids: set<string>)
    ensures IdsOffered(results + [r], ids) <==> IdsOffered(results, ids) && r.id in ids
  {
    var all := results + [r];
    assert all[|results|] == r && forall k :: 0 <= k < |results| ==> all[k] == results[k];
  }

  /** The places of the results whose ids are offered. */
  function OfferedPlaces(results: seq<KiroResult>, ids: set<string>): (places: seq<nat>)
    ensures forall j :: 0 <= j < |places| ==> places[j] < |results|
  {
    if results == [] then []
    else
      var n := |results| - 1;
      OfferedPlaces(results[..n], ids) + if results[n].id in ids then [n] else []
  }

  /** `kept` are the results at `places`: in order, each once, and exactly those whose ids are offered. */
  predicate Selects(results: seq<KiroResult>, ids: set<string>, kept: seq<KiroResult>, places: seq<nat>)
  {
    && |kept| == |places|
    && (forall j, k :: 0 <= j < k < |places| ==> places[j] < places[k])
    && (forall j :: 0 <= j < |places| ==> places[j] < |results| && kept[j] == results[places[j]])
    && (forall p :: 0 <= p < |results| ==> (p in places <==> results[p].id in ids))
  }

  lemma SelectMore(front: seq<KiroResult>, last: KiroResult, ids: set<string>, kept: seq<KiroResult>,
                   places: seq<nat>)
    requires Selects(front, ids, kept, places) && last.id in ids
    ensures Selects(front + [last], ids, kept + [last], places + [|front|])
  {
    var all := places + [|front|];
    forall p | 0 <= p <= |front| ensures p in all <==> (front + [last])[p].id in ids {
      assert p in all <==> p in places || p == |front|;
    }
  }

  lemma SelectSame(front: seq<KiroResult>, last: KiroResult, ids: set<string>, kept: seq<KiroResult>,
                   places: seq<nat>)
    requires Selects(front, ids, kept, places) && last.id !in ids
    ensures Selects(front + [last], ids, kept, places)
  {
    assert |front| !in places;
  }

  /** What is kept are exactly the offered results, in order. */
  lemma {:induction false} KeepSelects(results: seq<KiroResult>, ids: set<string>)
    ensures Selects(results, ids, Keep(results, ids), OfferedPlaces(results, ids))
  {
    if results != [] {
      var front, last := results[..|results| - 1], results[|results| - 1];
      var kept, places := Keep(front, ids), OfferedPlaces(front, ids);
      KeepSelects(front, ids);
      assert results == front + [last];
      if last.id in ids {
        SelectMore(front, last, ids, kept, places);
      } else {
        SelectSame(front, last, ids, kept, places);
        assert kept + [] == kept && places + [] == places;
      }
    }
  }

  /** Every tool result answers a tool use of the entry directly before it. */
  predicate AnsweredAt(h: seq<Entry>, i: nat)
    requires i < |h|
  {
    h[i].UserEntry? && h[i].toolResults.Some? ==> IdsOffered(h[i].toolResults.value, ValidIds(h, i))
  }

  predicate Answered(h: seq<Entry>) { forall i :: 0 <= i < |h| ==> AnsweredAt(h, i) }

  function ResultList(e: Entry): seq<KiroResult>
  {
    if e.UserEntry? && e.toolResults.Some? then e.toolResults.value else []
  }

  /** The tool uses directly before entry `i`. */
  function UsesBefore(h: seq<Entry>, i: nat): seq<KiroUse>
    requires i < |h|
  {
    if i == 0 || h[i - 1].UserEntry? || h[i - 1].toolUses.None? then [] else h[i - 1].toolUses.value
  }

  /** Their ids. */
  function IdsBefore(h: seq<Entry>, i: nat): set<string>
    requires i < |h|
  {
    set k | 0 <= k < |UsesBefore(h, i)| :: UsesBefore(h, i)[k].id
  }

  lemma IdsAre(h: seq<Entry>, i: nat)
    requires i < |h|
    ensures ValidIds(h, i) == IdsBefore(h, i)
  {
    var uses := UsesBefore(h, i);
    assert forall k :: 0 <= k < |uses| ==> uses[k] in uses;
  }

  /** Entry `i` of `r` is that of `h` with exactly those of its tool results, in order, that answer a tool
      use of the entry before it; only a user entry's content may have a marker added. */
  predicate RepairedAt(h: seq<Entry>, r: seq<Entry>, i: nat)
    requires i < |h| == |r|
  {
    var ids := IdsBefore(h, i);
    && Selects(ResultList(h[i]), ids, ResultList(r[i]), OfferedPlaces(ResultList(h[i]), ids))
    && if h[i].UserEntry? then r[i].UserEntry? && h[i].content <= r[i].content else r[i] == h[i]
  }

  predicate Repaired(h: seq<Entry>, r: seq<Entry>)
  {
    |r| == |h| && forall i :: 0 <= i < |h| ==> RepairedAt(h, r, i)
  }

  lemma EntryRepaired(h: seq<Entry>, i: nat)
    requires i < |h|
    ensures RepairedAt(h, Repair(h), i)
  {
    var results, ids := ResultList(h[i]), ValidIds(h, i);
    IdsAre(h, i);
    KeepSelects(results, ids);
    KeepIs(results, ids);
    assert ResultList(RepairWith(h[i], ids)) == Keep(results, ids);
  }

  /** After the repair every user entry has exactly those of its tool results, in order, that answer a tool
      use directly before it, and a history in which all did is unchanged. */
  lemma RepairIs(h: seq<Entry>)
    ensures Repaired(h, Repair(h)) && Answered(Repair(h)) && (Answered(h) <==> Repair(h) == h)
  {
    var r := Repair(h);
    forall i | 0 <= i < |h| ensures AnsweredAt(r, i) && (AnsweredAt(h, i) <==> r[i] == h[i]) {
      if i > 0 { RepairOffers(h[i - 1], ValidIds(h, i - 1)); }
      if h[i].UserEntry? && h[i].toolResults.Some? { KeepIs(h[i].toolResults.value, ValidIds(h, i)); }
    }
    forall i | 0 <= i < |h| ensures RepairedAt(h, r, i) {
      EntryRepaired(h, i);
    }
  }

  // ----- the texts of dropped results -----

  /** A text of a dropped result, as loose parts have them. */
  predicate DroppedText(results: seq<KiroResult>, ids: set<string>, k: nat, j: nat)
  {
    && k < |results| && results[k].id !in ids && results[k].content.Loose?
    && j < |results[k].content.parts| && results[k].content.parts[j] != ""
  }

  lemma {:induction false} PartsAreFound(parts: seq<string>)
    ensures forall t :: t in NonEmptyTexts(parts) <==> t in parts && t != ""
  {
    if parts != [] {
      PartsAreFound(parts[..|parts| - 1]);
      assert parts == parts[..|parts| - 1] + [parts[|parts| - 1]];
    }
  }

  lemma {:induction false} TextsAreFound(results: seq<KiroResult>, ids: set<string>, k: nat, j: nat)
    requires DroppedText(results, ids, k, j)
    ensures results[k].content.parts[j] in OrphanTexts(results, ids)
    decreases |results|
  {
    var front, last := results[..|results| - 1], results[|results| - 1];
    if k < |front| {
      TextsAreFound(front, ids, k, j);
    } else {
      PartsAreFound(last.content.parts);
    }
  }

  lemma {:induction false} JoinHolds(parts: seq<string>, sep: string, i: nat)
    requires i < |parts|
    ensures exists at :: Occurs(Join(parts, sep), parts[i], at)
  {
    var n := |parts| - 1;
    var front, joined := Join(parts[..n], sep), Join(parts, sep);
    if n == 0 {
      assert Occurs(joined, parts[i], 0);
    } else if i == n {
      assert joined[|front + sep|..|front + sep| + |parts[n]|] == parts[n];
      assert Occurs(joined, parts[i], |front + sep|);
    } else {
      JoinHolds(parts[..n], sep, i);
      var at :| Occurs(front, parts[..n][i], at);
      OccursAppend(front, parts[i], sep + parts[n], at);
      Associate(front, sep, parts[n]);
      assert Occurs(joined, parts[i], at);
    }
  }

  /** Behind the content the entry had, every loose text of a dropped result stands in the repaired one. */
  lemma LooseTextsStay(e: Entry, ids: set<string>, k: nat, j: nat)
    requires e.UserEntry? && e.toolResults.Some? && DroppedText(e.toolResults.value, ids, k, j)
    ensures var r, text := RepairWith(e, ids), e.toolResults.value[k].content.parts[j];
      r.UserEntry? && e.content <= r.content && exists at :: Occurs(r.content[|e.content|..], text, at)
  {
    var results := e.toolResults.value;
    KeepIs(results, ids);
    TextsAreFound(results, ids, k, j);
    MarkerHolds(OrphanTexts(results, ids), results[k].content.parts[j]);
    assert RepairWith(e, ids).content[|e.content|..] == MARKER + Join(OrphanTexts(results, ids), "; ");
  }

  lemma MarkerHolds(texts: seq<string>, text: string)
    requires text in texts
    ensures exists at :: Occurs(MARKER + Join(texts, "; "), text, at)
  {
    var i :| 0 <= i < |texts| && texts[i] == text;
    JoinHolds(texts, "; ", i);
    var joined := Join(texts, "; ");
    var at :| Occurs(joined, text, at);
    assert (MARKER + joined)[|MARKER| + at..|MARKER| + at + |text|] == text;
    assert Occurs(MARKER + joined, text, |MARKER| + at);
  }

  /** Two dropped texts, marked and joined. */
  lemma TwoTextsMarked(content: string, a: string, b: string, x: KiroResult, y: KiroResult)
    requires a != "" && b != "" && x.content == Loose([a]) && y.content == Loose([b])
    ensures RepairWith(UserEntry(content, Some([x, y])), {}) ==
      UserEntry(content + ("\n[trimmed tool result] " + (a + "; " + b)), None)
  {
    OneText(a);
    OneText(b);
    OrphanSnoc([], x);
    OrphanSnoc([x], y);
    assert [] + [x] == [x] && [x] + [y] == [x, y] && [] + [a] == [a] && [a] + [b] == [a, b];
    JoinTwo(a, b);
    assert MARKER == "\n[trimmed tool result] ";
  }

  lemma OrphanSnoc(results: seq<KiroResult>, r: KiroResult)
    requires Keep(results, {}) == []
    ensures OrphanTexts(results + [r], {}) == OrphanTexts(results, {}) + FoundTexts(r.content)
    ensures Keep(results + [r], {}) == []
  {
    assert (results + [r])[..|results|] == results;
  }

  lemma JoinTwo(a: string, b: string)
    ensures Join([a, b], "; ") == a + "; " + b
  {
    assert [a, b][..1] == [a];
  }

  lemma OneText(a: string)
    requires a != ""
    ensures NonEmptyTexts([a]) == [a]
  {
    assert [a][..0] == [];
  }

  lemma {:induction false} TypedLeaveNoText(results: seq<KiroResult>, ids: set<string>)
    requires forall k :: 0 <= k < |results| ==> results[k].content.Typed?
    ensures OrphanTexts(results, ids) == []
  {
    if results != [] { TypedLeaveNoText(results[..|results| - 1], ids); }
  }

  /** The results this package builds are typed lists, whose text the repair does not find: no marker is
      ever added, and the text of a dropped result is lost. */
  lemma TypedOrphansVanish(e: Entry, ids: set<string>)
    requires e.UserEntry? && e.toolResults.Some?
    requires forall k :: 0 <= k < |e.toolResults.value| ==> e.toolResults.value[k].content.Typed?
    ensures RepairWith(e, ids).content == e.content
    ensures RepairWith(e, ids) == e <==> IdsOffered(e.toolResults.value, ids)
  {
    TypedLeaveNoText(e.toolResults.value, ids);
    KeepIs(e.toolResults.value, ids);
  }

  /** On a history that starts with a user entry alignment does nothing. */
  lemma AlignIsNoOp(h: seq<Entry>)
    requires h == [] || h[0].UserEntry?
    ensures Align(h) == h
  {
  }

  lemma RestIsSuffix(size: seq<Entry> -> int, s: seq<Entry>, limit: int)
    ensures var t := Rest(size, s, limit); (t == [] || t[0].UserEntry?) && |t| <= |s| && t == s[|s| - |t|..]
  {
    var d := Dropped(size, s, limit);
    SuffixTwice(s, d, Align(s[d..]));
  }

  lemma SuffixTwice(s: seq<Entry>, d: nat, t: seq<Entry>)
    requires d <= |s| && |t| <= |s[d..]| && t == s[d..][|s[d..]| - |t|..]
    ensures t == s[|s| - |t|..]
  {
  }

  lemma FirstStays(h: seq<Entry>)
    requires h == [] || h[0].UserEntry?
    ensures Repair(h) == [] || Repair(h)[0].UserEntry?
  {
  }

  /** `r` is `t`, repaired, and empty or starting with a user entry. */
  predicate RepairedRest(t: seq<Entry>, r: seq<Entry>)
  {
    (r == [] || r[0].UserEntry?) && Answered(r) && Repaired(t, r)
  }

  /** `r` is such a repaired suffix of `s`. */
  predicate RepairedSuffix(s: seq<Entry>, r: seq<Entry>) { |r| <= |s| && RepairedRest(s[|s| - |r|..], r) }

  lemma RestRepaired(t: seq<Entry>)
    requires t == [] || t[0].UserEntry?
    ensures RepairedRest(t, Repair(t))
  {
    FirstStays(t);
    RepairIs(t);
  }

  lemma SuffixRepaired(s: seq<Entry>, t: seq<Entry>, r: seq<Entry>)
    requires |t| <= |s| && t == s[|s| - |t|..] && |r| == |t| && RepairedRest(t, r)
    ensures RepairedSuffix(s, r)
  {
  }

  /** Trimming any history leaves a repaired suffix of it. */
  lemma TrimmedIs(size: seq<Entry> -> int, h: seq<Entry>, limit: int)
    ensures RepairedSuffix(StripEmpty(h), Trimmed(size, h, limit))
  {
    RestIsSuffix(size, StripEmpty(h), limit);
    RestRepaired(Rest(size, StripEmpty(h), limit));
    SuffixRepaired(StripEmpty(h), Rest(size, StripEmpty(h), limit), Trimmed(size, h, limit));
  }

  // ----- trimming what this package builds -----

  /** User and assistant entries in turn, in pairs. */
  predicate InTurn(h: seq<Entry>)
  {
    |h| % 2 == 0 && forall i :: 0 <= i < |h| ==> (h[i].UserEntry? <==> i % 2 == 0)
  }

  /** No empty lists of tool results. */
  predicate NoEmptyResults(h: seq<Entry>)
  {
    forall i :: 0 <= i < |h| && h[i].UserEntry? && h[i].toolResults.Some? ==> h[i].toolResults.value != []
  }

  lemma SuffixInTurn(h: seq<Entry>, d: nat)
    requires InTurn(h) && d <= |h| && d % 2 == 0
    ensures InTurn(h[d..])
  {
    var r := h[d..];
    forall i | 0 <= i < |r| ensures r[i].UserEntry? <==> i % 2 == 0 {
      assert r[i] == h[d + i] && (d + i) % 2 == i % 2;
    }
  }

  lemma RepairAnchors(h: seq<Entry>, i: nat)
    requires i < |h| && (h[i].UserEntry? && h[i].toolResults.Some? ==> h[i].toolResults.value != [])
    ensures ResultsAnchoredAt(Repair(h), i)
  {
    var ids, r := ValidIds(h, i), Repair(h);
    if i > 0 { RepairOffers(h[i - 1], ValidIds(h, i - 1)); }
    if h[i].UserEntry? && h[i].toolResults.Some? {
      KeepIs(h[i].toolResults.value, ids);
      if r[i].toolResults.Some? {
        assert r[i].toolResults.value[0].id in ids;
      }
    }
  }

  lemma KindKept(e: Entry, ids: set<string>)
    ensures RepairWith(e, ids).UserEntry? == e.UserEntry? && (e.AssistantEntry? ==> RepairWith(e, ids) == e)
  {
  }

  lemma TurnsOf(h: seq<Entry>, r: seq<Entry>)
    requires InTurn(h) && |r| == |h| && forall i :: 0 <= i < |h| ==> r[i].UserEntry? == h[i].UserEntry?
    ensures InTurn(r) && (h != [] ==> h[|h| - 1].AssistantEntry?)
  {
  }

  lemma RepairedEntry(h: seq<Entry>, i: nat)
    requires i < |h|
    ensures Repair(h)[i].UserEntry? == h[i].UserEntry? && (h[i].AssistantEntry? ==> Repair(h)[i] == h[i])
  {
    KindKept(h[i], ValidIds(h, i));
  }

  lemma RepairKeepsTurns(h: seq<Entry>)
    requires InTurn(h)
    ensures InTurn(Repair(h)) && (h != [] ==> Repair(h)[|h| - 1] == h[|h| - 1])
  {
    var r := Repair(h);
    forall i | 0 <= i < |h| ensures r[i].UserEntry? == h[i].UserEntry? {
      RepairedEntry(h, i);
    }
    TurnsOf(h, r);
    if h != [] { RepairedEntry(h, |h| - 1); }
  }

  /** A repaired history keeps its turns and has every tool result behind tool uses. */
  lemma RepairedIsGood(h: seq<Entry>)
    requires InTurn(h) && NoEmptyResults(h)
    ensures InTurn(Repair(h)) && ResultsAnchored(Repair(h))
    ensures h != [] ==> Repair(h)[|h| - 1] == h[|h| - 1]
  {
    RepairKeepsTurns(h);
    forall i | 0 <= i < |h| ensures ResultsAnchoredAt(Repair(h), i) {
      RepairAnchors(h, i);
    }
  }

  lemma AppendCurrent(h: seq<Entry>, r: seq<Entry>, current: Entry)
    requires AlternatesUserFirst(h + [current]) && ResultsAnchored(h + [current])
    requires InTurn(r) && ResultsAnchored(r) && (h != [] ==> r != [] && r[|r| - 1] == h[|h| - 1])
    ensures AlternatesUserFirst(r + [current]) && ResultsAnchored(r + [current])
  {
    assert IsUser(h + [current], |h|) && ResultsAnchoredAt(h + [current], |h|);
    AnchoredAppend(r, current);
    AlternatesAppend(r, current);
  }

  /** Trimming a built payload at any limit: only whole pairs go, alignment does nothing, the last
      assistant entry stays as it is, and history followed by current message still alternates from user
      to user with every tool result behind an assistant entry with tool uses. */
  lemma TrimmedPayloadIsGood(size: seq<Entry> -> int, limit: int, h: seq<Entry>, current: Entry)
    requires StripEmpty(h) == h && NoEmptyResults(h)
    requires AlternatesUserFirst(h + [current]) && ResultsAnchored(h + [current])
    ensures var r := Trimmed(size, h, limit);
      && r == Repair(h[Dropped(size, h, limit)..])
      && AlternatesUserFirst(r + [current]) && ResultsAnchored(r + [current])
  {
    FewestPairs(size, h, limit);
    NotAllDropped(size, h, limit);
    SuffixIsGood(h, Dropped(size, h, limit), current);
  }

  lemma SuffixIsGood(h: seq<Entry>, d: nat, current: Entry)
    requires NoEmptyResults(h) && d <= |h| && d % 2 == 0 && (h != [] ==> d < |h|)
    requires AlternatesUserFirst(h + [current]) && ResultsAnchored(h + [current])
    ensures Align(h[d..]) == h[d..]
    ensures AlternatesUserFirst(Repair(h[d..]) + [current]) && ResultsAnchored(Repair(h[d..]) + [current])
  {
    HistoryInTurn(h, current);
    SuffixInTurn(h, d);
    AlignIsNoOp(h[d..]);
    RepairedIsGood(h[d..]);
    AppendCurrent(h, Repair(h[d..]), current);
  }

  lemma HistoryInTurn(h: seq<Entry>, current: Entry)
    requires AlternatesUserFirst(h + [current])
    ensures InTurn(h)
  {
    assert forall i :: 0 <= i < |h| ==> IsUser(h + [current], i) == h[i].UserEntry?;
  }

  lemma {:induction false} NotAllDropped(size: seq<Entry> -> int, h: seq<Entry>, limit: int)
    ensures h != [] ==> Dropped(size, h, limit) < |h|
    decreases |h|
  {
    if |h| > 2 { NotAllDropped(size, h[2..], limit); }
  }

  lemma {:induction false} HistoryHasNoEmptyLists(ms: seq<Message>)
    ensures StripEmpty(History(ms)) == History(ms) && NoEmptyResults(History(ms))
  {
    if ms != [] {
      HistoryHasNoEmptyLists(ms[..|ms| - 1]);
      MessageHasNoEmptyLists(ms[|ms| - 1]);
      ListsAppend(History(ms[..|ms| - 1]), ToEntry(ms[|ms| - 1]));
    }
  }

  lemma MessageHasNoEmptyLists(m: Message)
    ensures StripEmpty(ToEntry(m)) == ToEntry(m) && NoEmptyResults(ToEntry(m))
  {
  }

  lemma ListsAppend(a: seq<Entry>, b: seq<Entry>)
    requires StripEmpty(a) == a && NoEmptyResults(a) && StripEmpty(b) == b && NoEmptyResults(b)
    ensures StripEmpty(a + b) == a + b && NoEmptyResults(a + b)
  {
    forall i | 0 <= i < |a + b| ensures Stripped((a + b)[i]) == (a + b)[i] {
      if i < |a| { assert StripEmpty(a)[i] == a[i]; } else { assert StripEmpty(b)[i - |a|] == b[i - |a|]; }
    }
  }

  /** Building and then trimming, for every list of messages, system prompt and limit. */
  lemma BuiltAndTrimmed(size: seq<Entry> -> int, limit: int, system: string, thinking: string, hasTools: bool,
                        ms: seq<Message>)
    requires ms != []
    ensures var r := Build(system, thinking, hasTools, ms);
      && r.Some?
      && (var h := Trimmed(size, r.value.history, limit);
          AlternatesUserFirst(h + [r.value.current]) && ResultsAnchored(h + [r.value.current]) && Answered(h))
  {
    PayloadIsGood(system, thinking, hasTools, ms);
    var p := Build(system, thinking, hasTools, ms).value;
    BuiltLists(system, thinking, hasTools, ms);
    TrimmedPayloadIsGood(size, limit, p.history, p.current);
    TrimmedIs(size, p.history, limit);
  }

  lemma MovedLists(content: string)
    ensures var e := [AssistantEntry(content, None, None)]; StripEmpty(e) == e && NoEmptyResults(e)
  {
  }

  lemma BuiltLists(system: string, thinking: string, hasTools: bool, ms: seq<Message>)
    requires Build(system, thinking, hasTools, ms).Some?
    ensures var h := Build(system, thinking, hasTools, ms).value.history; StripEmpty(h) == h && NoEmptyResults(h)
  {
    AssembledLists(system, thinking, Chain(hasTools, ms));
  }

  lemma AssembledLists(system: string, thinking: string, merged: seq<Message>)
    requires merged != []
    ensures var h := Assemble(system, thinking, merged).history; StripEmpty(h) == h && NoEmptyResults(h)
  {
    var front := History(WithPrompt(system, merged[..|merged| - 1]));
    HistoryHasNoEmptyLists(WithPrompt(system, merged[..|merged| - 1]));
    var h := Assemble(system, thinking, merged).history;
    if h != front {
      var content := h[|front|].content;
      assert h == front + [AssistantEntry(content, None, None)];
      MovedLists(content);
      ListsAppend(front, [AssistantEntry(content, None, None)]);
    }
  }
}
