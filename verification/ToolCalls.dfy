/** Decoded values, the library calls the gateway makes on them, and tool call records. */
module ToolCalls {
  import opened Options
  import opened Json

  /** A decoded JSON object (map[string]any). */
  type Fields = map<string, Json>

  /** The library functions the parser relies on, left arbitrary: every theorem holds for all of them. */
  datatype Codec = Codec(
    decode: string -> Option<Fields>,      // json.Unmarshal of an object
    argText: string -> string,             // toolInputArgString of an object's bytes
    blank: string -> bool,                 // strings.TrimSpace(s) == ""
    reformat: string -> Option<string>,    // pyjson.DumpsASCII
    diagnose: string -> Option<string>,    // diagnoseJSONTruncation: the reason, if truncated
    text: Json -> string,                  // pyjson.Str of a value that is not a string
    same: (Json, Json) -> bool,            // reflect.DeepEqual of two decoded values
    zero: string -> bool,                  // a number text whose float64 value is 0
    callId: nat -> string)                 // the n-th drawn tool call id

  function Field(v: Fields, key: string): Json { if key in v then v[key] else Null }

  /** Python truthiness of a decoded value. */
  predicate Truthy(o: Codec, v: Json)
  {
    match v
    case Null => false
    case Bool(b) => b
    case Num(t) => !o.zero(t)
    case Str(s) => s != ""
    case Arr(items) => items != []
    case Obj(members) => members != []
  }

  /** Python's falsy values: None, False, zero, and what is empty. */
  lemma FalsyIs(o: Codec, v: Json)
    ensures !Truthy(o, v) <==>
      v in [Null, Bool(false), Str(""), Arr([]), Obj([])] || (v.Num? && o.zero(v.text))
  {
  }

  function AnyStr(o: Codec, v: Json): string { if v.Str? then v.s else o.text(v) }

  datatype ToolCall = ToolCall(id: Json, name: Json, arguments: string, truncated: Option<string>)

  // ----- what deduplication looks at -----

  function IdOf(o: Codec, tc: ToolCall): Option<string>
  {
    if Truthy(o, tc.id) then Some(AnyStr(o, tc.id)) else None
  }

  /** The size by which calls with one id are ranked: "{}" below everything else. */
  function Score(tc: ToolCall): nat { if tc.arguments == "{}" then 0 else |tc.arguments| + 1 }

  /** When a call takes the place of another of its id: its arguments are not "{}", and are longer unless the
      other's are. */
  lemma RanksAbove(c: ToolCall, d: ToolCall)
    ensures Score(c) > Score(d) <==>
      c.arguments != "{}" && (d.arguments == "{}" || |c.arguments| > |d.arguments|)
  {
  }

  function Key(o: Codec, tc: ToolCall): string
  {
    (if Truthy(o, tc.name) then AnyStr(o, tc.name) else "") + "-" + (if tc.arguments == "" then "{}" else tc.arguments)
  }

  // ----- the result as a specification -----

  /** The ids in first-seen order. */
  function Ids(o: Codec, calls: seq<ToolCall>): seq<string>
  {
    if calls == [] then []
    else NextIds(o, Ids(o, calls[..|calls| - 1]), calls[|calls| - 1])
  }

  function NextIds(o: Codec, ids: seq<string>, tc: ToolCall): seq<string>
  {
    var id := IdOf(o, tc);
    if id.None? || id.value in ids then ids else ids + [id.value]
  }

  /** The call at `i` is the first of the highest-ranked calls with the id `id`. */
  predicate IsBest(o: Codec, calls: seq<ToolCall>, id: string, i: int)
  {
    && 0 <= i < |calls| && IdOf(o, calls[i]) == Some(id)
    && forall j :: 0 <= j < |calls| && IdOf(o, calls[j]) == Some(id) ==>
         Score(calls[j]) <= Score(calls[i]) && (j < i ==> Score(calls[j]) < Score(calls[i]))
  }

  /** `tc` is the first of the highest-ranked calls with the id `id`. */
  ghost predicate BestFor(o: Codec, calls: seq<ToolCall>, id: string, tc: ToolCall)
  {
    exists i :: IsBest(o, calls, id, i) && tc == calls[i]
  }

  /** `r` holds, per id in first-seen order, the first of its highest-ranked calls. */
  ghost predicate BestPerId(o: Codec, calls: seq<ToolCall>, r: seq<ToolCall>)
  {
    BestList(o, calls, Ids(o, calls), r)
  }

  ghost predicate BestList(o: Codec, calls: seq<ToolCall>, ids: seq<string>, r: seq<ToolCall>)
  {
    |r| == |ids| && forall k :: 0 <= k < |r| ==> BestFor(o, calls, ids[k], r[k])
  }

  function WithoutId(o: Codec, calls: seq<ToolCall>): seq<ToolCall>
  {
    if calls == [] then []
    else
      var n := |calls| - 1;
      WithoutId(o, calls[..n]) + if IdOf(o, calls[n]).None? then [calls[n]] else []
  }

  /** The keys seen. */
  function Keys(o: Codec, calls: seq<ToolCall>): set<string>
  {
    set tc | tc in calls :: Key(o, tc)
  }

  /** The first call of each key. */
  function FirstPerKey(o: Codec, calls: seq<ToolCall>): seq<ToolCall>
  {
    if calls == [] then []
    else
      var n := |calls| - 1;
      FirstPerKey(o, calls[..n]) + if Key(o, calls[n]) in Keys(o, calls[..n]) then [] else [calls[n]]
  }

  ghost predicate DistinctIds(o: Codec, calls: seq<ToolCall>)
  {
    forall i, j :: 0 <= i < j < |calls| && IdOf(o, calls[i]).Some? ==> IdOf(o, calls[i]) != IdOf(o, calls[j])
  }

  ghost predicate DistinctKeys(o: Codec, calls: seq<ToolCall>)
  {
    forall i, j :: 0 <= i < j < |calls| ==> Key(o, calls[i]) != Key(o, calls[j])
  }

  /** Calls with an id come before calls without. */
  ghost predicate IdsFirst(o: Codec, calls: seq<ToolCall>)
  {
    forall i, j :: 0 <= i < j < |calls| && IdOf(o, calls[j]).Some? ==> IdOf(o, calls[i]).Some?
  }

  /** Where `id` stands in a list of ids. */
  ghost function Position(ids: seq<string>, id: string): (p: nat)
    requires id in ids
    ensures p < |ids| && ids[p] == id
  {
    var p :| 0 <= p < |ids| && ids[p] == id;
    p
  }

  /** The by-id pass: a call replaces the kept one of its id only when it ranks higher. */
  ghost function ById(o: Codec, calls: seq<ToolCall>): (values: seq<ToolCall>)
    ensures |values| == |Ids(o, calls)|
  {
    if calls == [] then []
    else
      var n := |calls| - 1;
      Offer(o, Ids(o, calls[..n]), ById(o, calls[..n]), calls[n])
  }

  ghost function Offer(o: Codec, ids: seq<string>, values: seq<ToolCall>, tc: ToolCall): (r: seq<ToolCall>)
    requires |values| == |ids|
  {
    var id := IdOf(o, tc);
    if id.None? then values
    else if id.value !in ids then values + [tc]
    else
      var p := Position(ids, id.value);
      if Score(tc) > Score(values[p]) then values[p := tc] else values
  }

  /** DeduplicateToolCalls as a function of its input. */
  ghost function Dedup(o: Codec, calls: seq<ToolCall>): seq<ToolCall>
  {
    FirstPerKey(o, ById(o, calls) + WithoutId(o, calls))
  }

  // ----- the loops -----

  /** The by-id pass of DeduplicateToolCalls. */
  method CollectById(o: Codec, calls: seq<ToolCall>) returns (values: seq<ToolCall>)
    ensures values == ById(o, calls)
  {
    values := [];
    ghost var ids: seq<string> := [];
    var byId: map<string, nat> := map[];
    for n := 0 to |calls|
      invariant values == ById(o, calls[..n]) && ids == Ids(o, calls[..n])
      invariant byId.Keys == set id | id in ids
      invariant forall id :: id in byId ==> byId[id] < |ids| && ids[byId[id]] == id
    {
      var tc, id := calls[n], IdOf(o, calls[n]);
      ByIdNext(o, calls, n);
      if id.Some? {
        if id.value in byId {
          var pos := byId[id.value];
          if tc.arguments != "{}" && (values[pos].arguments == "{}" || |tc.arguments| > |values[pos].arguments|) {
            values := values[pos := tc];
          }
        } else {
          byId := byId[id.value := |values|];
          values := values + [tc];
          ids := ids + [id.value];
        }
      }
    }
    assert calls[..|calls|] == calls;
  }

  /** The effect of the next call on the kept list, wherever its id already stands. */
  lemma ByIdNext(o: Codec, calls: seq<ToolCall>, n: nat)
    requires n < |calls|
    ensures var ids, was, tc := Ids(o, calls[..n]), ById(o, calls[..n]), calls[n];
      && ById(o, calls[..n + 1]) == Offer(o, ids, was, tc)
      && (forall p :: 0 <= p < |ids| && IdOf(o, tc) == Some(ids[p]) ==>
           ById(o, calls[..n + 1]) == if Score(tc) > Score(was[p]) then was[p := tc] else was)
    ensures Ids(o, calls[..n + 1]) == var front, id := Ids(o, calls[..n]), IdOf(o, calls[n]);
      if id.None? || id.value in front then front else front + [id.value]
  {
    assert calls[..n + 1][..n] == calls[..n];
    IdsDistinct(o, calls[..n]);
  }

  predicate AllDistinct(ids: seq<string>) { forall i, j :: 0 <= i < j < |ids| ==> ids[i] != ids[j] }

  lemma {:induction false} IdsDistinct(o: Codec, calls: seq<ToolCall>)
    ensures AllDistinct(Ids(o, calls))
  {
    if calls != [] { IdsDistinct(o, calls[..|calls| - 1]); }
  }

  /** DeduplicateToolCalls. */
  method DeduplicateToolCalls(o: Codec, calls: seq<ToolCall>) returns (unique: seq<ToolCall>)
    ensures unique == Dedup(o, calls)
  {
    var values := CollectById(o, calls);
    var withoutId := [];
    for n := 0 to |calls|
      invariant withoutId == WithoutId(o, calls[..n])
    {
      assert calls[..n + 1][..n] == calls[..n];
      if IdOf(o, calls[n]).None? { withoutId := withoutId + [calls[n]]; }
    }
    assert calls[..|calls|] == calls;
    unique := CollectByKey(o, values + withoutId);
  }

  /** The by-key pass of DeduplicateToolCalls. */
  method CollectByKey(o: Codec, combined: seq<ToolCall>) returns (unique: seq<ToolCall>)
    ensures unique == FirstPerKey(o, combined)
  {
    var seen: set<string> := {};
    unique := [];
    for n := 0 to |combined|
      invariant seen == Keys(o, combined[..n])
      invariant unique == FirstPerKey(o, combined[..n])
    {
      assert combined[..n + 1][..n] == combined[..n];
      KeysNext(o, combined[..n], combined[n]);
      assert combined[..n + 1] == combined[..n] + [combined[n]];
      if Key(o, combined[n]) !in seen {
        seen := seen + {Key(o, combined[n])};
        unique := unique + [combined[n]];
      }
    }
    assert combined[..|combined|] == combined;
  }

  lemma KeysNext(o: Codec, calls: seq<ToolCall>, tc: ToolCall)
    ensures Keys(o, calls + [tc]) == Keys(o, calls) + {Key(o, tc)}
  {
    assert tc in calls + [tc];
    assert forall c :: c in calls ==> c in calls + [tc];
  }

  // ----- what the result means -----

  lemma IdsSnoc(o: Codec, front: seq<ToolCall>, tc: ToolCall)
    ensures Ids(o, front + [tc]) == NextIds(o, Ids(o, front), tc)
    ensures ById(o, front + [tc]) == Offer(o, Ids(o, front), ById(o, front), tc)
  {
    assert (front + [tc])[..|front|] == front;
  }

  /** The by-id pass keeps, per id in first-seen order, the first of its highest-ranked calls. */
  lemma {:induction false} ByIdIsBest(o: Codec, calls: seq<ToolCall>)
    ensures BestPerId(o, calls, ById(o, calls))
    decreases |calls|
  {
    if calls != [] {
      var front, tc := calls[..|calls| - 1], calls[|calls| - 1];
      assert calls == front + [tc];
      ByIdIsBest(o, front);
      IdsDistinct(o, front);
      IdsSnoc(o, front, tc);
      if IdOf(o, tc).Some? && IdOf(o, tc).value !in Ids(o, front) { NewId(o, front, IdOf(o, tc).value); }
      BestStep(o, front, tc, Ids(o, front), ById(o, front));
    }
  }

  /** No call has this id. */
  predicate Unseen(o: Codec, calls: seq<ToolCall>, id: string)
  {
    forall i :: 0 <= i < |calls| ==> IdOf(o, calls[i]) != Some(id)
  }

  lemma BestStep(o: Codec, before: seq<ToolCall>, tc: ToolCall, ids: seq<string>, was: seq<ToolCall>)
    requires BestList(o, before, ids, was) && AllDistinct(ids)
    requires IdOf(o, tc).Some? && IdOf(o, tc).value !in ids ==> Unseen(o, before, IdOf(o, tc).value)
    ensures BestList(o, before + [tc], NextIds(o, ids, tc), Offer(o, ids, was, tc))
  {
    forall k | 0 <= k < |ids| ensures BestFor(o, before + [tc], ids[k], Offer(o, ids, was, tc)[k]) {
      OfferAt(o, ids, was, tc, k);
      BestLater(o, before, tc, ids[k], was[k]);
    }
    if IdOf(o, tc).Some? && IdOf(o, tc).value !in ids { BestNew(o, before, tc); }
  }

  /** The first call with an id is the best one so far. */
  lemma BestNew(o: Codec, before: seq<ToolCall>, tc: ToolCall)
    requires IdOf(o, tc).Some? && Unseen(o, before, IdOf(o, tc).value)
    ensures BestFor(o, before + [tc], IdOf(o, tc).value, tc)
  {
    assert IsBest(o, before + [tc], IdOf(o, tc).value, |before|);
  }

  /** What the next call does to the kept call at `k`. */
  lemma OfferAt(o: Codec, ids: seq<string>, was: seq<ToolCall>, tc: ToolCall, k: nat)
    requires |was| == |ids| && k < |ids| && AllDistinct(ids)
    ensures Offer(o, ids, was, tc)[k] == if IdOf(o, tc) == Some(ids[k]) && Score(tc) > Score(was[k]) then tc else was[k]
  {
  }

  lemma BestLater(o: Codec, before: seq<ToolCall>, tc: ToolCall, id: string, was: ToolCall)
    requires BestFor(o, before, id, was)
    ensures BestFor(o, before + [tc], id, if IdOf(o, tc) == Some(id) && Score(tc) > Score(was) then tc else was)
  {
    var i :| IsBest(o, before, id, i) && was == before[i];
    BestAfter(o, before, tc, id, i);
  }

  lemma BestAfter(o: Codec, before: seq<ToolCall>, tc: ToolCall, id: string, i: int)
    requires IsBest(o, before, id, i)
    ensures IsBest(o, before + [tc], id,
                   if IdOf(o, tc) == Some(id) && Score(tc) > Score(before[i]) then |before| else i)
  {
  }

  lemma {:induction false} NewId(o: Codec, calls: seq<ToolCall>, id: string)
    requires id !in Ids(o, calls)
    ensures Unseen(o, calls, id)
    decreases |calls|
  {
    if calls != [] {
      var front, tc := calls[..|calls| - 1], calls[|calls| - 1];
      assert calls == front + [tc];
      IdsSnoc(o, front, tc);
      NewId(o, front, id);
    }
  }

  lemma FirstPerKeySnoc(o: Codec, front: seq<ToolCall>, tc: ToolCall)
    ensures FirstPerKey(o, front + [tc]) ==
      FirstPerKey(o, front) + if Key(o, tc) in Keys(o, front) then [] else [tc]
  {
    assert (front + [tc])[..|front|] == front;
  }

  /** `r` has only calls of `calls`, every key of theirs, and none twice. */
  ghost predicate OnePerKey(o: Codec, calls: seq<ToolCall>, r: seq<ToolCall>)
  {
    (forall tc :: tc in r ==> tc in calls) && Keys(o, r) == Keys(o, calls) && DistinctKeys(o, r)
  }

  lemma AddKey(o: Codec, calls: seq<ToolCall>, r: seq<ToolCall>, tc: ToolCall)
    requires OnePerKey(o, calls, r) && Key(o, tc) !in Keys(o, calls)
    ensures OnePerKey(o, calls + [tc], r + [tc])
  {
    KeysNext(o, calls, tc);
    KeysNext(o, r, tc);
    forall i | 0 <= i < |r| ensures Key(o, r[i]) != Key(o, tc) {
      assert r[i] in r && Key(o, r[i]) in Keys(o, r);
    }
  }

  lemma SkipKey(o: Codec, calls: seq<ToolCall>, r: seq<ToolCall>, tc: ToolCall)
    requires OnePerKey(o, calls, r) && Key(o, tc) in Keys(o, calls)
    ensures OnePerKey(o, calls + [tc], r)
  {
    KeysNext(o, calls, tc);
  }

  /** First-per-key keeps only input calls and leaves no key twice, losing none. */
  lemma {:induction false} FirstPerKeyKeys(o: Codec, calls: seq<ToolCall>)
    ensures OnePerKey(o, calls, FirstPerKey(o, calls))
    decreases |calls|
  {
    if calls != [] {
      var front, tc := calls[..|calls| - 1], calls[|calls| - 1];
      var r := FirstPerKey(o, front);
      assert calls == front + [tc];
      FirstPerKeyKeys(o, front);
      FirstPerKeySnoc(o, front, tc);
      if Key(o, tc) in Keys(o, front) {
        SkipKey(o, front, r, tc);
        assert r + [] == r;
      } else {
        AddKey(o, front, r, tc);
      }
    }
  }

  /** Distinct ids, and calls with an id before those without. */
  ghost predicate IdsInOrder(o: Codec, calls: seq<ToolCall>) { DistinctIds(o, calls) && IdsFirst(o, calls) }

  /** A call may be put behind these. */
  ghost predicate MayFollow(o: Codec, calls: seq<ToolCall>, tc: ToolCall)
  {
    IdOf(o, tc).Some? ==> forall x :: x in calls ==> IdOf(o, x).Some? && IdOf(o, x) != IdOf(o, tc)
  }

  lemma OrderFront(o: Codec, front: seq<ToolCall>, tc: ToolCall)
    requires IdsInOrder(o, front + [tc])
    ensures IdsInOrder(o, front) && MayFollow(o, front, tc)
  {
    var calls := front + [tc];
    assert calls[|front|] == tc && forall i :: 0 <= i < |front| ==> calls[i] == front[i];
  }

  lemma OrderMore(o: Codec, front: seq<ToolCall>, tc: ToolCall)
    requires IdsInOrder(o, front) && MayFollow(o, front, tc)
    ensures IdsInOrder(o, front + [tc])
  {
    assert forall i :: 0 <= i < |front| ==> front[i] in front;
  }

  lemma {:induction false} FirstPerKeyOrder(o: Codec, calls: seq<ToolCall>)
    requires IdsInOrder(o, calls)
    ensures IdsInOrder(o, FirstPerKey(o, calls))
    decreases |calls|
  {
    if calls != [] {
      var front, tc := calls[..|calls| - 1], calls[|calls| - 1];
      var r := FirstPerKey(o, front);
      assert calls == front + [tc];
      OrderFront(o, front, tc);
      FirstPerKeyOrder(o, front);
      FirstPerKeyKeys(o, front);
      FirstPerKeySnoc(o, front, tc);
      OrderMore(o, r, tc);
      assert r + [] == r;
    }
  }

  lemma {:induction false} WithoutIdAll(o: Codec, calls: seq<ToolCall>)
    ensures forall i :: 0 <= i < |WithoutId(o, calls)| ==> IdOf(o, WithoutId(o, calls)[i]).None?
  {
    if calls != [] { WithoutIdAll(o, calls[..|calls| - 1]); }
  }

  /** The combined list before the by-key pass: distinct ids, all of them in front. */
  lemma CombinedOrder(o: Codec, calls: seq<ToolCall>)
    ensures DistinctIds(o, ById(o, calls) + WithoutId(o, calls))
    ensures IdsFirst(o, ById(o, calls) + WithoutId(o, calls))
  {
    ByIdIsBest(o, calls);
    WithoutIdAll(o, calls);
    IdsDistinct(o, calls);
    var values := ById(o, calls);
    forall k | 0 <= k < |values| ensures IdOf(o, values[k]) == Some(Ids(o, calls)[k]) {
      assert BestFor(o, calls, Ids(o, calls)[k], values[k]);
    }
  }

  lemma {:induction false} IdSeen(o: Codec, calls: seq<ToolCall>, id: string)
    requires id in Ids(o, calls)
    ensures exists tc :: tc in calls && IdOf(o, tc) == Some(id)
    decreases |calls|
  {
    var front, last := calls[..|calls| - 1], calls[|calls| - 1];
    assert calls == front + [last];
    if id in Ids(o, front) {
      IdSeen(o, front, id);
      var tc :| tc in front && IdOf(o, tc) == Some(id);
      assert tc in calls;
    } else {
      assert last in calls && IdOf(o, last) == Some(id);
    }
  }

  lemma WithoutIdSnoc(o: Codec, front: seq<ToolCall>, tc: ToolCall)
    ensures WithoutId(o, front + [tc]) == WithoutId(o, front) + if IdOf(o, tc).None? then [tc] else []
  {
    assert (front + [tc])[..|front|] == front;
  }

  lemma {:induction false} AllHaveIds(o: Codec, calls: seq<ToolCall>)
    requires forall tc :: tc in calls ==> IdOf(o, tc).Some?
    ensures WithoutId(o, calls) == []
    decreases |calls|
  {
    if calls != [] {
      var front, last := calls[..|calls| - 1], calls[|calls| - 1];
      assert calls == front + [last] && last in calls;
      AllHaveIds(o, front);
      WithoutIdSnoc(o, front, last);
    }
  }

  /** A call with an id behind a list that is its own combined list: all calls before it have other ids. */
  lemma CombinedWithId(o: Codec, front: seq<ToolCall>, tc: ToolCall)
    requires ById(o, front) + WithoutId(o, front) == front && MayFollow(o, front, tc) && IdOf(o, tc).Some?
    ensures ById(o, front + [tc]) + WithoutId(o, front + [tc]) == front + [tc]
  {
    IdsSnoc(o, front, tc);
    WithoutIdSnoc(o, front, tc);
    AllHaveIds(o, front);
    if IdOf(o, tc).value in Ids(o, front) { IdSeen(o, front, IdOf(o, tc).value); }
    NothingBehind(ById(o, front), tc);
  }

  lemma NothingBehind(values: seq<ToolCall>, tc: ToolCall)
    ensures values + [] == values && (values + [tc]) + [] == values + [tc]
  {
  }

  lemma OneBehind(values: seq<ToolCall>, others: seq<ToolCall>, tc: ToolCall)
    ensures values + (others + [tc]) == (values + others) + [tc]
  {
  }

  lemma CombinedWithoutId(o: Codec, front: seq<ToolCall>, tc: ToolCall)
    requires ById(o, front) + WithoutId(o, front) == front && IdOf(o, tc).None?
    ensures ById(o, front + [tc]) + WithoutId(o, front + [tc]) == front + [tc]
  {
    IdsSnoc(o, front, tc);
    WithoutIdSnoc(o, front, tc);
    OneBehind(ById(o, front), WithoutId(o, front), tc);
  }

  /** A list with distinct ids, all in front, is its own combined list. */
  lemma {:induction false} CombinedFixed(o: Codec, calls: seq<ToolCall>)
    requires IdsInOrder(o, calls)
    ensures ById(o, calls) + WithoutId(o, calls) == calls
    decreases |calls|
  {
    if calls != [] {
      var front, tc := calls[..|calls| - 1], calls[|calls| - 1];
      assert calls == front + [tc];
      OrderFront(o, front, tc);
      CombinedFixed(o, front);
      if IdOf(o, tc).Some? { CombinedWithId(o, front, tc); } else { CombinedWithoutId(o, front, tc); }
    }
  }

  lemma DistinctFront(o: Codec, front: seq<ToolCall>, tc: ToolCall)
    requires DistinctKeys(o, front + [tc])
    ensures DistinctKeys(o, front) && Key(o, tc) !in Keys(o, front)
  {
    var calls := front + [tc];
    assert calls[|front|] == tc && forall i :: 0 <= i < |front| ==> calls[i] == front[i];
  }

  lemma {:induction false} FirstPerKeyFixed(o: Codec, calls: seq<ToolCall>)
    requires DistinctKeys(o, calls)
    ensures FirstPerKey(o, calls) == calls
    decreases |calls|
  {
    if calls != [] {
      var front, tc := calls[..|calls| - 1], calls[|calls| - 1];
      assert calls == front + [tc];
      DistinctFront(o, front, tc);
      FirstPerKeyFixed(o, front);
      FirstPerKeySnoc(o, front, tc);
    }
  }

  /** The result has distinct ids and distinct keys, loses no key, and is a fixed point. */
  lemma DedupIsIdempotent(o: Codec, calls: seq<ToolCall>)
    ensures var r := Dedup(o, calls);
      && DistinctIds(o, r) && DistinctKeys(o, r)
      && Keys(o, r) == Keys(o, ById(o, calls) + WithoutId(o, calls))
      && Dedup(o, r) == r
  {
    var combined := ById(o, calls) + WithoutId(o, calls);
    CombinedOrder(o, calls);
    FirstPerKeyKeys(o, combined);
    FirstPerKeyOrder(o, combined);
    CombinedFixed(o, Dedup(o, calls));
    FirstPerKeyFixed(o, Dedup(o, calls));
  }

  lemma DedupOne(o: Codec, tc: ToolCall)
    ensures Dedup(o, [tc]) == [tc]
  {
    CombinedFixed(o, [tc]);
    FirstPerKeyFixed(o, [tc]);
  }

  // ----- which calls survive -----

  function NameText(o: Codec, tc: ToolCall): string { if Truthy(o, tc.name) then AnyStr(o, tc.name) else "" }

  function ArgsText(tc: ToolCall): string { if tc.arguments == "" then "{}" else tc.arguments }

  /** `a` is `b` with a hyphen and more behind it, and the arguments of `b` begin with what makes up for it. */
  ghost predicate Overlaps(a: string, x: string, b: string, y: string)
  {
    exists mid: string :: a == b + ("-" + mid) && y == mid + ("-" + x)
  }

  lemma Joined(a: string, x: string, b: string, y: string)
    requires a + ("-" + x) == b + ("-" + y) && |a| > |b|
    ensures Overlaps(a, x, b, y)
  {
    var all := b + ("-" + y);
    var mid := a[|b| + 1..];
    assert all[..|a|] == a && all[|a|..] == "-" + x;
    assert all[..|b|] == b && all[|b|] == '-' && all[|b| + 1..] == y;
    assert a == b + ("-" + mid);
    assert y == (mid + "-") + x;
  }

  lemma SameLengths(a: string, x: string, b: string, y: string)
    requires a + ("-" + x) == b + ("-" + y) && |a| == |b|
    ensures a == b && x == y
  {
    assert (a + ("-" + x))[..|a|] == a && (b + ("-" + y))[..|b|] == b;
    assert (a + ("-" + x))[|a| + 1..] == x && (b + ("-" + y))[|b| + 1..] == y;
  }

  lemma Rejoined(a: string, x: string, b: string, y: string)
    requires Overlaps(a, x, b, y)
    ensures a + ("-" + x) == b + ("-" + y)
  {
    var mid: string :| a == b + ("-" + mid) && y == mid + ("-" + x);
    assert (b + ("-" + mid)) + ("-" + x) == b + ("-" + (mid + ("-" + x)));
  }

  lemma KeyText(o: Codec, tc: ToolCall)
    ensures Key(o, tc) == NameText(o, tc) + ("-" + ArgsText(tc))
  {
    assert (NameText(o, tc) + "-") + ArgsText(tc) == NameText(o, tc) + ("-" + ArgsText(tc));
  }

  /** Two calls have one key if and only if name and arguments agree, or one name goes on with a hyphen
      where the other's arguments make up for the difference. */
  lemma KeysMeetIff(o: Codec, c: ToolCall, d: ToolCall)
    ensures var a, x, b, y := NameText(o, c), ArgsText(c), NameText(o, d), ArgsText(d);
      Key(o, c) == Key(o, d) <==> (a == b && x == y) || Overlaps(a, x, b, y) || Overlaps(b, y, a, x)
  {
    var a, x, b, y := NameText(o, c), ArgsText(c), NameText(o, d), ArgsText(d);
    KeyText(o, c);
    KeyText(o, d);
    if Key(o, c) == Key(o, d) {
      if |a| > |b| { Joined(a, x, b, y); } else if |b| > |a| { Joined(b, y, a, x); } else { SameLengths(a, x, b, y); }
    }
    if Overlaps(a, x, b, y) { Rejoined(a, x, b, y); }
    if Overlaps(b, y, a, x) { Rejoined(b, y, a, x); }
  }

  /** The longer of two overlapping names has a hyphen. */
  lemma OverlapHasHyphen(a: string, x: string, b: string, y: string)
    requires Overlaps(a, x, b, y)
    ensures '-' in a
  {
    var mid: string :| a == b + ("-" + mid) && y == mid + ("-" + x);
    assert a[|b|] == '-';
  }

  /** No other call is of the id of the one at `i`. */
  predicate IdOfItsOwn(o: Codec, calls: seq<ToolCall>, i: nat)
    requires i < |calls|
  {
    IdOf(o, calls[i]).Some? ==> forall j :: 0 <= j < |calls| && j != i ==> IdOf(o, calls[j]) != IdOf(o, calls[i])
  }

  lemma {:induction false} SeenId(o: Codec, calls: seq<ToolCall>, i: nat)
    requires i < |calls| && IdOf(o, calls[i]).Some?
    ensures IdOf(o, calls[i]).value in Ids(o, calls)
    decreases |calls|
  {
    if i < |calls| - 1 { SeenId(o, calls[..|calls| - 1], i); }
  }

  lemma {:induction false} WithoutIdIs(o: Codec, calls: seq<ToolCall>)
    ensures forall tc :: tc in WithoutId(o, calls) <==> tc in calls && IdOf(o, tc).None?
  {
    if calls != [] {
      WithoutIdIs(o, calls[..|calls| - 1]);
      assert calls == calls[..|calls| - 1] + [calls[|calls| - 1]];
    }
  }

  lemma ByIdIsInput(o: Codec, calls: seq<ToolCall>)
    ensures forall tc :: tc in ById(o, calls) ==> tc in calls
  {
    ByIdIsBest(o, calls);
    var values := ById(o, calls);
    forall k | 0 <= k < |values| ensures values[k] in calls {
      assert BestFor(o, calls, Ids(o, calls)[k], values[k]);
    }
  }

  lemma InCombined(o: Codec, calls: seq<ToolCall>, i: nat)
    requires i < |calls| && IdOfItsOwn(o, calls, i)
    ensures calls[i] in ById(o, calls) + WithoutId(o, calls)
  {
    if IdOf(o, calls[i]).Some? {
      SeenId(o, calls, i);
      ByIdIsBest(o, calls);
      var k := Position(Ids(o, calls), IdOf(o, calls[i]).value);
      assert BestFor(o, calls, Ids(o, calls)[k], ById(o, calls)[k]);
    } else {
      WithoutIdIs(o, calls);
    }
  }

  /** A call with an id of its own, or none, survives unless another call has the same key: the same name
      and arguments, or overlapping ones. */
  lemma OwnCallSurvives(o: Codec, calls: seq<ToolCall>, i: nat)
    requires i < |calls| && IdOfItsOwn(o, calls, i)
    requires forall j :: 0 <= j < |calls| && j != i ==> Key(o, calls[j]) != Key(o, calls[i])
    ensures calls[i] in Dedup(o, calls)
  {
    var combined, c := ById(o, calls) + WithoutId(o, calls), calls[i];
    InCombined(o, calls, i);
    InputOnly(o, calls);
    FirstPerKeyKeys(o, combined);
    KeyKept(o, combined, Dedup(o, calls), c);
    var tc :| tc in Dedup(o, calls) && Key(o, tc) == Key(o, c);
    assert tc in calls;
  }

  lemma InputOnly(o: Codec, calls: seq<ToolCall>)
    ensures forall tc :: tc in ById(o, calls) + WithoutId(o, calls) ==> tc in calls
  {
    ByIdIsInput(o, calls);
    WithoutIdIs(o, calls);
  }

  lemma KeyKept(o: Codec, calls: seq<ToolCall>, r: seq<ToolCall>, c: ToolCall)
    requires OnePerKey(o, calls, r) && c in calls
    ensures exists tc :: tc in r && Key(o, tc) == Key(o, c)
  {
    assert Key(o, c) in Keys(o, calls);
    assert Key(o, c) in Keys(o, r);
  }

  lemma NamesKeepApart(o: Codec, c: ToolCall, d: ToolCall)
    requires '-' !in NameText(o, c) && '-' !in NameText(o, d)
    requires NameText(o, c) != NameText(o, d) || ArgsText(c) != ArgsText(d)
    ensures Key(o, c) != Key(o, d)
  {
    var a, x, b, y := NameText(o, c), ArgsText(c), NameText(o, d), ArgsText(d);
    KeysMeetIff(o, c, d);
    if Overlaps(a, x, b, y) { OverlapHasHyphen(a, x, b, y); }
    if Overlaps(b, y, a, x) { OverlapHasHyphen(b, y, a, x); }
  }

  /** Calls with different ids, or none, whose names have no hyphen and which differ pairwise in name or
      arguments all survive. */
  lemma DifferentCallsSurvive(o: Codec, calls: seq<ToolCall>, i: nat)
    requires i < |calls| && forall k: nat :: k < |calls| ==> IdOfItsOwn(o, calls, k)
    requires forall k :: 0 <= k < |calls| ==> '-' !in NameText(o, calls[k])
    requires forall j, k :: 0 <= j < k < |calls| ==>
      NameText(o, calls[j]) != NameText(o, calls[k]) || ArgsText(calls[j]) != ArgsText(calls[k])
    ensures calls[i] in Dedup(o, calls)
  {
    forall j | 0 <= j < |calls| && j != i ensures Key(o, calls[j]) != Key(o, calls[i]) {
      NamesKeepApart(o, calls[j], calls[i]);
    }
    OwnCallSurvives(o, calls, i);
  }

  /** A call that is lost: the names differ and the arguments differ, but a hyphen makes one key of both. */
  lemma HyphenDropsCall(o: Codec)
    ensures var first, second := ToolCall(Str("1"), Str("a-"), "1", None), ToolCall(Str("2"), Str("a"), "-1", None);
      Dedup(o, [first, second]) == [first]
  {
    var first, second := ToolCall(Str("1"), Str("a-"), "1", None), ToolCall(Str("2"), Str("a"), "-1", None);
    KeyText(o, first);
    KeyText(o, second);
    SecondDropped(o, first, second);
  }

  lemma SecondDropped(o: Codec, first: ToolCall, second: ToolCall)
    requires IdOf(o, first).Some? && IdOf(o, second).Some? && IdOf(o, first) != IdOf(o, second)
    requires Key(o, first) == Key(o, second)
    ensures Dedup(o, [first, second]) == [first]
  {
    OrderMore(o, [first], second);
    assert [first] + [second] == [first, second];
    CombinedFixed(o, [first, second]);
    FirstPerKeyFixed(o, [first]);
    FirstPerKeySnoc(o, [first], second);
    assert first in [first];
    assert [first] + [] == [first];
  }

  /** Calls without an id are only compared by key: an empty id does not make two calls one. */
  lemma EmptyIdsSurvive(o: Codec, id: Json, first: ToolCall, second: ToolCall)
    requires id in [Null, Str("")] && first.id == id && second.id == id && Key(o, first) != Key(o, second)
    ensures Dedup(o, [first, second]) == [first, second]
  {
    OrderMore(o, [first], second);
    assert [first] + [second] == [first, second];
    CombinedFixed(o, [first, second]);
    FirstPerKeyFixed(o, [first, second]);
  }
}
