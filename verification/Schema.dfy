/** The JSON-schema sanitizer for tool parameters. Main result: at every depth it removes exactly
    `additionalProperties` and empty `required` at schema positions and changes nothing else. */
module Schema {
  import opened Json

  const REQUIRED := "required"
  const ADDITIONAL := "additionalProperties"
  const PROPERTIES := "properties"

  // ----- the sanitizer -----

  /** A key that Kiro rejects at a schema position. */
  predicate Rejected(m: Member) { (m.key == REQUIRED && m.value == Arr([])) || m.key == ADDITIONAL }

  /** SanitizeJSONSchema on the members of an object. */
  function SanitizeMembers(ms: seq<Member>): (r: seq<Member>)
    ensures |r| <= |ms|
    decreases ms, 0
  {
    if ms == [] then []
    else (if Rejected(ms[0]) then [] else [SanitizeMember(ms[0])]) + SanitizeMembers(ms[1..])
  }

  /** The value of one key, by key and by kind. */
  function SanitizeMember(m: Member): (r: Member)
    ensures r.key == m.key
    decreases m, 0
  {
    if m.key == PROPERTIES && m.value.Obj? then Member(m.key, Obj(SanitizeProperties(m.value.members)))
    else
      match m.value
      case Obj(members) => Member(m.key, Obj(SanitizeMembers(members)))
      case Arr(items) => Member(m.key, Arr(SanitizeItems(items)))
      case _ => m
  }

  function SanitizeIfObject(v: Json): Json
    decreases v, 0
  {
    if v.Obj? then Obj(SanitizeMembers(v.members)) else v
  }

  /** sanitizeProperties: names are names here, whatever they spell. */
  function SanitizeProperties(props: seq<Member>): (r: seq<Member>)
    ensures |r| == |props| && forall i :: 0 <= i < |r| ==> r[i].key == props[i].key
    decreases props, 0
  {
    if props == [] then []
    else [Member(props[0].key, SanitizeIfObject(props[0].value))] + SanitizeProperties(props[1..])
  }

  /** sanitizeSchemaList. */
  function SanitizeItems(items: seq<Json>): (r: seq<Json>)
    ensures |r| == |items|
    decreases items, 0
  {
    if items == [] then [] else [SanitizeIfObject(items[0])] + SanitizeItems(items[1..])
  }

  // ----- what a clean schema is, independently -----

  predicate CleanMembers(ms: seq<Member>)
    decreases ms, 0
  {
    ms == [] || (!Rejected(ms[0]) && CleanMember(ms[0]) && CleanMembers(ms[1..]))
  }

  predicate CleanMember(m: Member)
    decreases m, 0
  {
    if m.key == PROPERTIES && m.value.Obj? then CleanProperties(m.value.members)
    else
      match m.value
      case Obj(members) => CleanMembers(members)
      case Arr(items) => CleanItems(items)
      case _ => true
  }

  predicate CleanIfObject(v: Json)
    decreases v, 0
  {
    v.Obj? ==> CleanMembers(v.members)
  }

  predicate CleanProperties(props: seq<Member>)
    decreases props, 0
  {
    props == [] || (CleanIfObject(props[0].value) && CleanProperties(props[1..]))
  }

  predicate CleanItems(items: seq<Json>)
    decreases items, 0
  {
    items == [] || (CleanIfObject(items[0]) && CleanItems(items[1..]))
  }

  // ----- the results -----

  lemma ConsEqual<T>(a: T, s: seq<T>, b: T, t: seq<T>)
    ensures [a] + s == [b] + t <==> a == b && s == t
    ensures ([a] + s)[0] == a && ([a] + s)[1..] == s
  {
    assert ([a] + s)[1..] == s && ([b] + t)[1..] == t;
    assert ([a] + s)[0] == a && ([b] + t)[0] == b;
  }

  /** The result is clean, and a schema is unchanged exactly when it was clean. */
  lemma {:induction false} SanitizedMembers(ms: seq<Member>)
    ensures CleanMembers(SanitizeMembers(ms)) && (SanitizeMembers(ms) == ms <==> CleanMembers(ms))
    decreases ms, 0
  {
    if ms != [] {
      SanitizedMembers(ms[1..]);
      SanitizedMember(ms[0]);
      var rest := SanitizeMembers(ms[1..]);
      assert ms == [ms[0]] + ms[1..];
      if Rejected(ms[0]) {
        assert [] + rest == rest;
      } else {
        ConsEqual(SanitizeMember(ms[0]), rest, ms[0], ms[1..]);
        NotRejected(ms[0]);
      }
    }
  }

  /** Sanitizing a value cannot empty a `required` list. */
  lemma NotRejected(m: Member)
    requires !Rejected(m)
    ensures !Rejected(SanitizeMember(m))
  {
  }

  lemma {:induction false} SanitizedMember(m: Member)
    ensures CleanMember(SanitizeMember(m)) && (SanitizeMember(m) == m <==> CleanMember(m))
    decreases m, 0
  {
    if m.key == PROPERTIES && m.value.Obj? {
      SanitizedProperties(m.value.members);
    } else {
      match m.value
      case Obj(members) => SanitizedMembers(members);
      case Arr(items) => SanitizedItems(items);
      case _ =>
    }
  }

  lemma {:induction false} SanitizedIfObject(v: Json)
    ensures CleanIfObject(SanitizeIfObject(v)) && (SanitizeIfObject(v) == v <==> CleanIfObject(v))
    decreases v, 0
  {
    if v.Obj? { SanitizedMembers(v.members); }
  }

  lemma {:induction false} SanitizedProperties(props: seq<Member>)
    ensures CleanProperties(SanitizeProperties(props))
    ensures SanitizeProperties(props) == props <==> CleanProperties(props)
    decreases props, 0
  {
    if props != [] {
      SanitizedIfObject(props[0].value);
      SanitizedProperties(props[1..]);
      var first := Member(props[0].key, SanitizeIfObject(props[0].value));
      assert props == [props[0]] + props[1..];
      ConsEqual(first, SanitizeProperties(props[1..]), props[0], props[1..]);
    }
  }

  lemma {:induction false} SanitizedItems(items: seq<Json>)
    ensures CleanItems(SanitizeItems(items)) && (SanitizeItems(items) == items <==> CleanItems(items))
    decreases items, 0
  {
    if items != [] {
      SanitizedIfObject(items[0]);
      SanitizedItems(items[1..]);
      assert items == [items[0]] + items[1..];
      ConsEqual(SanitizeIfObject(items[0]), SanitizeItems(items[1..]), items[0], items[1..]);
    }
  }

  /** Sanitizing twice is sanitizing once. */
  lemma SanitizeIsIdempotent(ms: seq<Member>)
    ensures SanitizeMembers(SanitizeMembers(ms)) == SanitizeMembers(ms)
  {
    SanitizedMembers(ms);
    SanitizedMembers(SanitizeMembers(ms));
  }

  // ----- nothing else changes, at any depth -----

  /** The places from `i` on of the members that stay, in order. */
  function KeptFrom(ms: seq<Member>, i: nat): (places: seq<nat>)
    requires i <= |ms|
    ensures forall j :: 0 <= j < |places| ==> i <= places[j] < |ms|
    decreases |ms| - i
  {
    if i == |ms| then [] else (if Rejected(ms[i]) then [] else [i]) + KeptFrom(ms, i + 1)
  }

  predicate Increasing(places: seq<nat>) { forall j, k :: 0 <= j < k < |places| ==> places[j] < places[k] }

  /** From `i` on the places are those of the members that are not rejected. */
  predicate Covers(ms: seq<Member>, i: nat, places: seq<nat>)
  {
    forall p :: i <= p < |ms| ==> (p in places <==> !Rejected(ms[p]))
  }

  lemma ConsIncreasing(i: nat, places: seq<nat>)
    requires Increasing(places) && forall j :: 0 <= j < |places| ==> i < places[j]
    ensures Increasing([i] + places)
  {
  }

  lemma ConsCovers(ms: seq<Member>, i: nat, places: seq<nat>)
    requires i < |ms| && Covers(ms, i + 1, places) && forall j :: 0 <= j < |places| ==> i < places[j]
    ensures Covers(ms, i, (if Rejected(ms[i]) then [] else [i]) + places)
  {
    var all := (if Rejected(ms[i]) then [] else [i]) + places;
    forall p | i <= p < |ms| ensures p in all <==> !Rejected(ms[p]) {
      assert p in all <==> (p == i && !Rejected(ms[i])) || p in places;
      assert i !in places;
    }
  }

  /** These are all places of members that are not rejected, each once and in order. */
  lemma {:induction false} KeptFromIs(ms: seq<Member>, i: nat)
    requires i <= |ms|
    ensures Increasing(KeptFrom(ms, i)) && Covers(ms, i, KeptFrom(ms, i))
    decreases |ms| - i
  {
    if i < |ms| {
      var rest := KeptFrom(ms, i + 1);
      KeptFromIs(ms, i + 1);
      ConsCovers(ms, i, rest);
      ConsIncreasing(i, rest);
      assert [] + rest == rest;
    }
  }

  /** `r` is `ms` without exactly the rejected members, each of the others under its key, in its order. */
  predicate PrunedMembers(ms: seq<Member>, r: seq<Member>)
    decreases ms, 0
  {
    var places := KeptFrom(ms, 0);
    && |r| == |places|
    && forall j :: 0 <= j < |r| ==>
         r[j].key == ms[places[j]].key && PrunedValue(ms[places[j]], r[j].value)
  }

  /** `w` is what becomes of the value of `m`: property names all stay, whatever they spell; an array keeps
      its length; every other value is the same. */
  predicate PrunedValue(m: Member, w: Json)
    decreases m, 0
  {
    match m.value
    case Obj(members) =>
      && w.Obj?
      && if m.key == PROPERTIES then PrunedProperties(members, w.members) else PrunedMembers(members, w.members)
    case Arr(items) =>
      w.Arr? && |w.items| == |items| && forall i :: 0 <= i < |items| ==> PrunedIfObject(items[i], w.items[i])
    case _ => w == m.value
  }

  predicate PrunedProperties(props: seq<Member>, r: seq<Member>)
    decreases props, 0
  {
    && |r| == |props|
    && forall i :: 0 <= i < |props| ==> r[i].key == props[i].key && PrunedIfObject(props[i].value, r[i].value)
  }

  predicate PrunedIfObject(v: Json, w: Json)
    decreases v, 0
  {
    if v.Obj? then w.Obj? && PrunedMembers(v.members, w.members) else w == v
  }

  lemma {:induction false} SanitizedFrom(ms: seq<Member>, i: nat)
    requires i <= |ms|
    ensures var r, places := SanitizeMembers(ms[i..]), KeptFrom(ms, i);
      |r| == |places| && forall j :: 0 <= j < |r| ==> r[j] == SanitizeMember(ms[places[j]])
    decreases |ms| - i
  {
    if i < |ms| {
      SanitizedFrom(ms, i + 1);
      assert ms[i..][0] == ms[i] && ms[i..][1..] == ms[i + 1..];
    }
  }

  lemma {:induction false} PropertyAt(props: seq<Member>, i: nat)
    requires i < |props|
    ensures SanitizeProperties(props)[i] == Member(props[i].key, SanitizeIfObject(props[i].value))
  {
    if i > 0 { PropertyAt(props[1..], i - 1); }
  }

  lemma {:induction false} ItemAt(items: seq<Json>, i: nat)
    requires i < |items|
    ensures SanitizeItems(items)[i] == SanitizeIfObject(items[i])
  {
    if i > 0 { ItemAt(items[1..], i - 1); }
  }

  /** The sanitizer's result is the pruned schema, and nothing else is. */
  lemma {:induction false} PrunedIff(ms: seq<Member>, r: seq<Member>)
    ensures PrunedMembers(ms, r) <==> r == SanitizeMembers(ms)
    decreases ms, 0
  {
    var s, places := SanitizeMembers(ms), KeptFrom(ms, 0);
    SanitizedFrom(ms, 0);
    assert ms[0..] == ms;
    if |r| == |places| {
      forall j | 0 <= j < |r|
        ensures r[j].key == ms[places[j]].key && PrunedValue(ms[places[j]], r[j].value) <==> r[j] == s[j]
      {
        PrunedValueIff(ms[places[j]], r[j].value);
      }
    }
  }

  lemma {:induction false} PrunedValueIff(m: Member, w: Json)
    ensures PrunedValue(m, w) <==> w == SanitizeMember(m).value
    decreases m, 0
  {
    match m.value
    case Obj(members) =>
      if w.Obj? {
        if m.key == PROPERTIES { PrunedPropertiesIff(members, w.members); } else { PrunedIff(members, w.members); }
      }
    case Arr(items) =>
      if w.Arr? { PrunedItemsIff(items, w.items); }
    case _ =>
  }

  lemma {:induction false} PrunedPropertiesIff(props: seq<Member>, r: seq<Member>)
    ensures PrunedProperties(props, r) <==> r == SanitizeProperties(props)
    decreases props, 0
  {
    if |r| == |props| {
      var s := SanitizeProperties(props);
      forall i | 0 <= i < |props|
        ensures r[i].key == props[i].key && PrunedIfObject(props[i].value, r[i].value) <==> r[i] == s[i]
      {
        PropertyAt(props, i);
        PrunedIfObjectIff(props[i].value, r[i].value);
      }
    }
  }

  lemma {:induction false} PrunedItemsIff(items: seq<Json>, r: seq<Json>)
    ensures |r| == |items| && (forall i :: 0 <= i < |items| ==> PrunedIfObject(items[i], r[i])) <==>
      r == SanitizeItems(items)
    decreases items, 0
  {
    if |r| == |items| {
      var s := SanitizeItems(items);
      forall i | 0 <= i < |items| ensures PrunedIfObject(items[i], r[i]) <==> r[i] == s[i] {
        ItemAt(items, i);
        PrunedIfObjectIff(items[i], r[i]);
      }
    }
  }

  lemma {:induction false} PrunedIfObjectIff(v: Json, w: Json)
    ensures PrunedIfObject(v, w) <==> w == SanitizeIfObject(v)
    decreases v, 0
  {
    if v.Obj? && w.Obj? { PrunedIff(v.members, w.members); }
  }
}
