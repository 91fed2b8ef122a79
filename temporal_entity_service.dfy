/** The temporal representation of entities in the search service: the
    instances of each temporal attribute of an entity, grouped by attribute
    name, in a simplified view (lists of value and observation time pairs)
    or a full view (the stored instance payloads).

    The Kotlin input is a map from temporal attribute to its instances; maps
    keep insertion order, so it is a sequence of pairs here. */
module TemporalEntityService {
  import opened Wrappers
  import opened Json

  // ---------------------------------------------------------------------
  // Input records

  /** `TemporalEntityAttribute.AttributeType`, named as `toString` renders
      it.  The declaration is not part of this model; the service only
      distinguishes Property from the rest. */
  datatype AttributeType = Property | Relationship {
    function Name(): string {
      match this
      case Property => "Property"
      case Relationship => "Relationship"
    }
  }

  /** The fields of a `TemporalEntityAttribute` the service reads; `id`
      keeps two attributes with the same name and dataset apart. */
  datatype TemporalEntityAttribute = TemporalEntityAttribute(
    id: string, entityType: string, attributeName: string, attributeType: AttributeType, datasetId: Option<string>)

  /** `FullAttributeInstanceResult` (the stored payload of an instance) and
      `SimplifiedAttributeInstanceResult` (its value and observation time). */
  datatype AttributeInstanceResult =
    | FullAttributeInstanceResult(payload: string)
    | SimplifiedAttributeInstanceResult(value: Json, observedAt: Json)

  type InstancesResult = seq<(TemporalEntityAttribute, seq<AttributeInstanceResult>)>

  /** The part of `TemporalQuery` the service reads. */
  datatype TemporalQuery = TemporalQuery(timeBucket: Option<string>)

  datatype Ports = Ports(
    /** `JsonLdUtils.compactTerm` */
    compactTerm: (string, seq<string>) -> string,
    /** `Json.createReader(..).readArray()`: the array a payload holds, if it
        parses as one */
    readArray: string -> Option<seq<Json>>)

  // ---------------------------------------------------------------------
  // groupBy

  /** The first components of a sequence of pairs. */
  function Firsts<A, B>(s: seq<(A, B)>): (r: seq<A>)
    ensures |r| == |s| && forall i :: 0 <= i < |s| ==> r[i] == s[i].0
  {
    seq(|s|, i requires 0 <= i < |s| => s[i].0)
  }

  /** The values of the pairs with key `k`, in order: the reference meaning
      of one group. */
  function Filtered<V>(ps: seq<(string, V)>, k: string): seq<V>
    decreases |ps|
  {
    if ps == [] then []
    else Filtered(ps[..|ps| - 1], k) + (if ps[|ps| - 1].0 == k then [ps[|ps| - 1].1] else [])
  }

  function IndexOf<V>(groups: seq<(string, seq<V>)>, k: string): (r: Option<nat>)
    ensures r.Some? ==> r.value < |groups| && groups[r.value].0 == k
    ensures r.None? ==> forall j :: 0 <= j < |groups| ==> groups[j].0 != k
    decreases |groups|
  {
    if groups == [] then None
    else if groups[0].0 == k then Some(0)
    else match IndexOf(groups[1..], k)
      case None => None
      case Some(j) => Some(j + 1)
  }

  /** One step of `groupBy`: `getOrPut(key) { ArrayList() }.add(value)`. */
  function GroupStep<V>(groups: seq<(string, seq<V>)>, p: (string, V)): seq<(string, seq<V>)> {
    match IndexOf(groups, p.0)
    case Some(j) => groups[j := (p.0, groups[j].1 + [p.1])]
    case None => groups + [(p.0, [p.1])]
  }

  /** `groupBy` on the key of each pair, as the library's loop computes it. */
  function Grouped<V>(ps: seq<(string, V)>): seq<(string, seq<V>)>
    decreases |ps|
  {
    if ps == [] then [] else GroupStep(Grouped(ps[..|ps| - 1]), ps[|ps| - 1])
  }

  lemma {:induction false} FilteredAbsent<V>(ps: seq<(string, V)>, k: string)
    requires k !in Firsts(ps)
    ensures Filtered(ps, k) == []
    decreases |ps|
  {
    if ps != [] {
      assert Firsts(ps[..|ps| - 1]) == Firsts(ps)[..|ps| - 1];
      FilteredAbsent(ps[..|ps| - 1], k);
    }
  }

  /** `groupBy` makes one group per distinct key, and each group holds the
      values of that key in input order. */
  lemma {:induction false} GroupedMeaning<V>(ps: seq<(string, V)>)
    ensures forall i, j :: 0 <= i < j < |Grouped(ps)| ==> Grouped(ps)[i].0 != Grouped(ps)[j].0
    ensures forall k :: k in Firsts(Grouped(ps)) <==> k in Firsts(ps)
    ensures forall j :: 0 <= j < |Grouped(ps)| ==> Grouped(ps)[j].1 == Filtered(ps, Grouped(ps)[j].0)
    decreases |ps|
  {
    if ps != [] {
      var before := ps[..|ps| - 1];
      var p := ps[|ps| - 1];
      GroupedMeaning(before);
      var g0 := Grouped(before);
      var g := Grouped(ps);
      assert Firsts(ps) == Firsts(before) + [p.0];
      match IndexOf(g0, p.0)
      case Some(j) =>
        assert g == g0[j := (p.0, g0[j].1 + [p.1])];
        assert Firsts(g) == Firsts(g0);
        forall j' | 0 <= j' < |g|
          ensures g[j'].1 == Filtered(ps, g[j'].0)
        {
          if j' != j {
            assert g[j'] == g0[j'];
          }
        }
      case None =>
        assert g == g0 + [(p.0, [p.1])];
        assert Firsts(g) == Firsts(g0) + [p.0];
        FilteredAbsent(before, p.0);
        forall j' | 0 <= j' < |g|
          ensures g[j'].1 == Filtered(ps, g[j'].0)
        {
          if j' < |g0| {
            assert g[j'] == g0[j'];
          }
        }
    }
  }

  /** Every pair lands in the group of its key. */
  lemma {:induction false} InOwnGroup<V>(ps: seq<(string, V)>, i: nat)
    requires i < |ps|
    ensures exists j :: 0 <= j < |Grouped(ps)| && Grouped(ps)[j].0 == ps[i].0 && ps[i].1 in Grouped(ps)[j].1
    decreases |ps|
  {
    GroupedMeaning(ps);
    assert ps[i].0 in Firsts(ps);
    var j :| 0 <= j < |Grouped(ps)| && Firsts(Grouped(ps))[j] == ps[i].0;
    InFiltered(ps, i);
  }

  lemma {:induction false} InFiltered<V>(ps: seq<(string, V)>, i: nat)
    requires i < |ps|
    ensures ps[i].1 in Filtered(ps, ps[i].0)
    decreases |ps|
  {
    if i < |ps| - 1 {
      InFiltered(ps[..|ps| - 1], i);
    }
  }

  /** The pairs of a temporal map with the attribute name as key. */
  function ByName<V>(m: seq<(TemporalEntityAttribute, V)>): (r: seq<(string, V)>)
    ensures |r| == |m| && forall i :: 0 <= i < |m| ==> r[i] == (m[i].0.attributeName, m[i].1)
  {
    seq(|m|, i requires 0 <= i < |m| => (m[i].0.attributeName, m[i].1))
  }

  // ---------------------------------------------------------------------
  // Simplified view

  /** The list key of the simplified view. */
  function ValuesKey(t: AttributeType): string {
    if t == Property then "values" else "objects"
  }

  /** The `[value, observedAt]` pair of a simplified instance; another kind
      of instance fails the cast. */
  function SimplifiedPair(i: AttributeInstanceResult): (r: Result<Json>)
    ensures i.SimplifiedAttributeInstanceResult? ==> r == Ok(JArr([i.value, i.observedAt]))
    ensures i.FullAttributeInstanceResult? ==> r == Err(Crash("ClassCastException"))
  {
    match i
    case SimplifiedAttributeInstanceResult(value, observedAt) => Ok(JArr([value, observedAt]))
    case FullAttributeInstanceResult(_) => Err(Crash("ClassCastException"))
  }

  function SimplifiedPairs(instances: seq<AttributeInstanceResult>): (r: Result<seq<Json>>)
    ensures r.Ok? <==> forall i :: 0 <= i < |instances| ==> instances[i].SimplifiedAttributeInstanceResult?
    ensures r.Ok? ==> (|r.value| == |instances| &&
      forall i :: 0 <= i < |instances| ==> r.value[i] == JArr([instances[i].value, instances[i].observedAt]))
    ensures r.Err? ==> r == Err(Crash("ClassCastException"))
    decreases |instances|
  {
    if instances == [] then Ok([])
    else
      TailIndex(instances);
      var first :- SimplifiedPair(instances[0]);
      var rest :- SimplifiedPairs(instances[1..]);
      Ok([first] + rest)
  }

  /** The simplified representation of one temporal attribute: its type, its
      dataset id when it has one, and the list of its instances' pairs, in
      this order (the keys are distinct, so each `put` appends). */
  function SimplifiedAttribute(tea: TemporalEntityAttribute, instances: seq<AttributeInstanceResult>): (r: Result<Members>)
    ensures r.Ok? <==> forall i :: 0 <= i < |instances| ==> instances[i].SimplifiedAttributeInstanceResult?
    ensures r.Err? ==> r == Err(Crash("ClassCastException"))
  {
    var pairs :- SimplifiedPairs(instances);
    Ok([Member("type", JStr(tea.attributeType.Name()))]
       + (if tea.datasetId.Some? then [Member("datasetId", JStr(tea.datasetId.value))] else [])
       + [Member(ValuesKey(tea.attributeType), JArr(pairs))])
  }

  /** The simplified representation has "type", "datasetId" exactly when the
      attribute has a dataset id, and the "values" (Property) or "objects"
      list with one `[value, observedAt]` pair per instance, in order. */
  lemma SimplifiedAttributeShape(tea: TemporalEntityAttribute, instances: seq<AttributeInstanceResult>)
    requires SimplifiedAttribute(tea, instances).Ok?
    ensures var a := SimplifiedAttribute(tea, instances).value;
      Get(a, "type") == Some(JStr(tea.attributeType.Name())) &&
      (HasKey(a, "datasetId") <==> tea.datasetId.Some?) &&
      (tea.datasetId.Some? ==> Get(a, "datasetId") == Some(JStr(tea.datasetId.value))) &&
      (forall k :: HasKey(a, k) ==> k in {"type", "datasetId", ValuesKey(tea.attributeType)}) &&
      Get(a, ValuesKey(tea.attributeType)).Some? &&
      var list := Get(a, ValuesKey(tea.attributeType)).value;
      list.JArr? && |list.elems| == |instances| &&
      forall i :: 0 <= i < |instances| ==> list.elems[i] == JArr([instances[i].value, instances[i].observedAt])
  {
    var pairs := SimplifiedPairs(instances).value;
    var a := SimplifiedAttribute(tea, instances).value;
    var key := ValuesKey(tea.attributeType);
    assert key != "type" && key != "datasetId";
    if tea.datasetId.Some? {
      assert a == [Member("type", JStr(tea.attributeType.Name())), Member("datasetId", JStr(tea.datasetId.value)), Member(key, JArr(pairs))];
      assert Keys(a) == ["type", "datasetId", key];
      assert a[1..][1..] == [Member(key, JArr(pairs))];
    } else {
      assert a == [Member("type", JStr(tea.attributeType.Name())), Member(key, JArr(pairs))];
      assert Keys(a) == ["type", key];
      assert a[1..] == [Member(key, JArr(pairs))];
    }
  }

  function SimplifiedEntry(p: (TemporalEntityAttribute, seq<AttributeInstanceResult>)): Result<(TemporalEntityAttribute, Members)> {
    var a :- SimplifiedAttribute(p.0, p.1);
    Ok((p.0, a))
  }

  /** `buildAttributesSimplifiedRepresentation`: the same keys, in the same
      order, each with its simplified representation. */
  function SimplifiedRepresentation(m: InstancesResult): (r: Result<seq<(TemporalEntityAttribute, Members)>>)
    ensures r.Ok? <==> forall i :: 0 <= i < |m| ==> SimplifiedAttribute(m[i].0, m[i].1).Ok?
    ensures r.Ok? ==> (|r.value| == |m| &&
      forall i :: 0 <= i < |m| ==> r.value[i].0 == m[i].0 && SimplifiedAttribute(m[i].0, m[i].1) == Ok(r.value[i].1))
  {
    AllOk(MapAll(m, SimplifiedEntry))
  }

  /** The value of one attribute name in the simplified view: a single
      object for a single group, else an array of them. */
  function SimplifiedValue(groups: seq<Members>): (r: Json)
    ensures |groups| == 1 ==> r == JObj(groups[0])
    ensures |groups| != 1 ==> (r.JArr? && |r.elems| == |groups| && forall i :: 0 <= i < |groups| ==> r.elems[i] == JObj(groups[i]))
  {
    if |groups| == 1 then JObj(groups[0]) else JArr(MapAll(groups, (g: Members) => JObj(g)))
  }

  // ---------------------------------------------------------------------
  // Full view

  /** `readArray` of the payload of a full instance; a simplified instance
      fails the cast and a payload that is not an array fails to parse. */
  function FullInstance(ports: Ports, i: AttributeInstanceResult): (r: Result<Json>)
    ensures i.SimplifiedAttributeInstanceResult? ==> r == Err(Crash("ClassCastException"))
    ensures r.Ok? ==> (i.FullAttributeInstanceResult? && ports.readArray(i.payload).Some? &&
                       r.value == JArr(ports.readArray(i.payload).value))
  {
    match i
    case SimplifiedAttributeInstanceResult(_, _) => Err(Crash("ClassCastException"))
    case FullAttributeInstanceResult(payload) =>
      match ports.readArray(payload)
      case None => Err(Crash("JsonParsingException"))
      case Some(elems) => Ok(JArr(elems))
  }

  /** `flatten` */
  function Flatten<T>(ss: seq<seq<T>>): (r: seq<T>)
    decreases |ss|
  {
    if ss == [] then [] else ss[0] + Flatten(ss[1..])
  }

  /** The value of one attribute name in the full view: an array with one
      element per instance. */
  function FullValue(ports: Ports, instances: seq<AttributeInstanceResult>): (r: Result<Json>)
    ensures r.Ok? <==> forall i :: 0 <= i < |instances| ==> FullInstance(ports, instances[i]).Ok?
    ensures r.Ok? ==> (r.value.JArr? && |r.value.elems| == |instances| &&
      forall i :: 0 <= i < |instances| ==> FullInstance(ports, instances[i]) == Ok(r.value.elems[i]))
  {
    var elems :- AllOk(MapAll(instances, i => FullInstance(ports, i)));
    Ok(JArr(elems))
  }

  // ---------------------------------------------------------------------
  // Temporal attributes and entities

  /** Whether the simplified view is asked for. */
  predicate Simplified(query: TemporalQuery, withTemporalValues: bool) {
    withTemporalValues || query.timeBucket.Some?
  }

  /** The names of a temporal map, once each, in order of first appearance:
      the keys of both views before compaction. */
  function ViewNames(m: InstancesResult): seq<string> {
    Firsts(Grouped(ByName(m)))
  }

  function SimplifiedNamed(groups: seq<(string, seq<Members>)>): (r: seq<(string, Json)>)
    ensures |r| == |groups| && forall i :: 0 <= i < |groups| ==> r[i] == (groups[i].0, SimplifiedValue(groups[i].1))
  {
    MapAll(groups, (g: (string, seq<Members>)) => (g.0, SimplifiedValue(g.1)))
  }

  function FullEntry(ports: Ports, g: (string, seq<seq<AttributeInstanceResult>>)): Result<(string, Json)> {
    var v :- FullValue(ports, Flatten(g.1));
    Ok((g.0, v))
  }

  /** Whether a later entry's name compacts to the same term as entry `i`'s:
      `mapKeys` then keeps the later entry's value, so `mapValues` never sees
      this one. */
  predicate Shadowed<V>(ports: Ports, named: seq<(string, V)>, contexts: seq<string>, i: nat)
    requires i < |named|
  {
    exists j :: i < j < |named| && ports.compactTerm(named[j].0, contexts) == ports.compactTerm(named[i].0, contexts)
  }

  /** The full view of the name groups: `mapKeys` runs first, so only a group
      that no later group shadows is read; a shadowed group keeps its name
      and a placeholder that compaction then overwrites. */
  function FullNamed(ports: Ports, groups: seq<(string, seq<seq<AttributeInstanceResult>>)>, contexts: seq<string>)
    : (r: Result<seq<(string, Json)>>)
    ensures r.Ok? <==> forall i :: 0 <= i < |groups| && !Shadowed(ports, groups, contexts, i) ==>
      FullValue(ports, Flatten(groups[i].1)).Ok?
    ensures r.Ok? ==> (|r.value| == |groups| && forall i :: 0 <= i < |groups| ==>
      r.value[i].0 == groups[i].0 &&
      (!Shadowed(ports, groups, contexts, i) ==> FullValue(ports, Flatten(groups[i].1)) == Ok(r.value[i].1)))
  {
    var entries := seq(|groups|, i requires 0 <= i < |groups| =>
      if Shadowed(ports, groups, contexts, i) then Ok((groups[i].0, JNull)) else FullEntry(ports, groups[i]));
    assert forall i :: 0 <= i < |groups| ==>
      (entries[i].Ok? <==> (!Shadowed(ports, groups, contexts, i) ==> FullValue(ports, Flatten(groups[i].1)).Ok?));
    AllOk(entries)
  }

  /** The named values of a view, before the names are compacted. */
  function ViewNamed(ports: Ports, m: InstancesResult, query: TemporalQuery, contexts: seq<string>, withTemporalValues: bool)
    : (r: Result<seq<(string, Json)>>)
    ensures r.Ok? ==> Firsts(r.value) == ViewNames(m)
  {
    if Simplified(query, withTemporalValues) then
      var attributes :- SimplifiedRepresentation(m);
      assert Firsts(ByName(attributes)) == Firsts(ByName(m));
      GroupsSameNames(ByName(attributes), ByName(m));
      Ok(SimplifiedNamed(Grouped(ByName(attributes))))
    else
      FullNamed(ports, Grouped(ByName(m)), contexts)
  }

  /** `mapKeys { compactTerm(it.key, contexts) }`: entries whose keys compact
      to the same term keep the position of the first and the value of the
      last. */
  function CompactKeys(ports: Ports, named: seq<(string, Json)>, contexts: seq<string>): (r: Members)
    ensures forall k :: HasKey(r, k) <==> exists n :: n in Firsts(named) && ports.compactTerm(n, contexts) == k
    ensures forall i, j :: 0 <= i < j < |r| ==> r[i].key != r[j].key
  {
    var ms := CompactedMembers(ports, named, contexts);
    CompactKeysHas(ports, named, contexts);
    PutAllDistinct([], ms);
    PutAll([], ms)
  }

  function CompactedMembers(ports: Ports, named: seq<(string, Json)>, contexts: seq<string>): (r: Members)
    ensures |r| == |named| && forall i :: 0 <= i < |named| ==> r[i] == Member(ports.compactTerm(named[i].0, contexts), named[i].1)
  {
    MapAll(named, (p: (string, Json)) => Member(ports.compactTerm(p.0, contexts), p.1))
  }

  /** `buildTemporalAttributes`: its keys are the compacted attribute
      names, each once. */
  function TemporalAttributes(ports: Ports, m: InstancesResult, query: TemporalQuery, contexts: seq<string>,
                              withTemporalValues: bool): (r: Result<Members>)
    ensures r.Ok? ==> forall k :: HasKey(r.value, k) <==> exists n :: n in ViewNames(m) && ports.compactTerm(n, contexts) == k
    ensures r.Ok? ==> forall i, j :: 0 <= i < j < |r.value| ==> r.value[i].key != r.value[j].key
  {
    var named :- ViewNamed(ports, m, query, contexts, withTemporalValues);
    Ok(CompactKeys(ports, named, contexts))
  }

  /** Grouping yields the same names for any two maps with the same keys in
      the same order. */
  lemma {:induction false} GroupsSameNames<V, W>(ps: seq<(string, V)>, qs: seq<(string, W)>)
    requires Firsts(ps) == Firsts(qs)
    ensures Firsts(Grouped(ps)) == Firsts(Grouped(qs))
    decreases |ps|
  {
    if ps != [] {
      assert Firsts(ps[..|ps| - 1]) == Firsts(ps)[..|ps| - 1];
      assert Firsts(qs[..|qs| - 1]) == Firsts(qs)[..|qs| - 1];
      GroupsSameNames(ps[..|ps| - 1], qs[..|qs| - 1]);
      assert ps[|ps| - 1].0 == Firsts(ps)[|ps| - 1];
      assert qs[|qs| - 1].0 == Firsts(qs)[|qs| - 1];
      var g := Grouped(ps[..|ps| - 1]);
      var h := Grouped(qs[..|qs| - 1]);
      var k := ps[|ps| - 1].0;
      IndexOfSameNames(g, h, k);
      match IndexOf(g, k)
      case Some(j) =>
        assert Firsts(Grouped(ps)) == Firsts(g) && Firsts(Grouped(qs)) == Firsts(h);
      case None =>
        assert Firsts(Grouped(ps)) == Firsts(g) + [k] && Firsts(Grouped(qs)) == Firsts(h) + [k];
    }
  }

  lemma {:induction false} IndexOfSameNames<V, W>(g: seq<(string, seq<V>)>, h: seq<(string, seq<W>)>, k: string)
    requires Firsts(g) == Firsts(h)
    ensures IndexOf(g, k) == IndexOf(h, k)
    decreases |g|
  {
    if g != [] {
      assert Firsts(g[1..]) == Firsts(g)[1..] && Firsts(h[1..]) == Firsts(h)[1..];
      assert g[0].0 == Firsts(g)[0] && h[0].0 == Firsts(h)[0];
      IndexOfSameNames(g[1..], h[1..], k);
    }
  }

  lemma {:induction false} PutAllHas(ms: Members, other: Members, k: string)
    ensures HasKey(PutAll(ms, other), k) <==> HasKey(ms, k) || k in Keys(other)
    decreases |other|
  {
    if other != [] {
      PutAllHas(Put(ms, other[0].key, other[0].value), other[1..], k);
      KeysCons(other);
    }
  }

  lemma CompactKeysHas(ports: Ports, named: seq<(string, Json)>, contexts: seq<string>)
    ensures forall k :: HasKey(PutAll([], CompactedMembers(ports, named, contexts)), k) <==>
      exists n :: n in Firsts(named) && ports.compactTerm(n, contexts) == k
  {
    var ms := CompactedMembers(ports, named, contexts);
    forall k ensures HasKey(PutAll([], ms), k) <==> exists n :: n in Firsts(named) && ports.compactTerm(n, contexts) == k {
      PutAllHas([], ms, k);
      if k in Keys(ms) {
        var i :| 0 <= i < |ms| && Keys(ms)[i] == k;
        assert Firsts(named)[i] in Firsts(named);
      }
      if exists n :: n in Firsts(named) && ports.compactTerm(n, contexts) == k {
        var n :| n in Firsts(named) && ports.compactTerm(n, contexts) == k;
        var i :| 0 <= i < |named| && Firsts(named)[i] == n;
        assert Keys(ms)[i] == k;
      }
    }
  }

  lemma {:induction false} PutAllGet(ms: Members, other: Members, k: string)
    requires forall i, j :: 0 <= i < j < |other| && other[i].key == k ==> other[j].key != k
    ensures Get(PutAll(ms, other), k) == if HasKey(other, k) then Get(other, k) else Get(ms, k)
    decreases |other|
  {
    if other != [] {
      var o := other[0];
      var rest := other[1..];
      assert forall i, j :: 0 <= i < j < |rest| && rest[i].key == k ==> rest[j].key != k by {
        forall i, j | 0 <= i < j < |rest| && rest[i].key == k ensures rest[j].key != k {
          assert rest[i] == other[i + 1] && rest[j] == other[j + 1];
        }
      }
      var next := Put(ms, o.key, o.value);
      assert PutAll(ms, other) == PutAll(next, rest);
      PutAllGet(next, rest, k);
      KeysCons(other);
    }
  }

  lemma {:induction false} PutAllDistinct(ms: Members, other: Members)
    requires forall i, j :: 0 <= i < j < |ms| ==> ms[i].key != ms[j].key
    ensures forall i, j :: 0 <= i < j < |PutAll(ms, other)| ==> PutAll(ms, other)[i].key != PutAll(ms, other)[j].key
    decreases |other|
  {
    if other != [] {
      var next := Put(ms, other[0].key, other[0].value);
      assert Keys(next) == if HasKey(ms, other[0].key) then Keys(ms) else Keys(ms) + [other[0].key];
      assert forall i, j :: 0 <= i < j < |next| ==> next[i].key != next[j].key by {
        forall i, j | 0 <= i < j < |next| ensures next[i].key != next[j].key {
          assert Keys(next)[i] == next[i].key && Keys(next)[j] == next[j].key;
          if !HasKey(ms, other[0].key) && j == |ms| {
            assert Keys(ms)[i] == ms[i].key;
          } else {
            assert Keys(ms)[i] == ms[i].key && Keys(ms)[j] == ms[j].key;
          }
        }
      }
      PutAllDistinct(next, other[1..]);
    }
  }

  /** The value of the last member with a key wins. */
  lemma {:induction false} PutAllGetLast(ms: Members, other: Members, j: nat)
    requires j < |other|
    requires forall i :: j < i < |other| ==> other[i].key != other[j].key
    ensures Get(PutAll(ms, other), other[j].key) == Some(other[j].value)
    decreases |other|
  {
    var rest := other[1..];
    var next := Put(ms, other[0].key, other[0].value);
    assert PutAll(ms, other) == PutAll(next, rest);
    if j == 0 {
      var k := other[0].key;
      forall i | 0 <= i < |rest| ensures Keys(rest)[i] != k {
        assert rest[i] == other[i + 1];
      }
      assert !HasKey(rest, k);
      PutAllGet(next, rest, k);
    } else {
      assert rest[j - 1] == other[j];
      forall i | j - 1 < i < |rest| ensures rest[i].key != rest[j - 1].key {
        assert rest[i] == other[i + 1];
      }
      PutAllGetLast(next, rest, j - 1);
    }
  }

  /** A name whose compacted term no later name shares keeps its value. */
  lemma CompactKeysLast(ports: Ports, named: seq<(string, Json)>, contexts: seq<string>, j: nat)
    requires j < |named| && !Shadowed(ports, named, contexts, j)
    ensures Get(CompactKeys(ports, named, contexts), ports.compactTerm(named[j].0, contexts)) == Some(named[j].1)
  {
    var ms := CompactedMembers(ports, named, contexts);
    forall i | j < i < |ms| ensures ms[i].key != ms[j].key {
      assert ms[i].key == ports.compactTerm(named[i].0, contexts);
    }
    PutAllGetLast([], ms, j);
  }

  /** `buildTemporalEntity`: "id" and the compacted type of the first
      temporal attribute, then the temporal attributes; an entity without
      any attribute fails on `keys.first()`. */
  function TemporalEntity(ports: Ports, entityId: string, m: InstancesResult, query: TemporalQuery, contexts: seq<string>,
                          withTemporalValues: bool): (r: Result<Members>)
    ensures TemporalAttributes(ports, m, query, contexts, withTemporalValues).Ok? && m == [] ==>
      r == Err(Crash("NoSuchElementException"))
    ensures r.Ok? <==> TemporalAttributes(ports, m, query, contexts, withTemporalValues).Ok? && m != []
  {
    var attributes :- TemporalAttributes(ports, m, query, contexts, withTemporalValues);
    if m == [] then Err(Crash("NoSuchElementException"))
    else
      Ok(PutAll([Member("id", JStr(entityId)), Member("type", JStr(ports.compactTerm(m[0].0.entityType, contexts)))], attributes))
  }

  /** `buildTemporalEntities`: one entity per query result, in order; the
      first failure fails the whole list. */
  function TemporalEntities(ports: Ports, queryResult: seq<(string, InstancesResult)>, query: TemporalQuery,
                            contexts: seq<string>, withTemporalValues: bool): (r: Result<seq<Members>>)
    ensures r.Ok? <==> forall i :: 0 <= i < |queryResult| ==>
      TemporalEntity(ports, queryResult[i].0, queryResult[i].1, query, contexts, withTemporalValues).Ok?
    ensures r.Ok? ==> (|r.value| == |queryResult| && forall i :: 0 <= i < |queryResult| ==>
      TemporalEntity(ports, queryResult[i].0, queryResult[i].1, query, contexts, withTemporalValues) == Ok(r.value[i]))
  {
    AllOk(MapAll(queryResult, (q: (string, InstancesResult)) => TemporalEntity(ports, q.0, q.1, query, contexts, withTemporalValues)))
  }

  // ---------------------------------------------------------------------
  // Properties

  /** A temporal entity has "id" and "type" (unless an attribute compacts
      to one of these terms) and every temporal attribute with its value. */
  lemma TemporalEntityShape(ports: Ports, entityId: string, m: InstancesResult, query: TemporalQuery, contexts: seq<string>,
                            withTemporalValues: bool)
    requires TemporalEntity(ports, entityId, m, query, contexts, withTemporalValues).Ok?
    ensures var e := TemporalEntity(ports, entityId, m, query, contexts, withTemporalValues).value;
      var attributes := TemporalAttributes(ports, m, query, contexts, withTemporalValues).value;
      (!HasKey(attributes, "id") ==> Get(e, "id") == Some(JStr(entityId))) &&
      (!HasKey(attributes, "type") ==> Get(e, "type") == Some(JStr(ports.compactTerm(m[0].0.entityType, contexts)))) &&
      forall k :: HasKey(attributes, k) ==> Get(e, k) == Get(attributes, k)
  {
    var attributes := TemporalAttributes(ports, m, query, contexts, withTemporalValues).value;
    var head := [Member("id", JStr(entityId)), Member("type", JStr(ports.compactTerm(m[0].0.entityType, contexts)))];
    var typed := Member("type", JStr(ports.compactTerm(m[0].0.entityType, contexts)));
    assert head[1..] == [typed];
    assert "id" != "type" by { assert "id"[0] != "type"[0]; }
    assert Get(head, "id") == Some(JStr(entityId));
    assert Get(head[1..], "type") == Some(typed.value);
    assert Get(head, "type") == Get(head[1..], "type");
    forall k ensures Get(PutAll(head, attributes), k) == if HasKey(attributes, k) then Get(attributes, k) else Get(head, k) {
      PutAllGet(head, attributes, k);
    }
  }

  /** Whether no name after the `j`th of a view compacts to the same term:
      the `j`th then gives the value of its key. */
  predicate LastOfTerm(ports: Ports, names: seq<string>, contexts: seq<string>, j: nat) {
    j < |names| && forall i :: j < i < |names| ==> ports.compactTerm(names[i], contexts) != ports.compactTerm(names[j], contexts)
  }

  /** A view entry is shadowed exactly when its name is not the last of its
      compacted term. */
  lemma ShadowedNames<V>(ports: Ports, named: seq<(string, V)>, names: seq<string>, contexts: seq<string>, j: nat)
    requires Firsts(named) == names && j < |names|
    ensures Shadowed(ports, named, contexts, j) <==> !LastOfTerm(ports, names, contexts, j)
  {
    if !LastOfTerm(ports, names, contexts, j) {
      var i :| j < i < |names| && ports.compactTerm(names[i], contexts) == ports.compactTerm(names[j], contexts);
      assert named[i].0 == names[i] && named[j].0 == names[j];
    }
    if Shadowed(ports, named, contexts, j) {
      var i :| j < i < |named| && ports.compactTerm(named[i].0, contexts) == ports.compactTerm(named[j].0, contexts);
      assert names[i] == named[i].0 && names[j] == named[j].0;
    }
  }

  /** In the simplified view, a name whose compacted term no later name
      shares carries its simplified representations as `SimplifiedValue`
      lays them out: one object for one temporal attribute of that name, an
      array of them for several. */
  lemma SimplifiedViewValue(ports: Ports, m: InstancesResult, query: TemporalQuery, contexts: seq<string>,
                            withTemporalValues: bool, j: nat)
    requires Simplified(query, withTemporalValues)
    requires TemporalAttributes(ports, m, query, contexts, withTemporalValues).Ok?
    requires LastOfTerm(ports, ViewNames(m), contexts, j)
    ensures var attributes := SimplifiedRepresentation(m).value;
      Get(TemporalAttributes(ports, m, query, contexts, withTemporalValues).value, ports.compactTerm(ViewNames(m)[j], contexts)) ==
        Some(SimplifiedValue(Filtered(ByName(attributes), ViewNames(m)[j])))
  {
    var attributes := SimplifiedRepresentation(m).value;
    var g := Grouped(ByName(attributes));
    GroupedMeaning(ByName(attributes));
    var named := ViewNamed(ports, m, query, contexts, withTemporalValues).value;
    assert named == SimplifiedNamed(g);
    ShadowedNames(ports, named, ViewNames(m), contexts, j);
    CompactKeysLast(ports, named, contexts, j);
  }

  /** In the full view, a name whose compacted term no later name shares
      carries an array with one element per instance of the temporal
      attributes of that name, their instance lists flattened in input
      order. */
  lemma FullViewValue(ports: Ports, m: InstancesResult, query: TemporalQuery, contexts: seq<string>,
                      withTemporalValues: bool, j: nat)
    requires !Simplified(query, withTemporalValues)
    requires TemporalAttributes(ports, m, query, contexts, withTemporalValues).Ok?
    requires LastOfTerm(ports, ViewNames(m), contexts, j)
    ensures var v := FullValue(ports, Flatten(Filtered(ByName(m), ViewNames(m)[j])));
      v.Ok? &&
      Get(TemporalAttributes(ports, m, query, contexts, withTemporalValues).value, ports.compactTerm(ViewNames(m)[j], contexts)) ==
        Some(v.value)
  {
    var g := Grouped(ByName(m));
    GroupedMeaning(ByName(m));
    var named := ViewNamed(ports, m, query, contexts, withTemporalValues).value;
    ShadowedNames(ports, g, ViewNames(m), contexts, j);
    ShadowedNames(ports, named, ViewNames(m), contexts, j);
    CompactKeysLast(ports, named, contexts, j);
  }

  /** The full view reads only the groups that compaction keeps: it goes
      through exactly when the instances of every name that is the last of
      its compacted term can be read, whatever the shadowed names hold. */
  lemma FullViewReadsKept(ports: Ports, m: InstancesResult, query: TemporalQuery, contexts: seq<string>,
                          withTemporalValues: bool)
    requires !Simplified(query, withTemporalValues)
    ensures TemporalAttributes(ports, m, query, contexts, withTemporalValues).Ok? <==>
      forall j: nat :: LastOfTerm(ports, ViewNames(m), contexts, j) ==>
        FullValue(ports, Flatten(Filtered(ByName(m), ViewNames(m)[j]))).Ok?
  {
    var g := Grouped(ByName(m));
    var names := ViewNames(m);
    GroupedMeaning(ByName(m));
    assert TemporalAttributes(ports, m, query, contexts, withTemporalValues).Ok? <==> FullNamed(ports, g, contexts).Ok?;
    forall j | 0 <= j < |g|
      ensures !Shadowed(ports, g, contexts, j) <==> LastOfTerm(ports, names, contexts, j)
      ensures Flatten(g[j].1) == Flatten(Filtered(ByName(m), names[j]))
    {
      ShadowedNames(ports, g, names, contexts, j);
    }
  }
}
