/** A JSON value as the broker's JSON libraries (jakarta.json, Gson) hold it.

    Objects keep their members in insertion order, as the LinkedHashMap
    behind a parsed JSON object does: several operations of the broker take
    "the first entry" of an object or walk it with `forEach`.  Numbers are
    carried as their literal text; the model never computes with them. */
module Json {
  import opened Wrappers

  datatype Json =
    | JNull
    | JBool(b: bool)
    | JNum(text: string)
    | JStr(s: string)
    | JArr(elems: seq<Json>)
    | JObj(members: seq<Member>)

  datatype Member = Member(key: string, value: Json)

  type Members = seq<Member>

  function Keys(ms: Members): seq<string> {
    seq(|ms|, i requires 0 <= i < |ms| => ms[i].key)
  }

  lemma KeysCons(ms: Members)
    requires ms != []
    ensures Keys(ms) == [ms[0].key] + Keys(ms[1..])
  {
    assert forall i :: 0 <= i < |ms| ==> Keys(ms)[i] == ([ms[0].key] + Keys(ms[1..]))[i];
  }

  /** `containsKey` */
  predicate HasKey(ms: Members, k: string) {
    k in Keys(ms)
  }

  /** `get`: the value of the first member with key `k`. */
  function Get(ms: Members, k: string): (r: Option<Json>)
    ensures r.Some? <==> HasKey(ms, k)
    ensures r.Some? ==> Member(k, r.value) in ms
  {
    if ms == [] then None
    else
      assert Keys(ms) == [ms[0].key] + Keys(ms[1..]);
      if ms[0].key == k then Some(ms[0].value) else Get(ms[1..], k)
  }

  /** `filterKeys { it !in ks }`, also `minus(ks)`: drops the members whose key is in `ks`. */
  function Without(ms: Members, ks: set<string>): (r: Members)
    ensures |r| <= |ms|
    ensures forall m :: m in r <==> m in ms && m.key !in ks
    ensures forall k :: Get(r, k) == if k in ks then None else Get(ms, k)
  {
    if ms == [] then []
    else
      var rest := Without(ms[1..], ks);
      if ms[0].key in ks then rest else [ms[0]] + rest
  }

  /** `filterKeys { it in ks }`: keeps the members whose key is in `ks`. */
  function Only(ms: Members, ks: set<string>): (r: Members)
    ensures |r| <= |ms|
    ensures forall m :: m in r <==> m in ms && m.key in ks
    ensures forall k :: Get(r, k) == if k in ks then Get(ms, k) else None
  {
    if ms == [] then []
    else
      var rest := Only(ms[1..], ks);
      if ms[0].key in ks then [ms[0]] + rest else rest
  }

  /** `MutableMap.replace(k, v)`: a member with key `k` gets value `v`; nothing is added. */
  function Replace(ms: Members, k: string, v: Json): (r: Members)
    ensures Keys(r) == Keys(ms)
    ensures Get(r, k) == if HasKey(ms, k) then Some(v) else None
    ensures forall k' :: k' != k ==> Get(r, k') == Get(ms, k')
  {
    if ms == [] then []
    else
      var rest := Replace(ms[1..], k, v);
      assert Keys(ms) == [ms[0].key] + Keys(ms[1..]);
      var head := if ms[0].key == k then Member(k, v) else ms[0];
      assert Keys([head] + rest) == [head.key] + Keys(rest);
      [head] + rest
  }

  lemma {:induction false} GetAppend(ms: Members, m: Member, k: string)
    ensures Get(ms + [m], k) == if HasKey(ms, k) then Get(ms, k) else if m.key == k then Some(m.value) else None
  {
    if ms != [] {
      assert (ms + [m])[1..] == ms[1..] + [m];
      assert Keys(ms) == [ms[0].key] + Keys(ms[1..]);
      GetAppend(ms[1..], m, k);
    }
  }

  /** `put(k, v)` on a LinkedHashMap, also `plus(k to v)`: an existing key keeps
      its position and takes the new value; a new key is appended. */
  function Put(ms: Members, k: string, v: Json): (r: Members)
    ensures Get(r, k) == Some(v)
    ensures forall k' :: k' != k ==> Get(r, k') == Get(ms, k')
    ensures Keys(r) == if HasKey(ms, k) then Keys(ms) else Keys(ms) + [k]
  {
    if HasKey(ms, k) then Replace(ms, k, v)
    else
      assert Keys(ms + [Member(k, v)]) == Keys(ms) + [k];
      assert forall k' :: Get(ms + [Member(k, v)], k') == if HasKey(ms, k') then Get(ms, k') else if k == k' then Some(v) else None by {
        forall k' ensures Get(ms + [Member(k, v)], k') == if HasKey(ms, k') then Get(ms, k') else if k == k' then Some(v) else None {
          GetAppend(ms, Member(k, v), k');
        }
      }
      ms + [Member(k, v)]
  }

  /** `plus(other)`: every member of `other` is put, in order. */
  function PutAll(ms: Members, other: Members): (r: Members)
    decreases |other|
  {
    if other == [] then ms
    else PutAll(Put(ms, other[0].key, other[0].value), other[1..])
  }

  /** `toString()` of a JSON value (string escaping is not modelled). */
  function Render(j: Json): string {
    match j
    case JNull => "null"
    case JBool(b) => if b then "true" else "false"
    case JNum(t) => t
    case JStr(s) => "\"" + s + "\""
    case JArr(es) => "[" + RenderElems(es) + "]"
    case JObj(ms) => "{" + RenderMembers(ms) + "}"
  }

  function RenderElems(es: seq<Json>): string {
    if es == [] then ""
    else Render(es[0]) + (if |es| == 1 then "" else "," + RenderElems(es[1..]))
  }

  function RenderMembers(ms: Members): string {
    if ms == [] then ""
    else
      "\"" + ms[0].key + "\":" + Render(ms[0].value)
      + (if |ms| == 1 then "" else "," + RenderMembers(ms[1..]))
  }

  // The jakarta.json accessors, with the runtime failure each one raises.

  /** `asJsonArray()` */
  function AsArray(j: Json): Result<seq<Json>> {
    if j.JArr? then Ok(j.elems) else Err(Crash("ClassCastException"))
  }

  /** `asJsonObject()` */
  function AsObject(j: Json): Result<Members> {
    if j.JObj? then Ok(j.members) else Err(Crash("ClassCastException"))
  }

  /** `get(i)` on an array */
  function At(es: seq<Json>, i: nat): Result<Json> {
    if i < |es| then Ok(es[i]) else Err(Crash("IndexOutOfBoundsException"))
  }

  /** `x!!` on a looked-up member */
  function Present(o: Option<Json>): Result<Json> {
    if o.Some? then Ok(o.value) else Err(Crash("NullPointerException"))
  }

  /** `(x as JsonString).string` */
  function AsString(j: Json): Result<string> {
    if j.JStr? then Ok(j.s) else Err(Crash("ClassCastException"))
  }

  /** `getString(k)` on an object */
  function GetString(ms: Members, k: string): Result<string> {
    var v :- Present(Get(ms, k));
    AsString(v)
  }
}
