/** The legacy NGSI-LD to Cypher translator of the context registry:
    classification of the values of a Gson-parsed payload, the namespace of
    a label, the MERGE statements built for one node or one edge, the
    traversal of a payload into entity and relationship statements, and the
    two reverse translations (a query result back to NGSI-LD, one attribute
    to an update query).

    A Gson map is a `Members` list in insertion order; Kotlin's `toString()`
    of a parsed value is `KText`.  Gson's rendering of a map
    (`formatAttributes`), the UUID source and the clock are parameters
    (`Env`). */
module NgsiLdParserService {
  import opened Wrappers
  import opened Json

  // ---------------------------------------------------------------------
  // Values as Kotlin sees them

  /** Kotlin's `toString()` of a Gson value: a string is itself, a list is
      `[a, b]` and a map is `{k=v, k2=v2}`. */
  function KText(j: Json): string {
    match j
    case JNull => "null"
    case JBool(b) => if b then "true" else "false"
    case JNum(t) => t
    case JStr(s) => s
    case JArr(es) => "[" + KTextElems(es) + "]"
    case JObj(ms) => "{" + KTextMembers(ms) + "}"
  }

  function KTextElems(es: seq<Json>): string {
    if es == [] then ""
    else KText(es[0]) + (if |es| == 1 then "" else ", " + KTextElems(es[1..]))
  }

  function KTextMembers(ms: Members): string {
    if ms == [] then ""
    else ms[0].key + "=" + KText(ms[0].value) + (if |ms| == 1 then "" else ", " + KTextMembers(ms[1..]))
  }

  /** `x.toString()` on a looked-up value; a missing one prints "null". */
  function KTextOf(o: Option<Json>): string {
    if o.Some? then KText(o.value) else "null"
  }

  /** `v?.toString()` is not null and equals `t`. */
  predicate TextIs(o: Option<Json>, t: string) {
    o.Some? && o.value != JNull && KText(o.value) == t
  }

  /** Gson's maps have pairwise distinct keys. */
  predicate IsMap(ms: Members) {
    forall i, j :: 0 <= i < j < |ms| ==> ms[i].key != ms[j].key
  }

  // ---------------------------------------------------------------------
  // Classification

  /** `expandObjToMap` */
  function ExpandObjToMap(v: Json): (r: Members)
    ensures v.JObj? ==> r == v.members
    ensures v.JStr? ==> r == [Member(v.s, v)]
    ensures !v.JObj? && !v.JStr? ==> r == []
  {
    match v
    case JObj(ms) => ms
    case JStr(s) => [Member(s, v)]
    case _ => []
  }

  /** `hasAttributes`: the map is kept as a plain value of its parent. */
  predicate HasAttributes(node: Members) {
    |node| == 1 || (|node| == 2 && HasKey(node, "type") && HasKey(node, "value"))
  }

  const PROPERTY := "Property"
  const RELATIONSHIP := "Relationship"
  const GEOPROPERTY := "GeoProperty"

  /** `isProperty` */
  predicate IsProperty(prop: Members) {
    TextIs(Get(prop, "type"), PROPERTY)
  }

  /** `isGeoProperty` */
  predicate IsGeoProperty(prop: Members) {
    TextIs(Get(prop, "type"), GEOPROPERTY)
  }

  /** `isRelationship` */
  predicate IsRelationship(prop: Members) {
    TextIs(Get(prop, "type"), RELATIONSHIP)
  }

  /** `isAttribute` */
  predicate IsAttribute(prop: Members) {
    var t := Get(prop, "type");
    if TextIs(t, PROPERTY) || TextIs(t, RELATIONSHIP) || TextIs(t, GEOPROPERTY) then false
    else if prop == [] then true
    else HasAttributes(prop)
  }

  /** With distinct keys, `hasAttributes` holds exactly for a single entry
      and for the pair of keys "type" and "value". */
  lemma HasAttributesKeys(node: Members)
    requires IsMap(node)
    ensures HasAttributes(node) <==>
      (|node| == 1 || (|node| == 2 && {node[0].key, node[1].key} == {"type", "value"}))
  {
    if |node| == 2 {
      assert Keys(node) == [node[0].key, node[1].key];
    }
  }

  /** A typed attribute is never a plain attribute, an empty map always is,
      and at most one of the three attribute types applies. */
  lemma AttributeClassification(prop: Members)
    ensures IsProperty(prop) || IsRelationship(prop) || IsGeoProperty(prop) ==> !IsAttribute(prop)
    ensures prop == [] ==> IsAttribute(prop)
    ensures !IsProperty(prop) && !IsRelationship(prop) && !IsGeoProperty(prop) && prop != [] ==>
      (IsAttribute(prop) <==> HasAttributes(prop))
    ensures !(IsProperty(prop) && IsRelationship(prop)) && !(IsProperty(prop) && IsGeoProperty(prop)) &&
      !(IsRelationship(prop) && IsGeoProperty(prop))
  {
  }

  /** A string expands to a one-entry map that is a plain attribute and
      carries no attribute type; anything but a map or a string expands to
      the empty map. */
  lemma ExpandedScalars(v: Json)
    requires !v.JObj?
    ensures var content := ExpandObjToMap(v);
      !IsProperty(content) && !IsRelationship(content) && !IsGeoProperty(content) && IsAttribute(content) &&
      (v.JStr? ==> HasAttributes(content) && Get(content, v.s) == Some(v))
  {
    var content := ExpandObjToMap(v);
    if v.JStr? {
      assert Get(content, "type") == if v.s == "type" then Some(JStr("type")) else None;
    }
  }

  // ---------------------------------------------------------------------
  // Namespaces

  const NamespacesMapping: seq<(string, seq<string>)> := [
    ("diat", ["Beekeeper", "BeeHive", "Door", "DoorNumber", "SmartDoor", "Sensor", "Observation", "ObservedBy",
              "ManagedBy", "hasMeasure"]),
    ("ngsild", ["connectsTo", "hasObject", "observedAt", "createdAt", "modifiedAt", "datasetId", "instanceId",
                "GeoProperty", "Point", "Property", "Relationship", "name"]),
    ("example", ["availableSpotNumber", "OffStreetParking", "Vehicle", "isParked", "providedBy", "Camera"])
  ]

  const DEFAULT_NAMESPACE := "ngsild"

  /** The walk of `getLabelNamespace` over a mapping, in its order. */
  function FirstNamespace(mapping: seq<(string, seq<string>)>, name: string): string
    decreases |mapping|
  {
    if mapping == [] then DEFAULT_NAMESPACE
    else if name in mapping[0].1 then mapping[0].0
    else FirstNamespace(mapping[1..], name)
  }

  /** `getLabelNamespace` */
  function GetLabelNamespace(name: string): string {
    FirstNamespace(NamespacesMapping, name)
  }

  /** The first namespace whose list holds the label wins. */
  lemma {:induction false} FirstNamespaceAt(mapping: seq<(string, seq<string>)>, name: string, i: nat)
    requires i < |mapping| && name in mapping[i].1
    requires forall j :: 0 <= j < i ==> name !in mapping[j].1
    ensures FirstNamespace(mapping, name) == mapping[i].0
    decreases i
  {
    if i > 0 {
      assert name !in mapping[0].1;
      FirstNamespaceAt(mapping[1..], name, i - 1);
    }
  }

  /** A name in no list falls back to the core namespace. */
  lemma {:induction false} FirstNamespaceDefault(mapping: seq<(string, seq<string>)>, name: string)
    requires forall j :: 0 <= j < |mapping| ==> name !in mapping[j].1
    ensures FirstNamespace(mapping, name) == DEFAULT_NAMESPACE
    decreases |mapping|
  {
    if mapping != [] {
      assert name !in mapping[0].1;
      FirstNamespaceDefault(mapping[1..], name);
    }
  }

  /** `getLabelNamespace` answers the namespace listing the label, else
      "ngsild"; the three lists are disjoint, so the answer does not depend
      on their order. */
  lemma LabelNamespace(name: string)
    ensures name in NamespacesMapping[0].1 ==> GetLabelNamespace(name) == "diat"
    ensures name in NamespacesMapping[1].1 ==> GetLabelNamespace(name) == "ngsild"
    ensures name in NamespacesMapping[2].1 ==> GetLabelNamespace(name) == "example"
    ensures name !in NamespacesMapping[0].1 && name !in NamespacesMapping[2].1 ==> GetLabelNamespace(name) == "ngsild"
  {
    var m := NamespacesMapping;
    if name in m[0].1 {
      FirstNamespaceAt(m, name, 0);
    } else if name in m[1].1 {
      FirstNamespaceAt(m, name, 1);
    } else if name in m[2].1 {
      FirstNamespaceAt(m, name, 2);
    } else {
      FirstNamespaceDefault(m, name);
    }
  }

  lemma NamespacesDisjoint()
    ensures forall l :: l in NamespacesMapping[0].1 ==> l !in NamespacesMapping[1].1 && l !in NamespacesMapping[2].1
    ensures forall l :: l in NamespacesMapping[1].1 ==> l !in NamespacesMapping[2].1
  {
  }

  // ---------------------------------------------------------------------
  // Statements

  /** The outside world of the translator: Gson's parsing of a payload,
      `formatAttributes` (Gson's rendering of a map with the quotes around
      keys removed), the successive `UUID.randomUUID()` values and the
      formatted clock. */
  datatype Env = Env(fromJson: string -> Result<Members>, format: Members -> string,
                     uuid: nat -> string, now: string)

  /** The value of an `Entity`: a label, its attributes and its namespace. */
  datatype Node = Node(nodeLabel: string, attrs: Members, ns: string)

  /** `getLabelWithPrefix` */
  function LabelWithPrefix(n: Node): string {
    n.ns + "__" + n.nodeLabel
  }

  /** `getUri` */
  function UriOf(n: Node): string {
    KTextOf(Get(n.attrs, "uri"))
  }

  datatype Statements = Statements(entityStatements: seq<string>, relationshipStatements: seq<string>)

  /** The MERGE of one node, matched on its uri. */
  function EntityStatement(labelSubject: string, attrsUriSubj: string, attrsSubj: string): string {
    "MERGE (a : " + labelSubject + " " + attrsUriSubj + ") \nON CREATE SET a = " + attrsSubj +
    " \nON MATCH  SET a += " + attrsSubj + " \nreturn a"
  }

  /** The MERGE of one edge between two nodes matched on their uris. */
  function RelationshipStatement(labelSubject: string, attrsSubj: string, edge: string,
                                 labelObj: string, attrsObj: string): string {
    "MATCH (a : " + labelSubject + " " + attrsSubj + "), (b : " + labelObj + " " + attrsObj +
    " ) \nMERGE (a)-[r:" + edge + "]->(b) \nreturn a,b"
  }

  /** The stamps `buildInsert` puts on a node it merges. */
  function Stamped(attrs: Members, now: string): Members {
    var created := if HasKey(attrs, "createdAt") then attrs else Put(attrs, "createdAt", JStr(now));
    Put(created, "modifiedAt", JStr(now))
  }

  /** `buildInsert`: the statements and the subject afterwards. */
  function BuildInsertStep(subject: Node, edge: Option<string>, obj: Option<Node>, env: Env): (Statements, Node) {
    if edge.None? || obj.None? then
      var attrsUriSubj := env.format([Member("uri", JStr(UriOf(subject)))]);
      var stamped := subject.(attrs := Stamped(subject.attrs, env.now));
      (Statements([EntityStatement(LabelWithPrefix(subject), attrsUriSubj, env.format(stamped.attrs))], []), stamped)
    else
      var attrsSubj := env.format([Member("uri", JStr(UriOf(subject)))]);
      var attrsObj := env.format([Member("uri", JStr(UriOf(obj.value)))]);
      (Statements([], [RelationshipStatement(LabelWithPrefix(subject), attrsSubj, edge.value,
                                             LabelWithPrefix(obj.value), attrsObj)]), subject)
  }

  /** Merging a node yields one entity statement and no relationship
      statement; it always sets modifiedAt, sets createdAt only when absent
      and leaves every other attribute, the label and the namespace as they
      were. */
  lemma BuildInsertNode(subject: Node, edge: Option<string>, obj: Option<Node>, env: Env)
    requires edge.None? || obj.None?
    ensures var (r, after) := BuildInsertStep(subject, edge, obj, env);
      |r.entityStatements| == 1 && r.relationshipStatements == [] &&
      after.nodeLabel == subject.nodeLabel && after.ns == subject.ns && UriOf(after) == UriOf(subject) &&
      Get(after.attrs, "modifiedAt") == Some(JStr(env.now)) &&
      Get(after.attrs, "createdAt") == (if HasKey(subject.attrs, "createdAt") then Get(subject.attrs, "createdAt")
                                        else Some(JStr(env.now))) &&
      (forall k :: k != "createdAt" && k != "modifiedAt" ==> Get(after.attrs, k) == Get(subject.attrs, k))
  {
  }

  /** Linking two nodes yields exactly one relationship statement, no entity
      statement, and leaves the subject as it was. */
  lemma BuildInsertEdge(subject: Node, edge: string, obj: Node, env: Env)
    ensures var (r, after) := BuildInsertStep(subject, Some(edge), Some(obj), env);
      r.entityStatements == [] && |r.relationshipStatements| == 1 && after == subject
  {
  }

  /** The parser's `Entity`, whose attributes `buildInsert` stamps in place. */
  class Entity {
    var nodeLabel: string
    var attrs: Members
    var ns: string

    function Value(): Node
      reads this
    {
      Node(nodeLabel, attrs, ns)
    }

    constructor (nodeLabel: string, initialAttrs: Members, ns: string)
      ensures Value() == Node(nodeLabel, initialAttrs, ns)
    {
      this.nodeLabel := nodeLabel;
      this.attrs := initialAttrs;
      this.ns := ns;
    }
  }

  /** `buildInsert` */
  method BuildInsert(subject: Entity, edge: Option<string>, obj: Option<Entity>, env: Env) returns (r: Statements)
    modifies subject
    ensures (r, subject.Value()) ==
      BuildInsertStep(old(subject.Value()), edge, if obj.Some? then Some(old(obj.value.Value())) else None, env)
  {
    if edge.None? || obj.None? {
      var labelSubject := subject.ns + "__" + subject.nodeLabel;
      var uri := KTextOf(Get(subject.attrs, "uri"));
      var attrsUriSubj := env.format([Member("uri", JStr(uri))]);
      if !HasKey(subject.attrs, "createdAt") {
        subject.attrs := Put(subject.attrs, "createdAt", JStr(env.now));
      }
      subject.attrs := Put(subject.attrs, "modifiedAt", JStr(env.now));
      var attrsSubj := env.format(subject.attrs);
      return Statements([EntityStatement(labelSubject, attrsUriSubj, attrsSubj)], []);
    }
    var o := obj.value;
    var labelObj := o.ns + "__" + o.nodeLabel;
    var labelSubject := subject.ns + "__" + subject.nodeLabel;
    var attrsSubj := env.format([Member("uri", JStr(KTextOf(Get(subject.attrs, "uri"))))]);
    var attrsObj := env.format([Member("uri", JStr(KTextOf(Get(o.attrs, "uri"))))]);
    return Statements([], [RelationshipStatement(labelSubject, attrsSubj, edge.value, labelObj, attrsObj)]);
  }

  // ---------------------------------------------------------------------
  // The plain attributes of a node

  const EXCLUDED_KEYS: set<string> := {"type", "@context", "id"}

  /** `x as Map<String, Any>` */
  function AsMap(o: Option<Json>): Result<Members> {
    if o.None? || o.value == JNull then Err(Crash("TypeCastException"))
    else if o.value.JObj? then Ok(o.value.members)
    else Err(Crash("ClassCastException"))
  }

  /** `x as List<Double>` */
  function AsList(o: Option<Json>): Result<seq<Json>> {
    if o.None? || o.value == JNull then Err(Crash("TypeCastException"))
    else if o.value.JArr? then Ok(o.value.elems)
    else Err(Crash("ClassCastException"))
  }

  /** `coordinates[i]` read as a `Double`, printed as its text. */
  function Coordinate(es: seq<Json>, i: nat): Result<string> {
    if i >= |es| then Err(Crash("IndexOutOfBoundsException"))
    else match es[i]
      case JNum(t) => Ok(t)
      case JNull => Err(Crash("NullPointerException"))
      case _ => Err(Crash("ClassCastException"))
  }

  /** The `mapValues` of `getAttributes`: a string is kept, a GeoProperty
      becomes a Cypher point, a map's "value" is taken, anything else is
      the empty string. */
  function AttributeValue(v: Json): Result<Json> {
    if v.JStr? then Ok(v)
    else
      var content := ExpandObjToMap(v);
      if IsGeoProperty(content) then
        var value :- AsMap(Get(content, "value"));
        var coordinates :- AsList(Get(value, "coordinates"));
        var lon :- Coordinate(coordinates, 0);
        var lat :- Coordinate(coordinates, 1);
        Ok(JStr("point({ x: " + lon + " , y: " + lat + ", crs: 'WGS-84' })"))
      else if HasKey(content, "value") then
        var inner := Get(content, "value").value;
        if inner == JNull then Err(Crash("NullPointerException")) else Ok(inner)
      else Ok(JStr(""))
  }

  /** `getAttributes`: the entries other than "type", "@context" and "id"
      whose value is a plain attribute, with their values flattened. */
  function GetAttributes(node: Members): (r: Result<Members>)
    ensures r.Ok? ==> |r.value| <= |node| && forall m :: m in r.value ==> m.key !in EXCLUDED_KEYS
  {
    if node == [] then Ok([])
    else
      var m := node[0];
      if m.key in EXCLUDED_KEYS || !HasAttributes(ExpandObjToMap(m.value)) then GetAttributes(node[1..])
      else
        var value :- AttributeValue(m.value);
        var rest :- GetAttributes(node[1..]);
        Ok([Member(m.key, value)] + rest)
  }

  /** An entry `getAttributes` keeps: not "type", "@context" or "id", and
      holding attributes. */
  predicate KeptEntry(m: Member) {
    m.key !in EXCLUDED_KEYS && HasAttributes(ExpandObjToMap(m.value))
  }

  /** `getAttributes` succeeds exactly when every kept entry's value can be
      flattened; then its result holds exactly the kept entries, each with
      its flattened value. */
  lemma {:induction false} GetAttributesMembers(node: Members)
    ensures GetAttributes(node).Ok? <==> forall k :: 0 <= k < |node| && KeptEntry(node[k]) ==> AttributeValue(node[k].value).Ok?
    ensures GetAttributes(node).Ok? ==>
      (forall m :: m in GetAttributes(node).value ==>
         exists k :: 0 <= k < |node| && KeptEntry(node[k]) && m == Member(node[k].key, AttributeValue(node[k].value).value)) &&
      (forall k :: 0 <= k < |node| && KeptEntry(node[k]) ==>
         Member(node[k].key, AttributeValue(node[k].value).value) in GetAttributes(node).value)
  {
    if node != [] {
      var tail := node[1..];
      GetAttributesMembers(tail);
      assert forall k :: 1 <= k < |node| ==> node[k] == tail[k - 1];
      if KeptEntry(node[0]) && AttributeValue(node[0].value).Ok? && GetAttributes(tail).Ok? {
        var head := Member(node[0].key, AttributeValue(node[0].value).value);
        assert GetAttributes(node) == Ok([head] + GetAttributes(tail).value);
        assert forall m :: m in [head] + GetAttributes(tail).value <==> m == head || m in GetAttributes(tail).value;
      }
    }
  }

  /** A string entry other than "type", "@context" and "id" is kept as it
      is. */
  lemma {:induction false} StringAttributeKept(node: Members, i: nat)
    requires i < |node| && node[i].key !in EXCLUDED_KEYS && node[i].value.JStr?
    ensures GetAttributes(node).Ok? ==> node[i] in GetAttributes(node).value
    decreases i
  {
    if i == 0 {
      ExpandedScalars(node[0].value);
    } else {
      StringAttributeKept(node[1..], i - 1);
    }
  }

  // ---------------------------------------------------------------------
  // transformNgsiLdToCypher

  /** The statements gathered so far and the number of UUIDs drawn. */
  datatype Trace = Trace(out: Statements, drawn: nat)

  /** `if (new.first.isNotEmpty()) acc.add(new.first[0])`, and the same for
      the relationship statements. */
  function AddFirst(out: Statements, r: Statements): Statements {
    Statements(out.entityStatements + (if r.entityStatements != [] then [r.entityStatements[0]] else []),
               out.relationshipStatements + (if r.relationshipStatements != [] then [r.relationshipStatements[0]] else []))
  }

  function Size(j: Json): nat {
    match j
    case JArr(es) => 1 + SizeElems(es)
    case JObj(ms) => 1 + SizeMembers(ms)
    case _ => 1
  }

  function SizeElems(es: seq<Json>): nat {
    if es == [] then 0 else Size(es[0]) + SizeElems(es[1..])
  }

  function SizeMembers(ms: Members): nat {
    if ms == [] then 0 else 1 + Size(ms[0].value) + SizeMembers(ms[1..])
  }

  /** `split(":")`, which keeps empty parts. */
  function Split(s: string, sep: char): (r: seq<string>)
    ensures |r| >= 1
    decreases |s|
  {
    if s == [] then [""]
    else
      var rest := Split(s[1..], sep);
      if s[0] == sep then [""] + rest else [[s[0]] + rest[0]] + rest[1..]
  }

  /** `node.getOrDefault("id", uuid).toString()` */
  function NodeUuid(node: Members, uuid: Option<string>): string {
    var id := Get(node, "id");
    if id.Some? then KText(id.value) else if uuid.Some? then uuid.value else "null"
  }

  /** The entity of a traversed node: its type as label, its plain
      attributes and its uri; a Property is relabelled with the name of the
      attribute it is the value of. */
  function NodeEntity(node: Members, uuid: Option<string>, parentAttribute: Option<string>): Result<Node> {
    var nodeType := KTextOf(Get(node, "type"));
    var attrs :- GetAttributes(node);
    var entity := Node(nodeType, Put(attrs, "uri", JStr(NodeUuid(node, uuid))), GetLabelNamespace(nodeType));
    if nodeType == PROPERTY && parentAttribute.Some? then
      Ok(entity.(nodeLabel := parentAttribute.value, ns := GetLabelNamespace(parentAttribute.value)))
    else Ok(entity)
  }

  /** The statements of one Relationship entry: the edge from the node to
      the object (unless the node is a Relationship with no parent
      attribute) and the object's node, then one UUID drawn for the
      materialized relationship; `None` when there is no object. */
  function RelationshipLinks(t: Trace, env: Env, nodeEntity: Node, parentIsRelationship: bool,
                             parentAttribute: Option<string>, rel: string, content: Members): Result<Option<(Trace, string)>> {
    var objectField := Get(content, "object");
    if objectField.None? || objectField.value == JNull then Ok(None)
    else ObjectUrnLinks(t, env, nodeEntity, parentIsRelationship, parentAttribute, rel, KText(objectField.value))
  }

  /** The links of a Relationship entry whose object reads as `urn`: the
      object's type is the third `:`-separated part of it. */
  function ObjectUrnLinks(t: Trace, env: Env, nodeEntity: Node, parentIsRelationship: bool,
                          parentAttribute: Option<string>, rel: string, urn: string): Result<Option<(Trace, string)>> {
    var parts := Split(urn, ':');
    if |parts| < 3 then Err(Crash("IndexOutOfBoundsException"))
    else
      var nsPredicate := GetLabelNamespace(rel);
      var withObject := ObjectLinks(t.out, env, nodeEntity, parentIsRelationship, parentAttribute, rel, urn, parts[2]);
      Ok(Some((Trace(withObject, t.drawn + 1), "urn:" + nsPredicate + ":" + rel + ":" + env.uuid(t.drawn))))
  }

  /** What the builder holds and answers after `RelationshipLinks`: its
      failure, no uri and an unchanged trace, or the uri and the new trace. */
  predicate LinksAnswer(spec: Result<Option<(Trace, string)>>, r: Result<Option<string>>, before: Trace, after: Trace) {
    match spec
    case Err(e) => r == Err(e)
    case Ok(None) => r == Ok(None) && after == before
    case Ok(Some(linked)) => r == Ok(Some(linked.1)) && after == linked.0
  }

  /** The edge from the node to the object of a Relationship entry (none
      when the node is a Relationship with no parent attribute), then the
      MERGE of the object's node under the relationship's name. */
  function ObjectLinks(out: Statements, env: Env, nodeEntity: Node, parentIsRelationship: bool,
                       parentAttribute: Option<string>, rel: string, urn: string, typeObj: string): Statements {
    var nsPredicate := GetLabelNamespace(rel);
    var obj := Node(typeObj, [Member("uri", JStr(urn))], GetLabelNamespace(typeObj));
    var linked := if parentIsRelationship && parentAttribute.None? then out
                  else AddFirst(out, BuildInsertStep(nodeEntity, Some(nsPredicate + "__" + rel), Some(obj), env).0);
    AddFirst(linked, BuildInsertStep(Node(rel, [Member("uri", JStr(urn))], nsPredicate), None, None, env).0)
  }

  /** The statement of a materialized Property: a hasObject edge from the
      node to a new node named after the attribute, with a fresh uri. */
  function PropertyLink(t: Trace, env: Env, nodeEntity: Node, labelObj: string): (Trace, string) {
    var nsObj := GetLabelNamespace(labelObj);
    var urn := "urn:" + nsObj + ":" + labelObj + ":" + env.uuid(t.drawn);
    var obj := Node(labelObj, [Member("uri", JStr(urn))], nsObj);
    (Trace(AddFirst(t.out, BuildInsertStep(nodeEntity, Some("ngsild__hasObject"), Some(obj), env).0), t.drawn + 1), urn)
  }

  /** `transformNgsiLdToCypher` on one node: its entries in order, then the
      node's own MERGE. */
  function TransformNodeStep(t: Trace, env: Env, node: Members, uuid: Option<string>,
                             parentAttribute: Option<string>): Result<Trace>
    decreases SizeMembers(node), 2
  {
    var nodeEntity :- NodeEntity(node, uuid, parentAttribute);
    var walked :- TransformItemsStep(t, env, nodeEntity, IsRelationship(node), parentAttribute, node);
    Ok(walked.(out := AddFirst(walked.out, BuildInsertStep(nodeEntity, None, None, env).0)))
  }

  function TransformItemsStep(t: Trace, env: Env, nodeEntity: Node, parentIsRelationship: bool,
                              parentAttribute: Option<string>, items: Members): Result<Trace>
    decreases SizeMembers(items), 1
  {
    if items == [] then Ok(t)
    else
      var next :- TransformItemStep(t, env, nodeEntity, parentIsRelationship, parentAttribute, items[0]);
      TransformItemsStep(next, env, nodeEntity, parentIsRelationship, parentAttribute, items[1..])
  }

  /** One entry of the node: a Relationship links to its object, a Property
      with nested content is materialized and visited. */
  function TransformItemStep(t: Trace, env: Env, nodeEntity: Node, parentIsRelationship: bool,
                             parentAttribute: Option<string>, item: Member): Result<Trace>
    decreases 1 + Size(item.value), 0
  {
    var content := ExpandObjToMap(item.value);
    if IsRelationship(content) then
      var linked :- RelationshipLinks(t, env, nodeEntity, parentIsRelationship, parentAttribute, item.key, content);
      if linked.None? then Ok(t)
      else if !HasAttributes(content) then Ok(linked.value.0)
      else match item.value
        case JObj(ms) => TransformNodeStep(linked.value.0, env, ms, Some(linked.value.1), Some(item.key))
        case _ => Ok(linked.value.0)
    else if IsProperty(content) && !HasAttributes(content) then
      var (next, urn) := PropertyLink(t, env, nodeEntity, item.key);
      match item.value
      case JObj(ms) => TransformNodeStep(next, env, ms, Some(urn), Some(item.key))
      case _ => Ok(next)
    else Ok(t)
  }

  /** `entityMap["id"] as String` */
  function EntityUrn(entityMap: Members): Result<string> {
    var id := Get(entityMap, "id");
    if id.None? || id.value == JNull then Err(Crash("TypeCastException"))
    else if id.value.JStr? then Ok(id.value.s)
    else Err(Crash("ClassCastException"))
  }

  /** `parseEntity`: the entity's urn and the statements of its payload. */
  function ParseEntityStep(env: Env, payload: string): Result<(string, Statements)> {
    var entityMap :- env.fromJson(payload);
    var entityUrn :- EntityUrn(entityMap);
    var walked :- TransformNodeStep(Trace(Statements([], []), 0), env, entityMap, None, None);
    Ok((entityUrn, walked.out))
  }

  // Properties of the traversal

  /** A Relationship without an object (absent or null) is skipped: no
      statement, no UUID. */
  lemma RelationshipWithoutObjectSkipped(t: Trace, env: Env, nodeEntity: Node, parentIsRelationship: bool,
                                         parentAttribute: Option<string>, item: Member)
    requires IsRelationship(ExpandObjToMap(item.value))
    requires Get(ExpandObjToMap(item.value), "object") in {None, Some(JNull)}
    ensures TransformItemStep(t, env, nodeEntity, parentIsRelationship, parentAttribute, item) == Ok(t)
  {
  }

  /** A Relationship that has an object never passes `hasAttributes`, so
      the traversal never descends into a Relationship's own entries. */
  lemma RelationshipNeverDescends(content: Members)
    requires IsRelationship(content) && HasKey(content, "object")
    ensures !HasAttributes(content)
  {
    assert HasKey(content, "type");
    if |content| == 2 {
      assert Keys(content) == [content[0].key, content[1].key];
    }
  }

  /** Only a map value can be a Relationship or a Property, so an entry
      whose value is not a map adds nothing. */
  lemma OnlyMapsDescend(t: Trace, env: Env, nodeEntity: Node, parentIsRelationship: bool,
                        parentAttribute: Option<string>, item: Member)
    requires !item.value.JObj?
    ensures TransformItemStep(t, env, nodeEntity, parentIsRelationship, parentAttribute, item) == Ok(t)
  {
    ExpandedScalars(item.value);
  }

  /** A Property holding just its value (or a single entry) stays a plain
      attribute of its node: nothing is materialized. */
  lemma PlainPropertyNotMaterialized(t: Trace, env: Env, nodeEntity: Node, parentIsRelationship: bool,
                                     parentAttribute: Option<string>, item: Member)
    requires IsProperty(ExpandObjToMap(item.value)) && HasAttributes(ExpandObjToMap(item.value))
    ensures TransformItemStep(t, env, nodeEntity, parentIsRelationship, parentAttribute, item) == Ok(t)
  {
    AttributeClassification(ExpandObjToMap(item.value));
  }

  /** A nested Property is materialized: one hasObject relationship
      statement from the node to a fresh node named after the attribute,
      then the visit of its content under that fresh uri. */
  lemma NestedPropertyMaterialized(t: Trace, env: Env, nodeEntity: Node, parentIsRelationship: bool,
                                   parentAttribute: Option<string>, key: string, ms: Members)
    requires IsProperty(ms) && !HasAttributes(ms)
    ensures var nsObj := GetLabelNamespace(key);
      var urn := "urn:" + nsObj + ":" + key + ":" + env.uuid(t.drawn);
      var edge := RelationshipStatement(LabelWithPrefix(nodeEntity), env.format([Member("uri", JStr(UriOf(nodeEntity)))]),
                                        "ngsild__hasObject", nsObj + "__" + key, env.format([Member("uri", JStr(urn))]));
      TransformItemStep(t, env, nodeEntity, parentIsRelationship, parentAttribute, Member(key, JObj(ms))) ==
        TransformNodeStep(Trace(Statements(t.out.entityStatements, t.out.relationshipStatements + [edge]), t.drawn + 1),
                          env, ms, Some(urn), Some(key))
  {
    AttributeClassification(ms);
    var nsObj := GetLabelNamespace(key);
    var urn := "urn:" + nsObj + ":" + key + ":" + env.uuid(t.drawn);
    var obj := Node(key, [Member("uri", JStr(urn))], nsObj);
    BuildInsertEdge(nodeEntity, "ngsild__hasObject", obj, env);
    var edge := RelationshipStatement(LabelWithPrefix(nodeEntity), env.format([Member("uri", JStr(UriOf(nodeEntity)))]),
                                      "ngsild__hasObject", nsObj + "__" + key, env.format([Member("uri", JStr(urn))]));
    assert UriOf(obj) == urn;
    assert BuildInsertStep(nodeEntity, Some("ngsild__hasObject"), Some(obj), env).0 == Statements([], [edge]);
    assert t.out.entityStatements + [] == t.out.entityStatements;
    assert PropertyLink(t, env, nodeEntity, key) ==
      (Trace(Statements(t.out.entityStatements, t.out.relationshipStatements + [edge]), t.drawn + 1), urn);
  }

  /** The traversal only appends statements and draws UUIDs forward. */
  predicate Extends(t: Trace, u: Trace) {
    t.out.entityStatements <= u.out.entityStatements &&
    t.out.relationshipStatements <= u.out.relationshipStatements &&
    t.drawn <= u.drawn
  }

  lemma ExtendsTrans(t: Trace, u: Trace, v: Trace)
    requires Extends(t, u) && Extends(u, v)
    ensures Extends(t, v)
  {
    assert t.out.entityStatements == u.out.entityStatements[..|t.out.entityStatements|];
    assert t.out.relationshipStatements == u.out.relationshipStatements[..|t.out.relationshipStatements|];
  }

  lemma {:induction false} TransformNodeExtends(t: Trace, env: Env, node: Members, uuid: Option<string>,
                                                parentAttribute: Option<string>)
    ensures var r := TransformNodeStep(t, env, node, uuid, parentAttribute); r.Ok? ==> Extends(t, r.value)
    decreases SizeMembers(node), 2
  {
    var nodeEntity := NodeEntity(node, uuid, parentAttribute);
    if nodeEntity.Ok? {
      TransformItemsExtends(t, env, nodeEntity.value, IsRelationship(node), parentAttribute, node);
      var walked := TransformItemsStep(t, env, nodeEntity.value, IsRelationship(node), parentAttribute, node);
      if walked.Ok? {
        var r := TransformNodeStep(t, env, node, uuid, parentAttribute);
        assert Extends(walked.value, r.value);
        ExtendsTrans(t, walked.value, r.value);
      }
    }
  }

  lemma {:induction false} TransformItemsExtends(t: Trace, env: Env, nodeEntity: Node, parentIsRelationship: bool,
                                                 parentAttribute: Option<string>, items: Members)
    ensures var r := TransformItemsStep(t, env, nodeEntity, parentIsRelationship, parentAttribute, items);
      r.Ok? ==> Extends(t, r.value)
    decreases SizeMembers(items), 1
  {
    if items != [] {
      TransformItemExtends(t, env, nodeEntity, parentIsRelationship, parentAttribute, items[0]);
      var next := TransformItemStep(t, env, nodeEntity, parentIsRelationship, parentAttribute, items[0]);
      if next.Ok? {
        TransformItemsExtends(next.value, env, nodeEntity, parentIsRelationship, parentAttribute, items[1..]);
        var r := TransformItemsStep(next.value, env, nodeEntity, parentIsRelationship, parentAttribute, items[1..]);
        if r.Ok? {
          ExtendsTrans(t, next.value, r.value);
        }
      }
    }
  }

  lemma RelationshipLinksExtend(t: Trace, env: Env, nodeEntity: Node, parentIsRelationship: bool,
                                parentAttribute: Option<string>, rel: string, content: Members)
    ensures var linked := RelationshipLinks(t, env, nodeEntity, parentIsRelationship, parentAttribute, rel, content);
      linked.Ok? && linked.value.Some? ==> Extends(t, linked.value.value.0)
  {
    var objectField := Get(content, "object");
    if objectField.Some? && objectField.value != JNull {
      ObjectUrnLinksExtend(t, env, nodeEntity, parentIsRelationship, parentAttribute, rel, KText(objectField.value));
    }
  }

  lemma ObjectUrnLinksExtend(t: Trace, env: Env, nodeEntity: Node, parentIsRelationship: bool,
                             parentAttribute: Option<string>, rel: string, urn: string)
    ensures var linked := ObjectUrnLinks(t, env, nodeEntity, parentIsRelationship, parentAttribute, rel, urn);
      linked.Ok? && linked.value.Some? ==> Extends(t, linked.value.value.0)
  {
  }

  lemma PropertyLinkExtends(t: Trace, env: Env, nodeEntity: Node, labelObj: string)
    ensures Extends(t, PropertyLink(t, env, nodeEntity, labelObj).0)
  {
  }

  lemma {:induction false} TransformItemExtends(t: Trace, env: Env, nodeEntity: Node, parentIsRelationship: bool,
                                                parentAttribute: Option<string>, item: Member)
    ensures var r := TransformItemStep(t, env, nodeEntity, parentIsRelationship, parentAttribute, item);
      r.Ok? ==> Extends(t, r.value)
    decreases 1 + Size(item.value), 0
  {
    var content := ExpandObjToMap(item.value);
    if IsRelationship(content) {
      var linked := RelationshipLinks(t, env, nodeEntity, parentIsRelationship, parentAttribute, item.key, content);
      RelationshipLinksExtend(t, env, nodeEntity, parentIsRelationship, parentAttribute, item.key, content);
      if linked.Ok? && linked.value.Some? && HasAttributes(content) && item.value.JObj? {
        var next := linked.value.value.0;
        TransformNodeExtends(next, env, item.value.members, Some(linked.value.value.1), Some(item.key));
        var r := TransformNodeStep(next, env, item.value.members, Some(linked.value.value.1), Some(item.key));
        if r.Ok? {
          ExtendsTrans(t, next, r.value);
        }
      }
    } else if IsProperty(content) && !HasAttributes(content) {
      var (next, urn) := PropertyLink(t, env, nodeEntity, item.key);
      PropertyLinkExtends(t, env, nodeEntity, item.key);
      if item.value.JObj? {
        TransformNodeExtends(next, env, item.value.members, Some(urn), Some(item.key));
        var r := TransformNodeStep(next, env, item.value.members, Some(urn), Some(item.key));
        if r.Ok? {
          ExtendsTrans(t, next, r.value);
        }
      }
    }
  }

  /** `parseEntity` answers the payload's "id" and ends with the MERGE of
      the entity itself, stamped. */
  lemma ParseEntityMergesRootLast(env: Env, payload: string)
    ensures var r := ParseEntityStep(env, payload);
      r.Ok? ==> (env.fromJson(payload).Ok? && EntityUrn(env.fromJson(payload).value) == Ok(r.value.0) &&
        NodeEntity(env.fromJson(payload).value, None, None).Ok? &&
        r.value.1.entityStatements != [] &&
        r.value.1.entityStatements[|r.value.1.entityStatements| - 1] ==
          BuildInsertStep(NodeEntity(env.fromJson(payload).value, None, None).value, None, None, env).0.entityStatements[0])
  {
  }

  /** The uri of an entity payload is its "id" string, so the root MERGE
      matches on it. */
  lemma RootUriIsId(entityMap: Members, urn: string)
    requires EntityUrn(entityMap) == Ok(urn) && NodeEntity(entityMap, None, None).Ok?
    ensures UriOf(NodeEntity(entityMap, None, None).value) == urn
  {
  }

  lemma {:induction false} MemberSmaller(ms: Members, i: nat)
    requires i < |ms|
    ensures 1 + Size(ms[i].value) <= SizeMembers(ms)
    decreases i
  {
    if i > 0 {
      MemberSmaller(ms[1..], i - 1);
    }
  }

  /** A method result `r` with its new state `t` agrees with a
      specification answer; on failure the exception carries the error and
      the partial statements are dropped. */
  predicate Reached(r: Result<()>, t: Trace, spec: Result<Trace>) {
    if spec.Ok? then r.Ok? && t == spec.value else r == Err(spec.error)
  }

  /** The accumulator lists of `transformNgsiLdToCypher` and the UUID source. */
  class CypherBuilder {
    var entityStatements: seq<string>
    var relationshipStatements: seq<string>
    var drawn: nat

    function State(): Trace
      reads this
    {
      Trace(Statements(entityStatements, relationshipStatements), drawn)
    }

    constructor ()
      ensures State() == Trace(Statements([], []), 0)
    {
      entityStatements := [];
      relationshipStatements := [];
      drawn := 0;
    }

    /** The two conditional `add`s after each `buildInsert`. */
    method Add(r: Statements)
      modifies this
      ensures State() == old(State()).(out := AddFirst(old(State()).out, r))
    {
      if r.entityStatements != [] {
        entityStatements := entityStatements + [r.entityStatements[0]];
      }
      if r.relationshipStatements != [] {
        relationshipStatements := relationshipStatements + [r.relationshipStatements[0]];
      }
    }

    /** `UUID.randomUUID().toString()` */
    method NextUuid(env: Env) returns (u: string)
      modifies this
      ensures u == env.uuid(old(drawn)) && State() == old(State()).(drawn := old(drawn) + 1)
    {
      u := env.uuid(drawn);
      drawn := drawn + 1;
    }

    /** The links of a Relationship entry; the materialized relationship's
        uri when there is an object. */
    method LinkRelationship(env: Env, nodeEntity: Entity, parentIsRelationship: bool, parentAttribute: Option<string>,
                            rel: string, content: Members) returns (r: Result<Option<string>>)
      modifies this, nodeEntity
      ensures nodeEntity.Value() == old(nodeEntity.Value())
      ensures LinksAnswer(RelationshipLinks(old(State()), env, old(nodeEntity.Value()), parentIsRelationship,
                                            parentAttribute, rel, content), r, old(State()), State())
    {
      var nsPredicate := GetLabelNamespace(rel);
      var edge := nsPredicate + "__" + rel;
      var objectField := Get(content, "object");
      if objectField.None? || objectField.value == JNull {
        return Ok(None);
      }
      var urn := KText(objectField.value);
      r := LinkObjectUrn(env, nodeEntity, parentIsRelationship, parentAttribute, rel, urn);
    }

    /** The same once the object reads as `urn`. */
    method LinkObjectUrn(env: Env, nodeEntity: Entity, parentIsRelationship: bool, parentAttribute: Option<string>,
                         rel: string, urn: string) returns (r: Result<Option<string>>)
      modifies this, nodeEntity
      ensures nodeEntity.Value() == old(nodeEntity.Value())
      ensures LinksAnswer(ObjectUrnLinks(old(State()), env, old(nodeEntity.Value()), parentIsRelationship,
                                         parentAttribute, rel, urn), r, old(State()), State())
    {
      var parts := Split(urn, ':');
      if |parts| < 3 {
        return Err(Crash("IndexOutOfBoundsException"));
      }
      var relationUri := LinkPresentObject(env, nodeEntity, parentIsRelationship, parentAttribute, rel, urn, parts[2]);
      return Ok(Some(relationUri));
    }

    /** The links of a Relationship entry that has an object, then the uri
        of the materialized relationship. */
    method LinkPresentObject(env: Env, nodeEntity: Entity, parentIsRelationship: bool, parentAttribute: Option<string>,
                             rel: string, urn: string, typeObj: string) returns (relationUri: string)
      modifies this, nodeEntity
      ensures nodeEntity.Value() == old(nodeEntity.Value())
      ensures State() == Trace(ObjectLinks(old(State()).out, env, old(nodeEntity.Value()), parentIsRelationship,
                                           parentAttribute, rel, urn, typeObj), old(drawn) + 1)
      ensures relationUri == "urn:" + GetLabelNamespace(rel) + ":" + rel + ":" + env.uuid(old(drawn))
    {
      LinkObject(env, nodeEntity, parentIsRelationship, parentAttribute, rel, urn, typeObj);
      var str := NextUuid(env);
      return "urn:" + GetLabelNamespace(rel) + ":" + rel + ":" + str;
    }

    /** The two `buildInsert`s of a Relationship entry with an object. */
    method LinkObject(env: Env, nodeEntity: Entity, parentIsRelationship: bool, parentAttribute: Option<string>,
                      rel: string, urn: string, typeObj: string)
      modifies this, nodeEntity
      ensures nodeEntity.Value() == old(nodeEntity.Value())
      ensures State() == old(State()).(out := ObjectLinks(old(State()).out, env, old(nodeEntity.Value()),
                                                         parentIsRelationship, parentAttribute, rel, urn, typeObj))
    {
      var nsPredicate := GetLabelNamespace(rel);
      var edge := nsPredicate + "__" + rel;
      var nsObj := GetLabelNamespace(typeObj);
      if parentIsRelationship {
        if parentAttribute.Some? {
          var target := new Entity(typeObj, [Member("uri", JStr(urn))], nsObj);
          var newStatements := BuildInsert(nodeEntity, Some(edge), Some(target), env);
          Add(newStatements);
        }
      } else {
        var target := new Entity(typeObj, [Member("uri", JStr(urn))], GetLabelNamespace(typeObj));
        var newStatements := BuildInsert(nodeEntity, Some(edge), Some(target), env);
        Add(newStatements);
      }
      var relationNode := new Entity(rel, [Member("uri", JStr(urn))], nsPredicate);
      var newStatements := BuildInsert(relationNode, None, None, env);
      Add(newStatements);
    }

    /** The hasObject link of a nested Property; the uri of its node. */
    method MaterializeProperty(env: Env, nodeEntity: Entity, labelObj: string) returns (urn: string)
      modifies this, nodeEntity
      ensures nodeEntity.Value() == old(nodeEntity.Value())
      ensures (State(), urn) == PropertyLink(old(State()), env, old(nodeEntity.Value()), labelObj)
    {
      var nsObj := GetLabelNamespace(labelObj);
      var str := NextUuid(env);
      urn := "urn:" + nsObj + ":" + labelObj + ":" + str;
      var target := new Entity(labelObj, [Member("uri", JStr(urn))], nsObj);
      var newStatements := BuildInsert(nodeEntity, Some("ngsild__hasObject"), Some(target), env);
      Add(newStatements);
    }

    /** One iteration of the `for (item in node)` loop. */
    method TransformItem(env: Env, nodeEntity: Entity, parentIsRelationship: bool, parentAttribute: Option<string>,
                         item: Member) returns (r: Result<()>)
      modifies this, nodeEntity
      ensures nodeEntity.Value() == old(nodeEntity.Value())
      ensures Reached(r, State(), TransformItemStep(old(State()), env, old(nodeEntity.Value()), parentIsRelationship,
                                                    parentAttribute, item))
      decreases 1 + Size(item.value), 0
    {
      var content := ExpandObjToMap(item.value);
      if IsRelationship(content) {
        var linked := LinkRelationship(env, nodeEntity, parentIsRelationship, parentAttribute, item.key, content);
        if linked.Err? {
          return Err(linked.error);
        }
        if linked.value.Some? && HasAttributes(content) && item.value.JObj? {
          r := TransformNode(env, item.value.members, Some(linked.value.value), Some(item.key));
          return;
        }
        return Ok(());
      }
      if IsProperty(content) && !HasAttributes(content) {
        var urn := MaterializeProperty(env, nodeEntity, item.key);
        if item.value.JObj? {
          r := TransformNode(env, item.value.members, Some(urn), Some(item.key));
          return;
        }
      }
      return Ok(());
    }

    /** The `for (item in node)` loop. */
    method TransformItems(env: Env, nodeEntity: Entity, parentIsRelationship: bool, parentAttribute: Option<string>,
                          node: Members) returns (r: Result<()>)
      modifies this, nodeEntity
      ensures nodeEntity.Value() == old(nodeEntity.Value())
      ensures Reached(r, State(), TransformItemsStep(old(State()), env, old(nodeEntity.Value()), parentIsRelationship,
                                                     parentAttribute, node))
      decreases SizeMembers(node), 1
    {
      ghost var entity := nodeEntity.Value();
      var i := 0;
      while i < |node|
        invariant 0 <= i <= |node|
        invariant nodeEntity.Value() == entity
        invariant TransformItemsStep(State(), env, entity, parentIsRelationship, parentAttribute, node[i..]) ==
                  TransformItemsStep(old(State()), env, entity, parentIsRelationship, parentAttribute, node)
      {
        assert node[i..][0] == node[i] && node[i..][1..] == node[i + 1..];
        MemberSmaller(node, i);
        r := TransformItem(env, nodeEntity, parentIsRelationship, parentAttribute, node[i]);
        if r.Err? {
          return;
        }
        i := i + 1;
      }
      return Ok(());
    }

    /** `transformNgsiLdToCypher` */
    method TransformNode(env: Env, node: Members, uuid: Option<string>, parentAttribute: Option<string>)
      returns (r: Result<()>)
      modifies this
      ensures Reached(r, State(), TransformNodeStep(old(State()), env, node, uuid, parentAttribute))
      decreases SizeMembers(node), 2
    {
      var parentIsRelationship := IsRelationship(node);
      var nodeType := KTextOf(Get(node, "type"));
      var nodeUuid := NodeUuid(node, uuid);
      var nsSubj := GetLabelNamespace(nodeType);
      var attrs := GetAttributes(node);
      if attrs.Err? {
        return Err(attrs.error);
      }
      var nodeEntity := new Entity(nodeType, Put(attrs.value, "uri", JStr(nodeUuid)), nsSubj);
      if nodeType == PROPERTY && parentAttribute.Some? {
        nodeEntity.ns := GetLabelNamespace(parentAttribute.value);
        nodeEntity.nodeLabel := parentAttribute.value;
      }
      ghost var entity := nodeEntity.Value();
      assert NodeEntity(node, uuid, parentAttribute) == Ok(entity);
      r := TransformItems(env, nodeEntity, parentIsRelationship, parentAttribute, node);
      if r.Err? {
        return;
      }
      var newStatements := BuildInsert(nodeEntity, None, None, env);
      Add(newStatements);
      return Ok(());
    }
  }

  /** `parseEntity` */
  method ParseEntity(env: Env, payload: string) returns (r: Result<(string, Statements)>)
    ensures r == ParseEntityStep(env, payload)
  {
    var entityMap := env.fromJson(payload);
    if entityMap.Err? {
      return Err(entityMap.error);
    }
    var entityUrn := EntityUrn(entityMap.value);
    if entityUrn.Err? {
      return Err(entityUrn.error);
    }
    var builder := new CypherBuilder();
    var done := builder.TransformNode(env, entityMap.value, None, None);
    if done.Err? {
      return Err(done.error);
    }
    return Ok((entityUrn.value, Statements(builder.entityStatements, builder.relationshipStatements)));
  }

  // ---------------------------------------------------------------------
  // queryResultToNgsiLd

  /** One entry of an OGM node's `propertyList`. */
  datatype NodeProperty = NodeProperty(key: string, value: Json)

  /** The OGM `NodeModel` a query row holds under "n" (its numeric id is
      only logged). */
  datatype NodeModel = NodeModel(labels: seq<string>, propertyList: seq<NodeProperty>)

  const CONTEXTS: seq<string> := [
    "https://diatomic.eglobalmark.com/diatomic-context.jsonld",
    "https://uri.etsi.org/ngsi-ld/v1/ngsi-ld-core-context.jsonld",
    "https://fiware.github.io/dataModels/fiware-datamodels-context.jsonld"
  ]

  /** `contextsMap["@context"]` */
  const CONTEXT_VALUE: Json := JArr([JStr(CONTEXTS[0]), JStr(CONTEXTS[1]), JStr(CONTEXTS[2])])

  /** `propertyList.find { it.key == "uri" }` */
  function FindUri(ps: seq<NodeProperty>): (r: Option<NodeProperty>)
    ensures r.Some? ==> r.value in ps && r.value.key == "uri"
    ensures r.None? ==> forall p :: p in ps ==> p.key != "uri"
  {
    if ps == [] then None else if ps[0].key == "uri" then Some(ps[0]) else FindUri(ps[1..])
  }

  /** An NGSI-LD Property holding a stored value. */
  function PropertyObject(v: Json): Json {
    JObj([Member("type", JStr(PROPERTY)), Member("value", v)])
  }

  /** The `filter { it.key != "uri" }.map { ... }` of `queryResultToNgsiLd`. */
  function PropertyEntries(ps: seq<NodeProperty>): Members {
    if ps == [] then []
    else if ps[0].key == "uri" then PropertyEntries(ps[1..])
    else [Member(ps[0].key, PropertyObject(ps[0].value))] + PropertyEntries(ps[1..])
  }

  /** `queryResultToNgsiLd`, given the row's "n" (absent when missing). */
  function QueryResultToNgsiLd(n: Option<NodeModel>): Result<Members> {
    if n.None? then Err(Crash("TypeCastException"))
    else
      var uriProperty := FindUri(n.value.propertyList);
      if uriProperty.None? then Err(Crash("NullPointerException"))
      else if n.value.labels == [] then Err(Crash("ArrayIndexOutOfBoundsException"))
      else
        var head := [Member("id", uriProperty.value.value), Member("type", JStr(n.value.labels[0]))];
        Ok(PutAll(PutAll(head, PropertyEntries(n.value.propertyList)), [Member("@context", CONTEXT_VALUE)]))
  }

  /** The value `plus` leaves under `k`: that of the last member with key `k`. */
  function LastGet(ms: Members, k: string): Option<Json>
    decreases |ms|
  {
    if ms == [] then None
    else
      var rest := LastGet(ms[1..], k);
      if rest.Some? then rest else if ms[0].key == k then Some(ms[0].value) else None
  }

  lemma {:induction false} GetPutAll(ms: Members, other: Members, k: string)
    ensures Get(PutAll(ms, other), k) == if LastGet(other, k).Some? then LastGet(other, k) else Get(ms, k)
    decreases |other|
  {
    if other != [] {
      GetPutAll(Put(ms, other[0].key, other[0].value), other[1..], k);
    }
  }

  /** The value of the last stored property named `k`. */
  function LastValue(ps: seq<NodeProperty>, k: string): Option<Json>
    decreases |ps|
  {
    if ps == [] then None
    else
      var rest := LastValue(ps[1..], k);
      if rest.Some? then rest else if ps[0].key == k then Some(ps[0].value) else None
  }

  lemma {:induction false} PropertyEntriesGet(ps: seq<NodeProperty>, k: string)
    ensures LastGet(PropertyEntries(ps), k) ==
      if k == "uri" || LastValue(ps, k).None? then None else Some(PropertyObject(LastValue(ps, k).value))
    decreases |ps|
  {
    if ps != [] {
      PropertyEntriesGet(ps[1..], k);
      if ps[0].key != "uri" {
        assert PropertyEntries(ps)[1..] == PropertyEntries(ps[1..]);
      }
    }
  }

  /** `queryResultToNgsiLd` fails only without a node, without a uri
      property or without a label. */
  lemma QueryResultFails(n: Option<NodeModel>)
    ensures QueryResultToNgsiLd(n).Err? <==>
      n.None? || (forall p :: p in n.value.propertyList ==> p.key != "uri") || n.value.labels == []
  {
    if n.Some? && FindUri(n.value.propertyList).None? && n.value.propertyList != [] {
      assert n.value.propertyList[0] in n.value.propertyList;
    }
  }

  /** The entity built from a node: "@context" holds the three contexts;
      every stored property but the uri becomes a Property holding its
      value; otherwise "id" is the uri and "type" the first label, and any
      other key is absent. */
  lemma QueryResultShape(n: Option<NodeModel>, k: string)
    requires QueryResultToNgsiLd(n).Ok?
    ensures var r := QueryResultToNgsiLd(n).value;
      var ps := n.value.propertyList;
      Get(r, "@context") == Some(CONTEXT_VALUE) &&
      (k != "@context" && k != "uri" && LastValue(ps, k).Some? ==> Get(r, k) == Some(PropertyObject(LastValue(ps, k).value))) &&
      (k != "@context" && (k == "uri" || LastValue(ps, k).None?) ==>
        Get(r, k) == (if k == "id" then Some(FindUri(ps).value.value)
                      else if k == "type" then Some(JStr(n.value.labels[0])) else None))
  {
    var ps := n.value.propertyList;
    var head := [Member("id", FindUri(ps).value.value), Member("type", JStr(n.value.labels[0]))];
    var withProperties := PutAll(head, PropertyEntries(ps));
    GetPutAll(withProperties, [Member("@context", CONTEXT_VALUE)], "@context");
    GetPutAll(withProperties, [Member("@context", CONTEXT_VALUE)], k);
    GetPutAll(head, PropertyEntries(ps), k);
    PropertyEntriesGet(ps, k);
  }

  // ---------------------------------------------------------------------
  // ngsiLdToUpdateQuery

  /** The update of one attribute from a payload map: the uri and a MERGE
      matched on the uri that sets modifiedAt and the attribute's text; the
      query is empty when the attribute is absent or null. */
  function UpdateQuery(payloadMap: Members, uri: string, attr: string, timestamp: string,
                       format: Members -> string): (string, string) {
    var found := Get(payloadMap, attr);
    if found.Some? && found.value != JNull then
      var attrsUriMatch := format([Member("uri", JStr(uri))]);
      var attrsUriSubj := format(UpdatedAttributes(uri, attr, KText(found.value), timestamp));
      (uri, "MERGE (a " + attrsUriMatch + ") ON  MATCH  SET a += " + attrsUriSubj + " return a")
    else (uri, "")
  }

  /** `mapOf("uri" to uri, "modifiedAt" to timestamp, attr to value)` */
  function UpdatedAttributes(uri: string, attr: string, value: string, timestamp: string): Members {
    Put(Put([Member("uri", JStr(uri))], "modifiedAt", JStr(timestamp)), attr, JStr(value))
  }

  /** `ngsiLdToUpdateQuery` as written: the payload string itself goes
      through `expandObjToMap`, which makes the one-entry map {payload:
      payload} of it. */
  function NgsiLdToUpdateQueryAsWritten(payload: string, uri: string, attr: string, timestamp: string,
                                        format: Members -> string): (string, string) {
    UpdateQuery(ExpandObjToMap(JStr(payload)), uri, attr, timestamp, format)
  }

  /** As written, an update query is produced only when the attribute's
      name is the whole payload text. */
  lemma UpdateQueryAsWrittenIgnoresPayload(payload: string, uri: string, attr: string, timestamp: string,
                                           format: Members -> string)
    ensures var (u, query) := NgsiLdToUpdateQueryAsWritten(payload, uri, attr, timestamp, format);
      u == uri && (query != "" <==> attr == payload)
  {
  }

  /** An update of "name" in the payload {"name": "Bob"} yields no query as
      written, and a query once the payload is parsed. */
  lemma UpdateQueryAsWrittenDropsAttribute(uri: string, timestamp: string, format: Members -> string)
    ensures NgsiLdToUpdateQueryAsWritten("{\"name\":\"Bob\"}", uri, "name", timestamp, format).1 == ""
    ensures UpdateQuery([Member("name", JStr("Bob"))], uri, "name", timestamp, format).1 != ""
  {
    assert "name" != "{\"name\":\"Bob\"}";
  }

  /** `ngsiLdToUpdateQuery` as intended: the payload is parsed into a map
      first. */
  function NgsiLdToUpdateQuery(env: Env, payload: string, uri: string, attr: string, timestamp: string): Result<(string, string)> {
    var payloadMap :- env.fromJson(payload);
    Ok(UpdateQuery(payloadMap, uri, attr, timestamp, env.format))
  }

  /** The intended update: a query exactly when the payload holds the
      attribute with a non-null value; that query sets the attribute to the
      value's text, modifiedAt to the timestamp, and keeps the uri. */
  lemma UpdateQueryOfPayload(env: Env, payload: string, uri: string, attr: string, timestamp: string)
    requires env.fromJson(payload).Ok?
    ensures var payloadMap := env.fromJson(payload).value;
      var found := Get(payloadMap, attr);
      var r := NgsiLdToUpdateQuery(env, payload, uri, attr, timestamp);
      r.Ok? && r.value.0 == uri && (r.value.1 != "" <==> found.Some? && found.value != JNull)
  {
  }

  lemma UpdatedAttributesSet(uri: string, attr: string, value: string, timestamp: string)
    ensures var m := UpdatedAttributes(uri, attr, value, timestamp);
      Get(m, attr) == Some(JStr(value)) &&
      (attr != "modifiedAt" ==> Get(m, "modifiedAt") == Some(JStr(timestamp))) &&
      (attr != "uri" && attr != "modifiedAt" ==> Get(m, "uri") == Some(JStr(uri)) && |m| == 3)
  {
    var first := [Member("uri", JStr(uri))];
    assert Keys(first) == ["uri"];
    var second := Put(first, "modifiedAt", JStr(timestamp));
    assert Keys(second) == ["uri", "modifiedAt"];
  }
}
