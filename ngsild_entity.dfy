/** The validated NGSI-LD entity built from an expanded JSON-LD entity: a
    set of Properties, Relationships and GeoProperties, each holding one or
    more instances told apart by their datasetId.  Building it checks the
    invariants of an entity; a failing check is the error the broker answers
    with. */
module NgsiLdEntity {
  import opened Wrappers
  import opened Json
  import opened JsonLdUtils
  import J = JsonLdEntity

  // ---------------------------------------------------------------------
  // Data model

  datatype GeoPropertyType = Point | Polygon

  /** A coordinate pair, each number kept as its literal text. */
  datatype Position = Position(longitude: string, latitude: string)

  datatype Coordinates =
    | PointCoordinates(position: Position)
    | PolygonCoordinates(vertices: seq<Position>)

  /** What each kind of instance holds besides the fields all instances share. */
  datatype Payload =
    | PropertyPayload(value: PropValue, unitCode: Option<string>)
    | RelationshipPayload(objectId: string)
    | GeoPayload(geoPropertyType: GeoPropertyType, coordinates: Coordinates)

  datatype Instance = Instance(
    observedAt: Option<string>,
    datasetId: Option<string>,
    properties: seq<Attribute>,
    relationships: seq<Attribute>,
    payload: Payload)

  datatype Attribute = Attribute(kind: NgsiLdAttributeType, name: string, instances: seq<Instance>) {
    /** `compactName` */
    function CompactName(): string {
      ShortType(name)
    }
  }

  datatype NgsiLdEntity = NgsiLdEntity(
    id: string,
    entityType: string,
    relationships: seq<Attribute>,
    properties: seq<Attribute>,
    geoProperties: seq<Attribute>,
    contexts: seq<string>)

  /** The expanded type URI of each attribute type. */
  function TypeUri(kind: NgsiLdAttributeType): string {
    match kind
    case PROPERTY => NGSILD_PROPERTY_TYPE
    case GEOPROPERTY => NGSILD_GEOPROPERTY_TYPE
    case RELATIONSHIP => NGSILD_RELATIONSHIP_TYPE
  }

  const NGSILD_ENTITY_CORE_MEMBERS: set<string> := {JSONLD_ID, JSONLD_TYPE}
  const NGSILD_ATTRIBUTES_CORE_MEMBERS: set<string> :=
    {JSONLD_TYPE, NGSILD_CREATED_AT_PROPERTY, NGSILD_MODIFIED_AT_PROPERTY, NGSILD_OBSERVED_AT_PROPERTY, NGSILD_DATASET_ID_PROPERTY}
  const NGSILD_PROPERTIES_CORE_MEMBERS: set<string> :=
    {NGSILD_PROPERTY_VALUE, NGSILD_UNIT_CODE_PROPERTY} + NGSILD_ATTRIBUTES_CORE_MEMBERS
  const NGSILD_RELATIONSHIPS_CORE_MEMBERS: set<string> :=
    {NGSILD_RELATIONSHIP_HAS_OBJECT} + NGSILD_ATTRIBUTES_CORE_MEMBERS
  const NGSILD_GEOPROPERTIES_CORE_MEMBERS: set<string> :=
    {NGSILD_GEOPROPERTY_VALUE} + NGSILD_ATTRIBUTES_CORE_MEMBERS

  function CoreMembersOf(kind: NgsiLdAttributeType): set<string> {
    match kind
    case PROPERTY => NGSILD_PROPERTIES_CORE_MEMBERS
    case RELATIONSHIP => NGSILD_RELATIONSHIPS_CORE_MEMBERS
    case GEOPROPERTY => NGSILD_GEOPROPERTIES_CORE_MEMBERS
  }

  // ---------------------------------------------------------------------
  // Names

  /** `isLetterOrDigit()` over ASCII, or ':' or '_'. */
  predicate IsSupportedChar(c: char) {
    ('a' <= c <= 'z') || ('A' <= c <= 'Z') || ('0' <= c <= '9') || c == ':' || c == '_'
  }

  /** `isNgsiLdSupportedName` */
  predicate IsNgsiLdSupportedName(s: string) {
    s == [] || (IsSupportedChar(s[0]) && IsNgsiLdSupportedName(s[1..]))
  }

  // ---------------------------------------------------------------------
  // Invariants of a validated entity

  predicate PayloadOfKind(kind: NgsiLdAttributeType, payload: Payload) {
    match kind
    case PROPERTY => payload.PropertyPayload?
    case RELATIONSHIP => payload.RelationshipPayload?
    case GEOPROPERTY => payload.GeoPayload?
  }

  function DatasetIds(instances: seq<Instance>): seq<Option<string>> {
    seq(|instances|, j requires 0 <= j < |instances| => instances[j].datasetId)
  }

  /** The number of default instances, those without a datasetId. */
  function DefaultInstances(instances: seq<Instance>): nat {
    if instances == [] then 0
    else (if instances[0].datasetId.None? then 1 else 0) + DefaultInstances(instances[1..])
  }

  predicate Distinct<T(==)>(s: seq<T>) {
    forall i, j :: 0 <= i < j < |s| ==> s[i] != s[j]
  }

  function Names(attributes: seq<Attribute>): (r: seq<string>)
    ensures |r| == |attributes|
  {
    if attributes == [] then [] else [attributes[0].name] + Names(attributes[1..])
  }

  /** What a built attribute satisfies: a legal compact name, instances of
      its own kind, at most one default instance, pairwise distinct
      datasetIds, and valid nested attributes. */
  predicate ValidAttribute(a: Attribute)
    decreases a
  {
    IsNgsiLdSupportedName(a.CompactName()) &&
    DefaultInstances(a.instances) <= 1 &&
    Distinct(DatasetIds(a.instances)) &&
    forall j :: 0 <= j < |a.instances| ==> PayloadOfKind(a.kind, a.instances[j].payload) && ValidInstance(a.instances[j])
  }

  /** The attributes of an attribute are only Properties and Relationships. */
  predicate ValidInstance(i: Instance)
    decreases i
  {
    (forall j :: 0 <= j < |i.properties| ==> i.properties[j].kind == PROPERTY && ValidAttribute(i.properties[j])) &&
    (forall j :: 0 <= j < |i.relationships| ==> i.relationships[j].kind == RELATIONSHIP && ValidAttribute(i.relationships[j]))
  }


  /** Attributes of one kind, each valid. */
  predicate AllValid(kind: NgsiLdAttributeType, attributes: seq<Attribute>)
    decreases |attributes|
  {
    attributes == [] ||
    (attributes[0].kind == kind && ValidAttribute(attributes[0]) && AllValid(kind, attributes[1..]))
  }

  /** A validated entity: a type with a supported short name, and valid
      attributes of each kind. */
  predicate ValidEntity(e: NgsiLdEntity) {
    IsNgsiLdSupportedName(ShortType(e.entityType)) &&
    AllValid(RELATIONSHIP, e.relationships) && AllValid(PROPERTY, e.properties) && AllValid(GEOPROPERTY, e.geoProperties)
  }

  lemma {:induction false} AllValidAt(kind: NgsiLdAttributeType, attributes: seq<Attribute>)
    requires AllValid(kind, attributes)
    ensures forall j :: 0 <= j < |attributes| ==> attributes[j].kind == kind && ValidAttribute(attributes[j])
    decreases |attributes|
  {
    if attributes != [] {
      var tail := attributes[1..];
      AllValidAt(kind, tail);
      forall j | 1 <= j < |attributes|
        ensures attributes[j].kind == kind && ValidAttribute(attributes[j])
      {
        assert attributes[j] == tail[j - 1];
      }
    }
  }

  // ---------------------------------------------------------------------
  // Distinct datasetIds, as `toSet().count() == count()`

  function ToSet<T>(s: seq<T>): set<T> {
    set x | x in s
  }

  lemma {:induction false} ToSetSize<T>(s: seq<T>)
    ensures |ToSet(s)| <= |s|
  {
    if s != [] {
      assert ToSet(s) == {s[0]} + ToSet(s[1..]);
      ToSetSize(s[1..]);
    }
  }

  /** The duplicate check is exactly pairwise distinctness. */
  lemma {:induction false} DistinctIffSetSize<T>(s: seq<T>)
    ensures |ToSet(s)| == |s| <==> Distinct(s)
  {
    if s != [] {
      var rest := s[1..];
      assert ToSet(s) == {s[0]} + ToSet(rest);
      DistinctIffSetSize(rest);
      if s[0] in rest {
        assert ToSet(s) == ToSet(rest);
        ToSetSize(rest);
        var j :| 0 <= j < |rest| && rest[j] == s[0];
        assert s[0] == s[j + 1];
      } else {
        assert s[0] !in ToSet(rest);
        assert Distinct(s) <==> Distinct(rest) by {
          if Distinct(rest) {
            forall i, j | 0 <= i < j < |s| ensures s[i] != s[j] {
              if i > 0 {
                assert s[i] == rest[i - 1] && s[j] == rest[j - 1];
              } else {
                assert s[j] == rest[j - 1];
              }
            }
          }
          if Distinct(s) {
            forall i, j | 0 <= i < j < |rest| ensures rest[i] != rest[j] {
              assert rest[i] == s[i + 1] && rest[j] == s[j + 1];
            }
          }
        }
      }
    }
  }

  /** Distinct datasetIds leave room for one default instance at most, so
      the default-instance check only decides which message is given. */
  lemma {:induction false} DistinctHasOneDefault(instances: seq<Instance>)
    requires Distinct(DatasetIds(instances))
    ensures DefaultInstances(instances) <= 1
  {
    if instances != [] {
      var rest := instances[1..];
      assert Distinct(DatasetIds(rest)) by {
        forall i, j | 0 <= i < j < |rest| ensures DatasetIds(rest)[i] != DatasetIds(rest)[j] {
          assert DatasetIds(rest)[i] == DatasetIds(instances)[i + 1];
          assert DatasetIds(rest)[j] == DatasetIds(instances)[j + 1];
        }
      }
      DistinctHasOneDefault(rest);
      if instances[0].datasetId.None? {
        NoDefaultAfter(instances);
      }
    }
  }

  lemma {:induction false} NoDefaultAfter(instances: seq<Instance>)
    requires instances != [] && instances[0].datasetId.None?
    requires Distinct(DatasetIds(instances))
    ensures DefaultInstances(instances[1..]) == 0
    decreases |instances|
  {
    var rest := instances[1..];
    if rest != [] {
      assert DatasetIds(instances)[0] != DatasetIds(instances)[1];
      assert rest[0].datasetId.Some?;
      var shifted := [instances[0]] + rest[1..];
      assert Distinct(DatasetIds(shifted)) by {
        forall i, j | 0 <= i < j < |shifted| ensures DatasetIds(shifted)[i] != DatasetIds(shifted)[j] {
          var i' := if i == 0 then 0 else i + 1;
          assert DatasetIds(shifted)[i] == DatasetIds(instances)[i'];
          assert DatasetIds(shifted)[j] == DatasetIds(instances)[j + 1];
        }
      }
      NoDefaultAfter(shifted);
      assert shifted[1..] == rest[1..];
    }
  }

  // ---------------------------------------------------------------------
  // Reading an expanded attribute

  /** `isAttributeOfType`: the first entry of the @type array is the type URI.
      A missing or non-array @type is not of any type; an empty array or a
      non-string first entry fails. */
  function IsAttributeOfType(attributeValues: Members, kind: NgsiLdAttributeType): (r: Result<bool>)
    ensures r == Ok(true) <==> exists types: seq<Json> ::
      Get(attributeValues, JSONLD_TYPE) == Some(JArr(types)) && |types| > 0 && types[0] == JStr(TypeUri(kind))
    ensures r.Err? <==> exists types: seq<Json> ::
      Get(attributeValues, JSONLD_TYPE) == Some(JArr(types)) && (|types| == 0 || !types[0].JStr?)
  {
    match Get(attributeValues, JSONLD_TYPE)
    case Some(JArr(types)) =>
      var first :- At(types, 0);
      var t :- AsString(first);
      Ok(t == TypeUri(kind))
    case _ => Ok(false)
  }

  /** The classification `getAttributesOfType` applies to a value: its first
      instance (`asJsonArray().getJsonObject(0)`) is of the type. */
  function FirstInstanceOfType(v: Json, kind: NgsiLdAttributeType): (r: Result<bool>)
    ensures r.Ok? ==> v.JArr? && |v.elems| > 0 && v.elems[0].JObj? && r == IsAttributeOfType(v.elems[0].members, kind)
  {
    var instances :- AsArray(v);
    var first :- At(instances, 0);
    var values :- AsObject(first);
    IsAttributeOfType(values, kind)
  }

  /** A value classifies as at most one attribute type. */
  lemma ClassificationExclusive(v: Json, k1: NgsiLdAttributeType, k2: NgsiLdAttributeType)
    requires FirstInstanceOfType(v, k1) == Ok(true) && FirstInstanceOfType(v, k2) == Ok(true)
    ensures k1 == k2
  {
    var types: seq<Json> :| Get(v.elems[0].members, JSONLD_TYPE) == Some(JArr(types)) && |types| > 0 && types[0] == JStr(TypeUri(k1));
    assert types[0] == JStr(TypeUri(k2));
  }

  /** Whether a value classifies as one of the types an entity (all three)
      or an attribute instance (no GeoProperty) may hold. */
  predicate IsClassified(v: Json, withGeo: bool) {
    FirstInstanceOfType(v, RELATIONSHIP) == Ok(true) || FirstInstanceOfType(v, PROPERTY) == Ok(true) ||
    (withGeo && FirstInstanceOfType(v, GEOPROPERTY) == Ok(true))
  }

  /** The keys, in order, of the non-core members that classify as `kind`. */
  function KeysOfType(ms: Members, core: set<string>, kind: NgsiLdAttributeType): seq<string> {
    if ms == [] then []
    else
      var rest := KeysOfType(ms[1..], core, kind);
      if ms[0].key !in core && FirstInstanceOfType(ms[0].value, kind) == Ok(true) then [ms[0].key] + rest else rest
  }

  /** The keys of the non-core members that classify as none of the types. */
  function UnclassifiedKeys(ms: Members, core: set<string>, withGeo: bool): (r: seq<string>)
    ensures r == [] <==> forall m :: m in ms && m.key !in core ==> IsClassified(m.value, withGeo)
  {
    if ms == [] then []
    else
      var rest := UnclassifiedKeys(ms[1..], core, withGeo);
      assert forall m :: m in ms <==> m == ms[0] || m in ms[1..];
      if ms[0].key !in core && !IsClassified(ms[0].value, withGeo) then [ms[0].key] + rest else rest
  }

  /** Every non-core member is counted once: in the keys of its type, or as
      unclassified. */
  lemma {:induction false} ClassificationPartition(ms: Members, core: set<string>, withGeo: bool)
    ensures |KeysOfType(ms, core, RELATIONSHIP)| + |KeysOfType(ms, core, PROPERTY)| +
            (if withGeo then |KeysOfType(ms, core, GEOPROPERTY)| else 0) + |UnclassifiedKeys(ms, core, withGeo)|
            == |Without(ms, core)|
  {
    if ms != [] {
      ClassificationPartition(ms[1..], core, withGeo);
      var v := ms[0].value;
      if FirstInstanceOfType(v, RELATIONSHIP) == Ok(true) && FirstInstanceOfType(v, PROPERTY) == Ok(true) {
        ClassificationExclusive(v, RELATIONSHIP, PROPERTY);
      }
      if FirstInstanceOfType(v, RELATIONSHIP) == Ok(true) && FirstInstanceOfType(v, GEOPROPERTY) == Ok(true) {
        ClassificationExclusive(v, RELATIONSHIP, GEOPROPERTY);
      }
      if FirstInstanceOfType(v, PROPERTY) == Ok(true) && FirstInstanceOfType(v, GEOPROPERTY) == Ok(true) {
        ClassificationExclusive(v, PROPERTY, GEOPROPERTY);
      }
    }
  }

  /** `mapValues { it.value.asJsonArray() }` over the non-core members: the
      first value that is not an array fails. */
  function ArraysCheck(ms: Members, core: set<string>): (r: Check)
    ensures r == Pass <==> forall m :: m in ms && m.key !in core ==> m.value.JArr?
  {
    if ms == [] then Pass
    else
      assert forall m :: m in ms <==> m == ms[0] || m in ms[1..];
      if ms[0].key !in core && !ms[0].value.JArr? then Fail(Crash("ClassCastException"))
      else ArraysCheck(ms[1..], core)
  }

  /** The `filter` over the non-core members: the first whose classification
      fails stops it. */
  function FilterCheck(ms: Members, core: set<string>, kind: NgsiLdAttributeType): (r: Check)
    ensures r == Pass <==> forall m :: m in ms && m.key !in core ==> FirstInstanceOfType(m.value, kind).Ok?
  {
    if ms == [] then Pass
    else
      assert forall m :: m in ms <==> m == ms[0] || m in ms[1..];
      if ms[0].key !in core && FirstInstanceOfType(ms[0].value, kind).Err? then Fail(FirstInstanceOfType(ms[0].value, kind).error)
      else FilterCheck(ms[1..], core, kind)
  }

  /** `checkInstancesAreOfSameType`: `all` stops at the first instance that is
      not of the type; an instance that is not an object fails. */
  function AllOfType(instances: seq<Json>, kind: NgsiLdAttributeType): Result<bool>
  {
    if instances == [] then Ok(true)
    else
      var values :- AsObject(instances[0]);
      var here :- IsAttributeOfType(values, kind);
      if !here then Ok(false) else AllOfType(instances[1..], kind)
  }

  /** The instances pass the check exactly when every one of them is an
      object of the attribute's type. */
  lemma {:induction false} AllOfTypeEvery(instances: seq<Json>, kind: NgsiLdAttributeType)
    ensures AllOfType(instances, kind) == Ok(true) <==> forall j :: 0 <= j < |instances| ==>
      instances[j].JObj? && IsAttributeOfType(instances[j].members, kind) == Ok(true)
    decreases |instances|
  {
    if instances != [] {
      TailIndex(instances);
      AllOfTypeEvery(instances[1..], kind);
    }
  }

  /** `getDatasetId`: the @id of the first datasetId entry, when there is one. */
  function GetDatasetId(values: Members): (r: Result<Option<string>>)
    ensures !HasKey(values, NGSILD_DATASET_ID_PROPERTY) ==> r == Ok(None)
    ensures r.Ok? && r.value.Some? ==> DatasetIdEntry(values, r.value.value)
  {
    match Get(values, NGSILD_DATASET_ID_PROPERTY)
    case None => Ok(None)
    case Some(v) =>
      var entries :- AsArray(v);
      var first :- At(entries, 0);
      var entry :- AsObject(first);
      var id :- GetString(entry, JSONLD_ID);
      Ok(Some(id))
  }

  /** The datasetId member is an array whose first entry is an object with
      `d` as its `@id`. */
  predicate DatasetIdEntry(values: Members, d: string) {
    match Get(values, NGSILD_DATASET_ID_PROPERTY)
    case Some(JArr(entries)) => |entries| > 0 && entries[0].JObj? && Get(entries[0].members, JSONLD_ID) == Some(JStr(d))
    case _ => false
  }

  lemma DatasetIdRead(d: string)
    ensures GetDatasetId([Member(NGSILD_DATASET_ID_PROPERTY, JArr([JObj([Member(JSONLD_ID, JStr(d))])]))]) == Ok(Some(d))
  {
    assert Get([Member(JSONLD_ID, JStr(d))], JSONLD_ID) == Some(JStr(d));
  }

  // ---------------------------------------------------------------------
  // Geometry

  /** `coordinates[i].asJsonObject()["@list"]!!.asJsonArray()` */
  function ListAt(es: seq<Json>, i: nat): Result<seq<Json>> {
    var e :- At(es, i);
    var o :- AsObject(e);
    var list :- Present(Get(o, "@list"));
    AsArray(list)
  }

  /** `(es[i].asJsonObject()["@value"] as JsonNumber).doubleValue()` */
  function NumberAt(es: seq<Json>, i: nat): Result<string> {
    var e :- At(es, i);
    var o :- AsObject(e);
    var value :- Present(Get(o, JSONLD_VALUE_KW));
    if value.JNum? then Ok(value.text) else Err(Crash("ClassCastException"))
  }

  function PositionIn(pair: seq<Json>): Result<Position> {
    var longitude :- NumberAt(pair, 0);
    var latitude :- NumberAt(pair, 1);
    Ok(Position(longitude, latitude))
  }

  /** The Polygon `map`: one position per entry of the ring. */
  function Vertices(ring: seq<Json>): (r: Result<seq<Position>>)
    ensures r.Ok? ==> |r.value| == |ring|
  {
    if ring == [] then Ok([])
    else
      var pair :- ListAt(ring, 0);
      var here :- PositionIn(pair);
      var rest :- Vertices(ring[1..]);
      Ok([here] + rest)
  }

  /** Each vertex is read from the @list of its own entry of the ring. */
  lemma {:induction false} VerticesAt(ring: seq<Json>, j: nat)
    requires Vertices(ring).Ok? && j < |ring|
    ensures ListAt(ring, j).Ok? && PositionIn(ListAt(ring, j).value) == Ok(Vertices(ring).value[j])
    decreases j
  {
    VerticesCons(ring);
    if j > 0 {
      VerticesAt(ring[1..], j - 1);
      ListAtShift(ring, j);
      assert Vertices(ring).value[1..][j - 1] == Vertices(ring).value[j];
    }
  }

  lemma VerticesCons(ring: seq<Json>)
    requires Vertices(ring).Ok? && ring != []
    ensures ListAt(ring, 0).Ok? && PositionIn(ListAt(ring, 0).value) == Ok(Vertices(ring).value[0])
    ensures Vertices(ring[1..]).Ok? && Vertices(ring).value[1..] == Vertices(ring[1..]).value
  {
  }

  lemma ListAtShift(es: seq<Json>, j: nat)
    requires 0 < j < |es|
    ensures ListAt(es, j) == ListAt(es[1..], j - 1)
  {
    assert es[1..][j - 1] == es[j];
  }

  /** The @list of the first entry of an expanded coordinates array. */
  function OuterList(geoPropertyValue: Members): Result<seq<Json>> {
    var coordinates :- Present(Get(geoPropertyValue, NGSILD_COORDINATES_PROPERTY));
    var cs :- AsArray(coordinates);
    ListAt(cs, 0)
  }

  /** `extractCoordinates`: a Point yields its two numbers, a Polygon one
      position per vertex; missing coordinates and any other geometry are
      refused. */
  function ExtractCoordinates(expandedGeoPropertyType: string, geoPropertyValue: Members): (r: Result<Coordinates>)
    ensures !HasKey(geoPropertyValue, NGSILD_COORDINATES_PROPERTY) ==>
      r == Err(BadRequestData("Geoproperty of type " + expandedGeoPropertyType + " does not contain coordinates"))
    ensures ((exists cs: seq<Json> :: Get(geoPropertyValue, NGSILD_COORDINATES_PROPERTY) == Some(JArr(cs))) &&
      expandedGeoPropertyType != NGSILD_POINT_PROPERTY && expandedGeoPropertyType != NGSILD_POLYGON_PROPERTY) ==>
      r == Err(NotImplemented("Not yet supported geometry: " + expandedGeoPropertyType))
    ensures r.Ok? ==> (expandedGeoPropertyType == NGSILD_POINT_PROPERTY <==> r.value.PointCoordinates?)
    ensures r.Ok? ==> (expandedGeoPropertyType == NGSILD_POLYGON_PROPERTY <==> r.value.PolygonCoordinates?)
    ensures r.Ok? && r.value.PointCoordinates? ==>
      OuterList(geoPropertyValue).Ok? && PositionIn(OuterList(geoPropertyValue).value) == Ok(r.value.position)
    ensures r.Ok? && r.value.PolygonCoordinates? ==>
      OuterList(geoPropertyValue).Ok? && |r.value.vertices| == |OuterList(geoPropertyValue).value|
  {
    if !HasKey(geoPropertyValue, NGSILD_COORDINATES_PROPERTY) then
      Err(BadRequestData("Geoproperty of type " + expandedGeoPropertyType + " does not contain coordinates"))
    else
      var cs :- AsArray(Get(geoPropertyValue, NGSILD_COORDINATES_PROPERTY).value);
      if expandedGeoPropertyType == NGSILD_POINT_PROPERTY then
        var ring :- ListAt(cs, 0);
        var position :- PositionIn(ring);
        Ok(PointCoordinates(position))
      else if expandedGeoPropertyType == NGSILD_POLYGON_PROPERTY then
        var ring :- ListAt(cs, 0);
        var vertices :- Vertices(ring);
        Ok(PolygonCoordinates(vertices))
      else Err(NotImplemented("Not yet supported geometry: " + expandedGeoPropertyType))
  }

  /** `GeoPropertyType.valueOf` */
  function GeoPropertyTypeOf(name: string): Result<GeoPropertyType> {
    if name == "Point" then Ok(Point)
    else if name == "Polygon" then Ok(Polygon)
    else Err(Crash("IllegalArgumentException"))
  }

  /** The geometry object of a GeoProperty instance and its expanded type. */
  function GeometryOf(values: Members): Result<(Members, string)> {
    var v :- Present(Get(values, NGSILD_GEOPROPERTY_VALUE));
    var entries :- AsArray(v);
    var first :- At(entries, 0);
    var geoPropertyValue :- AsObject(first);
    var t :- Present(Get(geoPropertyValue, JSONLD_TYPE));
    var types :- AsArray(t);
    var t0 :- At(types, 0);
    var expandedType :- AsString(t0);
    Ok((geoPropertyValue, expandedType))
  }

  /** The geometry of a GeoProperty instance as written: the short type names
      an enum entry before the coordinates are read. */
  function GeoValueAsWritten(values: Members): Result<(GeoPropertyType, Coordinates)> {
    var geometry :- GeometryOf(values);
    var geoPropertyType :- GeoPropertyTypeOf(ShortType(geometry.1));
    var coordinates :- ExtractCoordinates(geometry.1, geometry.0);
    Ok((geoPropertyType, coordinates))
  }

  const GEOJSON_NAMESPACE := "https://purl.org/geojson"

  lemma GeoJsonSpelling()
    ensures NGSILD_POINT_PROPERTY == GEOJSON_NAMESPACE + "/" + "vocab" + "#" + "Point"
    ensures NGSILD_POLYGON_PROPERTY == GEOJSON_NAMESPACE + "/" + "vocab" + "#" + "Polygon"
  {
  }

  lemma GeoJsonShortType(term: string)
    requires term == "Point" || term == "Polygon" || term == "LineString"
    ensures ShortType(GEOJSON_NAMESPACE + "/" + "vocab" + "#" + term) == term
  {
    ShortTypeOfHashTerm(GEOJSON_NAMESPACE, "vocab", term);
  }

  lemma PointAndPolygonShortTypes()
    ensures ShortType(NGSILD_POINT_PROPERTY) == "Point"
    ensures ShortType(NGSILD_POLYGON_PROPERTY) == "Polygon"
  {
    GeoJsonSpelling();
    GeoJsonShortType("Point");
    GeoJsonShortType("Polygon");
  }

  /** The geometry of a GeoProperty instance with the coordinates read first,
      so that an unsupported geometry is reported as such: once the
      coordinates are read, the short type always names an enum entry. */
  function GeoValue(values: Members): (r: Result<(GeoPropertyType, Coordinates)>)
    ensures GeometryOf(values).Err? ==> r == Err(GeometryOf(values).error)
    ensures GeometryOf(values).Ok? ==> var geometry := GeometryOf(values).value;
      match ExtractCoordinates(geometry.1, geometry.0)
      case Err(e) => r == Err(e)
      case Ok(c) => r == Ok((if c.PointCoordinates? then Point else Polygon, c))
  {
    var geometry :- GeometryOf(values);
    var coordinates :- ExtractCoordinates(geometry.1, geometry.0);
    PointAndPolygonShortTypes();
    match GeoPropertyTypeOf(ShortType(geometry.1))
    case Ok(geoPropertyType) => Ok((geoPropertyType, coordinates))
    case Err(e) => Err(e)
  }

  lemma LineStringSpelling()
    ensures "https://purl.org/geojson/vocab#LineString" == GEOJSON_NAMESPACE + "/" + "vocab" + "#" + "LineString"
  {
  }

  /** An expanded LineString: unsupported, and not an enum entry either. */
  lemma UnsupportedGeometryOrder(coordinates: seq<Json>)
    ensures var lineString := "https://purl.org/geojson/vocab#LineString";
      var values := [Member(NGSILD_GEOPROPERTY_VALUE, JArr([JObj([
        Member(JSONLD_TYPE, JArr([JStr(lineString)])),
        Member(NGSILD_COORDINATES_PROPERTY, JArr(coordinates))])]))];
      GeoValueAsWritten(values) == Err(Crash("IllegalArgumentException")) &&
      GeoValue(values) == Err(NotImplemented("Not yet supported geometry: " + lineString))
  {
    var lineString := "https://purl.org/geojson/vocab#LineString";
    var geometry := [Member(JSONLD_TYPE, JArr([JStr(lineString)])), Member(NGSILD_COORDINATES_PROPERTY, JArr(coordinates))];
    var values := [Member(NGSILD_GEOPROPERTY_VALUE, JArr([JObj(geometry)]))];
    assert Get(values, NGSILD_GEOPROPERTY_VALUE) == Some(JArr([JObj(geometry)]));
    assert Get(geometry, JSONLD_TYPE) == Some(JArr([JStr(lineString)]));
    assert Get(geometry, NGSILD_COORDINATES_PROPERTY) == Some(JArr(coordinates));
    assert GeometryOf(values) == Ok((geometry, lineString));
    LineStringSpelling();
    GeoJsonShortType("LineString");
  }

  // ---------------------------------------------------------------------
  // Building attributes and their instances
  //
  // The parser recurses through the JSON tree: each call works on a value
  // that sits inside the value of its caller, which is what the decreases
  // clauses say.

  /** The instance factories, by the kind of the attribute. */
  function ParseInstance(kind: NgsiLdAttributeType, name: string, values: Members): (r: Result<Instance>)
    ensures r.Ok? ==> PayloadOfKind(kind, r.value.payload) && ValidInstance(r.value)
    ensures r.Ok? ==> GetDatasetId(values) == Ok(r.value.datasetId)
    decreases JObj(values), 4
  {
    match kind
    case PROPERTY => ParsePropertyInstance(name, values)
    case RELATIONSHIP => ParseRelationshipInstance(name, values)
    case GEOPROPERTY => ParseGeoPropertyInstance(values)
  }

  /** `NgsiLdPropertyInstance`: the value, unitCode, observedAt, datasetId,
      then the nested attributes. */
  function ParsePropertyInstance(name: string, values: Members): (r: Result<Instance>)
    ensures r.Ok? ==> r.value.payload.PropertyPayload? && ValidInstance(r.value)
    ensures r.Ok? ==> GetDatasetId(values) == Ok(r.value.datasetId)
    decreases JObj(values), 3
  {
    var value :- PropertyValueFromObject(values, NGSILD_PROPERTY_VALUE);
    if value.None? then Err(BadRequestData("Property " + name + " has an instance without a value"))
    else
      var unitCode :- PropertyValueAsString(values, NGSILD_UNIT_CODE_PROPERTY);
      var observedAt :- PropertyValueAsDateTime(values, NGSILD_OBSERVED_AT_PROPERTY);
      var datasetId :- GetDatasetId(values);
      var nested :- NestedAttributes(values, NGSILD_PROPERTIES_CORE_MEMBERS, "Property has unknown attributes types");
      Ok(Instance(observedAt, datasetId, nested.1, nested.0, PropertyPayload(value.value, unitCode)))
  }

  /** `NgsiLdRelationshipInstance`: the object, observedAt, datasetId, then
      the nested attributes. */
  function ParseRelationshipInstance(name: string, values: Members): (r: Result<Instance>)
    ensures r.Ok? ==> r.value.payload.RelationshipPayload? && ValidInstance(r.value)
    ensures r.Ok? ==> GetDatasetId(values) == Ok(r.value.datasetId)
    decreases JObj(values), 3
  {
    var objectId :- ExtractRelationshipObject(name, values);
    var observedAt :- PropertyValueAsDateTime(values, NGSILD_OBSERVED_AT_PROPERTY);
    var datasetId :- GetDatasetId(values);
    var nested :- NestedAttributes(values, NGSILD_RELATIONSHIPS_CORE_MEMBERS, "Relationship has unknown attributes");
    Ok(Instance(observedAt, datasetId, nested.1, nested.0, RelationshipPayload(objectId)))
  }

  /** `NgsiLdGeoPropertyInstance`: observedAt, datasetId, the geometry, then
      the nested attributes. */
  function ParseGeoPropertyInstance(values: Members): (r: Result<Instance>)
    ensures r.Ok? ==> r.value.payload.GeoPayload? && ValidInstance(r.value)
    ensures r.Ok? ==> GetDatasetId(values) == Ok(r.value.datasetId)
    decreases JObj(values), 3
  {
    var observedAt :- PropertyValueAsDateTime(values, NGSILD_OBSERVED_AT_PROPERTY);
    var datasetId :- GetDatasetId(values);
    var geometry :- GeoValue(values);
    var nested :- NestedAttributes(values, NGSILD_GEOPROPERTIES_CORE_MEMBERS, "Geoproperty has unknown attributes");
    Ok(Instance(observedAt, datasetId, nested.1, nested.0, GeoPayload(geometry.0, geometry.1)))
  }

  /** The Relationships and Properties of an attribute instance; any other
      non-core member is refused with `message`. */
  function NestedAttributes(values: Members, core: set<string>, message: string): (r: Result<(seq<Attribute>, seq<Attribute>)>)
    ensures r.Ok? ==> Names(r.value.0) == KeysOfType(values, core, RELATIONSHIP)
    ensures r.Ok? ==> Names(r.value.1) == KeysOfType(values, core, PROPERTY)
    ensures r.Ok? ==> forall j :: 0 <= j < |r.value.0| ==> r.value.0[j].kind == RELATIONSHIP && ValidAttribute(r.value.0[j])
    ensures r.Ok? ==> forall j :: 0 <= j < |r.value.1| ==> r.value.1[j].kind == PROPERTY && ValidAttribute(r.value.1[j])
    ensures r.Ok? ==> forall m :: m in values && m.key !in core ==> IsClassified(m.value, false)
    ensures (AttributesOfType(values, core, RELATIONSHIP).Ok? && AttributesOfType(values, core, PROPERTY).Ok? &&
      UnclassifiedKeys(values, core, false) != []) ==> r == Err(BadRequestData(message))
    decreases JObj(values), 2
  {
    var relationships :- AttributesOfType(values, core, RELATIONSHIP);
    var properties :- AttributesOfType(values, core, PROPERTY);
    AllValidAt(RELATIONSHIP, relationships);
    AllValidAt(PROPERTY, properties);
    ClassificationPartition(values, core, false);
    assert |relationships| == |Names(relationships)| && |properties| == |Names(properties)|;
    if |Without(values, core)| > |relationships| + |properties| then Err(BadRequestData(message))
    else Ok((relationships, properties))
  }

  /** `getAttributesOfType`: every non-core value is read as an array, the
      ones whose first instance is of `kind` are kept, and each is built. */
  function AttributesOfType(values: Members, core: set<string>, kind: NgsiLdAttributeType): (r: Result<seq<Attribute>>)
    ensures r.Ok? ==> ArraysCheck(values, core) == Pass && FilterCheck(values, core, kind) == Pass
    ensures ArraysCheck(values, core).Fail? ==> r == Err(ArraysCheck(values, core).error)
    ensures r.Ok? ==> Names(r.value) == KeysOfType(values, core, kind)
    ensures r.Ok? ==> AllValid(kind, r.value)
    decreases JObj(values), 1
  {
    var _ :- ArraysCheck(values, core);
    var _ :- FilterCheck(values, core, kind);
    BuildAttributes(values, core, kind, 0)
  }

  function BuildAttributes(values: Members, core: set<string>, kind: NgsiLdAttributeType, i: nat): (r: Result<seq<Attribute>>)
    requires i <= |values|
    ensures r.Ok? ==> Names(r.value) == KeysOfType(values[i..], core, kind)
    ensures r.Ok? ==> AllValid(kind, r.value)
    decreases JObj(values), 0, |values| - i
  {
    if i == |values| then Ok([])
    else
      assert values[i..][1..] == values[i + 1..];
      if values[i].key !in core && FirstInstanceOfType(values[i].value, kind) == Ok(true) then
        assert values[i].value == JArr(values[i].value.elems);
        var attribute :- ParseAttribute(kind, values[i].key, values[i].value.elems);
        var rest :- BuildAttributes(values, core, kind, i + 1);
        var out := [attribute] + rest;
        assert out[1..] == rest;
        Ok(out)
      else BuildAttributes(values, core, kind, i + 1)
  }

  /** Member `k` is kept by the `filter` for `kind`. */
  predicate Selected(values: Members, core: set<string>, kind: NgsiLdAttributeType, k: nat)
    requires k < |values|
  {
    values[k].key !in core && FirstInstanceOfType(values[k].value, kind) == Ok(true) && values[k].value.JArr?
  }

  /** Member `k` is of `kind` and is refused when it is built. */
  predicate BuildFails(values: Members, core: set<string>, kind: NgsiLdAttributeType, k: nat)
    requires k < |values|
  {
    Selected(values, core, kind, k) && ParseAttribute(kind, values[k].key, values[k].value.elems).Err?
  }

  /** A member the `filter` drops adds nothing to `BuildAttributes`. */
  lemma BuildAttributesSkip(values: Members, core: set<string>, kind: NgsiLdAttributeType, i: nat)
    requires i < |values| && !Selected(values, core, kind, i)
    ensures BuildAttributes(values, core, kind, i) == BuildAttributes(values, core, kind, i + 1)
  {
  }

  /** A member the `filter` keeps is built before the members after it. */
  lemma BuildAttributesKeep(values: Members, core: set<string>, kind: NgsiLdAttributeType, i: nat)
    requires i < |values| && Selected(values, core, kind, i)
    ensures var a := ParseAttribute(kind, values[i].key, values[i].value.elems);
      BuildAttributes(values, core, kind, i) ==
        if a.Err? then Err(a.error)
        else if BuildAttributes(values, core, kind, i + 1).Err? then BuildAttributes(values, core, kind, i + 1)
        else Ok([a.value] + BuildAttributes(values, core, kind, i + 1).value)
  {
  }

  /** One member of `BuildAttributes`: it is built before the members after
      it. */
  lemma BuildAttributesStep(values: Members, core: set<string>, kind: NgsiLdAttributeType, i: nat)
    requires i < |values|
    ensures BuildFails(values, core, kind, i) ==>
      BuildAttributes(values, core, kind, i) == Err(ParseAttribute(kind, values[i].key, values[i].value.elems).error)
    ensures !BuildFails(values, core, kind, i) && BuildAttributes(values, core, kind, i + 1).Err? ==>
      BuildAttributes(values, core, kind, i) == BuildAttributes(values, core, kind, i + 1)
    ensures !BuildFails(values, core, kind, i) && BuildAttributes(values, core, kind, i + 1).Ok? ==>
      BuildAttributes(values, core, kind, i).Ok?
  {
    if Selected(values, core, kind, i) {
      BuildAttributesKeep(values, core, kind, i);
    } else {
      BuildAttributesSkip(values, core, kind, i);
    }
  }

  /** A member that does not fail, followed by members that all build,
      builds too. */
  lemma BuildAttributesNext(values: Members, core: set<string>, kind: NgsiLdAttributeType, i: nat)
    requires i < |values| && (forall k :: i <= k < |values| ==> !BuildFails(values, core, kind, k))
    requires BuildAttributes(values, core, kind, i + 1).Ok?
    ensures BuildAttributes(values, core, kind, i).Ok?
  {
    assert !BuildFails(values, core, kind, i);
    BuildAttributesStep(values, core, kind, i);
  }

  /** `map` stops at the first member that is refused: the error reported is
      that member's, whatever the later members hold. */
  lemma {:induction false} BuildAttributesFirstError(values: Members, core: set<string>, kind: NgsiLdAttributeType, i: nat, j: nat)
    requires i <= j < |values| && BuildFails(values, core, kind, j)
    requires forall k :: i <= k < j ==> !BuildFails(values, core, kind, k)
    ensures BuildAttributes(values, core, kind, i) == Err(ParseAttribute(kind, values[j].key, values[j].value.elems).error)
    decreases j - i
  {
    BuildAttributesStep(values, core, kind, i);
    if i < j {
      BuildAttributesFirstError(values, core, kind, i + 1, j);
    }
  }

  /** When no member of `kind` is refused, every one is built. */
  lemma {:induction false} BuildAttributesSucceeds(values: Members, core: set<string>, kind: NgsiLdAttributeType, i: nat)
    requires i <= |values|
    requires forall k :: i <= k < |values| ==> !BuildFails(values, core, kind, k)
    ensures BuildAttributes(values, core, kind, i).Ok?
    decreases |values| - i
  {
    if i < |values| {
      BuildAttributesSucceeds(values, core, kind, i + 1);
      BuildAttributesNext(values, core, kind, i);
    }
  }

  /** Once every member is an array and classifies, the attributes of `kind`
      are refused exactly by the first member that fails to build. */
  lemma AttributesOfTypeFirstError(values: Members, core: set<string>, kind: NgsiLdAttributeType, j: nat)
    requires ArraysCheck(values, core) == Pass && FilterCheck(values, core, kind) == Pass
    requires j < |values| && BuildFails(values, core, kind, j)
    requires forall k :: 0 <= k < j ==> !BuildFails(values, core, kind, k)
    ensures AttributesOfType(values, core, kind) == Err(ParseAttribute(kind, values[j].key, values[j].value.elems).error)
  {
    BuildAttributesFirstError(values, core, kind, 0, j);
  }

  /** A refused classification is reported before any attribute is built. */
  lemma AttributesOfTypeFilterError(values: Members, core: set<string>, kind: NgsiLdAttributeType)
    requires ArraysCheck(values, core) == Pass && FilterCheck(values, core, kind).Fail?
    ensures AttributesOfType(values, core, kind) == Err(FilterCheck(values, core, kind).error)
  {
  }

  /** The nested Relationships are built before the nested Properties, so
      their error is the one reported. */
  lemma NestedAttributesErrors(values: Members, core: set<string>, message: string)
    ensures AttributesOfType(values, core, RELATIONSHIP).Err? ==>
      NestedAttributes(values, core, message) == Err(AttributesOfType(values, core, RELATIONSHIP).error)
    ensures AttributesOfType(values, core, RELATIONSHIP).Ok? && AttributesOfType(values, core, PROPERTY).Err? ==>
      NestedAttributes(values, core, message) == Err(AttributesOfType(values, core, PROPERTY).error)
  {
  }

  /** The checks an attribute's parsed instances go through, in order: at
      most one default instance, no two instances with the same datasetId,
      and a supported compact name. */
  function InstancesCheck(name: string, parsed: seq<Instance>): (r: Check)
    ensures r == Pass <==>
      DefaultInstances(parsed) <= 1 && Distinct(DatasetIds(parsed)) && IsNgsiLdSupportedName(ShortType(name))
    ensures DefaultInstances(parsed) > 1 ==>
      r == Fail(BadRequestData("Attribute " + name + " can't have more than one default instance"))
    ensures DefaultInstances(parsed) <= 1 && !Distinct(DatasetIds(parsed)) ==>
      r == Fail(BadRequestData("Attribute " + name + " can't have more than one instance with the same datasetId"))
    ensures DefaultInstances(parsed) <= 1 && Distinct(DatasetIds(parsed)) && !IsNgsiLdSupportedName(ShortType(name)) ==>
      r == Fail(BadRequestData("Entity has an invalid attribute name: " + ShortType(name)))
  {
    DistinctIffSetSize(DatasetIds(parsed));
    if DefaultInstances(parsed) > 1 then
      Fail(BadRequestData("Attribute " + name + " can't have more than one default instance"))
    else if |ToSet(DatasetIds(parsed))| != |DatasetIds(parsed)| then
      Fail(BadRequestData("Attribute " + name + " can't have more than one instance with the same datasetId"))
    else if !IsNgsiLdSupportedName(ShortType(name)) then
      Fail(BadRequestData("Entity has an invalid attribute name: " + ShortType(name)))
    else Pass
  }

  /** The attribute factories (`NgsiLdProperty`, `NgsiLdRelationship`,
      `NgsiLdGeoProperty`): the same-type check, the instances, then the
      checks on the instances. */
  function ParseAttribute(kind: NgsiLdAttributeType, name: string, instances: seq<Json>): (r: Result<Attribute>)
    ensures r.Ok? ==> r.value.kind == kind && r.value.name == name && |r.value.instances| == |instances| && ValidAttribute(r.value)
    ensures r.Ok? ==> AllOfType(instances, kind) == Ok(true) && DatasetIdsFrom(instances, 0, r.value.instances)
    ensures AllOfType(instances, kind) == Ok(false) ==>
      r == Err(BadRequestData("Attribute " + name + " instances must have the same type"))
    ensures AllOfType(instances, kind).Err? ==> r == Err(AllOfType(instances, kind).error)
    decreases JArr(instances), 1
  {
    var sameType :- AllOfType(instances, kind);
    if !sameType then Err(BadRequestData("Attribute " + name + " instances must have the same type"))
    else
      var parsed :- ParseInstances(kind, name, instances, 0);
      var _ :- InstancesCheck(name, parsed);
      Ok(Attribute(kind, name, parsed))
  }

  /** Each parsed instance holds the datasetId its JSON object carries. */
  predicate DatasetIdsFrom(instances: seq<Json>, i: nat, parsed: seq<Instance>)
    requires i <= |instances|
    decreases |instances| - i
  {
    if i == |instances| then parsed == []
    else
      parsed != [] && instances[i].JObj? && GetDatasetId(instances[i].members) == Ok(parsed[0].datasetId) &&
      DatasetIdsFrom(instances, i + 1, parsed[1..])
  }

  /** `instances.map { ...Instance(name, instance.asJsonObject()) }` */
  function ParseInstances(kind: NgsiLdAttributeType, name: string, instances: seq<Json>, i: nat): (r: Result<seq<Instance>>)
    requires i <= |instances|
    ensures r.Ok? ==> |r.value| == |instances| - i
    ensures r.Ok? ==> forall j :: 0 <= j < |r.value| ==> PayloadOfKind(kind, r.value[j].payload)
    ensures r.Ok? ==> forall j :: 0 <= j < |r.value| ==> ValidInstance(r.value[j])
    ensures r.Ok? ==> DatasetIdsFrom(instances, i, r.value)
    decreases JArr(instances), 0, |instances| - i
  {
    if i == |instances| then Ok([])
    else
      var values :- AsObject(instances[i]);
      assert instances[i] == JObj(values);
      var instance :- ParseInstance(kind, name, values);
      var rest :- ParseInstances(kind, name, instances, i + 1);
      var out := [instance] + rest;
      assert out[0] == instance && out[1..] == rest;
      assert forall j :: 1 <= j < |out| ==> out[j] == rest[j - 1];
      Ok(out)
  }

  // ---------------------------------------------------------------------
  // What the instance and attribute factories read

  /** A built Property instance carries the observedAt its members hold,
      and every non-core member of it became one of its Relationships or
      Properties. */
  lemma PropertyInstanceReads(name: string, values: Members)
    requires ParsePropertyInstance(name, values).Ok?
    ensures var instance := ParsePropertyInstance(name, values).value;
      PropertyValueAsDateTime(values, NGSILD_OBSERVED_AT_PROPERTY) == Ok(instance.observedAt) &&
      Names(instance.relationships) == KeysOfType(values, NGSILD_PROPERTIES_CORE_MEMBERS, RELATIONSHIP) &&
      Names(instance.properties) == KeysOfType(values, NGSILD_PROPERTIES_CORE_MEMBERS, PROPERTY) &&
      forall m :: m in values && m.key !in NGSILD_PROPERTIES_CORE_MEMBERS ==> IsClassified(m.value, false)
  {
    assert PropertyValueAsDateTime(values, NGSILD_OBSERVED_AT_PROPERTY).Ok?;
    assert NestedAttributes(values, NGSILD_PROPERTIES_CORE_MEMBERS, "Property has unknown attributes types").Ok?;
  }

  /** The same for a Relationship instance. */
  lemma RelationshipInstanceReads(name: string, values: Members)
    requires ParseRelationshipInstance(name, values).Ok?
    ensures var instance := ParseRelationshipInstance(name, values).value;
      PropertyValueAsDateTime(values, NGSILD_OBSERVED_AT_PROPERTY) == Ok(instance.observedAt) &&
      Names(instance.relationships) == KeysOfType(values, NGSILD_RELATIONSHIPS_CORE_MEMBERS, RELATIONSHIP) &&
      Names(instance.properties) == KeysOfType(values, NGSILD_RELATIONSHIPS_CORE_MEMBERS, PROPERTY) &&
      forall m :: m in values && m.key !in NGSILD_RELATIONSHIPS_CORE_MEMBERS ==> IsClassified(m.value, false)
  {
  }

  /** The same for a GeoProperty instance. */
  lemma GeoPropertyInstanceReads(values: Members)
    requires ParseGeoPropertyInstance(values).Ok?
    ensures var instance := ParseGeoPropertyInstance(values).value;
      PropertyValueAsDateTime(values, NGSILD_OBSERVED_AT_PROPERTY) == Ok(instance.observedAt) &&
      Names(instance.relationships) == KeysOfType(values, NGSILD_GEOPROPERTIES_CORE_MEMBERS, RELATIONSHIP) &&
      Names(instance.properties) == KeysOfType(values, NGSILD_GEOPROPERTIES_CORE_MEMBERS, PROPERTY) &&
      forall m :: m in values && m.key !in NGSILD_GEOPROPERTIES_CORE_MEMBERS ==> IsClassified(m.value, false)
  {
    assert PropertyValueAsDateTime(values, NGSILD_OBSERVED_AT_PROPERTY).Ok?;
    assert NestedAttributes(values, NGSILD_GEOPROPERTIES_CORE_MEMBERS, "Geoproperty has unknown attributes").Ok?;
  }

  /** A Property instance needs a value. */
  lemma PropertyInstanceWithoutValue(name: string, values: Members)
    requires PropertyValueFromObject(values, NGSILD_PROPERTY_VALUE) == Ok(None)
    ensures ParsePropertyInstance(name, values) == Err(BadRequestData("Property " + name + " has an instance without a value"))
  {
  }

  /** The value a Property instance holds is that of its value and unitCode
      members. */
  lemma PropertyInstanceValue(name: string, values: Members)
    requires ParsePropertyInstance(name, values).Ok?
    ensures var instance := ParsePropertyInstance(name, values).value;
      PropertyValueFromObject(values, NGSILD_PROPERTY_VALUE) == Ok(Some(instance.payload.value)) &&
      PropertyValueAsString(values, NGSILD_UNIT_CODE_PROPERTY) == Ok(instance.payload.unitCode)
  {
    var value := PropertyValueFromObject(values, NGSILD_PROPERTY_VALUE);
    var unitCode := PropertyValueAsString(values, NGSILD_UNIT_CODE_PROPERTY);
    assert value.Ok? && value.value.Some? && unitCode.Ok?;
    var nested := NestedAttributes(values, NGSILD_PROPERTIES_CORE_MEMBERS, "Property has unknown attributes types");
    assert ParsePropertyInstance(name, values).value.payload == PropertyPayload(value.value.value, unitCode.value);
  }

  /** A Relationship instance fails as its object does, and otherwise holds it. */
  lemma RelationshipInstanceObject(name: string, values: Members)
    ensures ExtractRelationshipObject(name, values).Err? ==>
      ParseRelationshipInstance(name, values) == Err(ExtractRelationshipObject(name, values).error)
    ensures ParseRelationshipInstance(name, values).Ok? ==>
      ExtractRelationshipObject(name, values) == Ok(ParseRelationshipInstance(name, values).value.payload.objectId)
  {
  }

  /** A GeoProperty instance holds the geometry of its value. */
  lemma GeoPropertyInstanceGeometry(values: Members)
    requires ParseGeoPropertyInstance(values).Ok?
    ensures var payload := ParseGeoPropertyInstance(values).value.payload;
      GeoValue(values) == Ok((payload.geoPropertyType, payload.coordinates))
  {
  }

  /** Once its instances are built, an attribute is refused exactly by the
      first check its instances fail. */
  lemma ParseAttributeChecks(kind: NgsiLdAttributeType, name: string, instances: seq<Json>, parsed: seq<Instance>)
    requires AllOfType(instances, kind) == Ok(true) && ParseInstances(kind, name, instances, 0) == Ok(parsed)
    ensures InstancesCheck(name, parsed).Fail? ==> ParseAttribute(kind, name, instances) == Err(InstancesCheck(name, parsed).error)
    ensures InstancesCheck(name, parsed).Pass? ==> ParseAttribute(kind, name, instances) == Ok(Attribute(kind, name, parsed))
  {
  }

  /** An instance read from a JSON object holds that object's datasetId. */
  predicate DatasetIdOfObject(instance: Json, parsed: Instance) {
    instance.JObj? && GetDatasetId(instance.members) == Ok(parsed.datasetId)
  }

  /** `DatasetIdsFrom` read position by position. */
  lemma DatasetIdsFromAt(instances: seq<Json>, i: nat, parsed: seq<Instance>)
    requires i <= |instances| && DatasetIdsFrom(instances, i, parsed)
    ensures |parsed| == |instances| - i
    ensures forall j :: 0 <= j < |parsed| ==> DatasetIdOfObject(instances[i + j], parsed[j])
  {
    DatasetIdsFromLength(instances, i, parsed);
    forall j | 0 <= j < |parsed|
      ensures DatasetIdOfObject(instances[i + j], parsed[j])
    {
      DatasetIdsFromOne(instances, i, parsed, j);
    }
  }

  lemma {:induction false} DatasetIdsFromLength(instances: seq<Json>, i: nat, parsed: seq<Instance>)
    requires i <= |instances| && DatasetIdsFrom(instances, i, parsed)
    ensures |parsed| == |instances| - i
    decreases |instances| - i
  {
    if i < |instances| {
      DatasetIdsFromLength(instances, i + 1, parsed[1..]);
    }
  }

  lemma {:induction false} DatasetIdsFromOne(instances: seq<Json>, i: nat, parsed: seq<Instance>, j: nat)
    requires i <= |instances| && DatasetIdsFrom(instances, i, parsed) && j < |parsed|
    ensures i + j < |instances| && DatasetIdOfObject(instances[i + j], parsed[j])
    decreases j
  {
    if j > 0 {
      DatasetIdsFromOne(instances, i + 1, parsed[1..], j - 1);
      assert parsed[1..][j - 1] == parsed[j];
    }
  }

  // ---------------------------------------------------------------------
  // The entity

  /** The `NgsiLdEntity` factory: the id, the type and its name check, the
      Relationships, Properties and GeoProperties, and no other member. */
  function ParseEntity(parsedKeys: Members, contexts: seq<string>): (r: Result<NgsiLdEntity>)
    ensures r.Ok? ==> ValidEntity(r.value) && r.value.contexts == contexts
    ensures !HasKey(parsedKeys, JSONLD_ID) ==>
      r == Err(BadRequestData("The provided NGSI-LD entity does not contain an id property"))
    ensures HasKey(parsedKeys, JSONLD_ID) && GetString(parsedKeys, JSONLD_ID).Ok? && !HasKey(parsedKeys, JSONLD_TYPE) ==>
      r == Err(BadRequestData("The provided NGSI-LD entity does not contain a type property"))
    ensures r.Ok? ==> Get(parsedKeys, JSONLD_ID) == Some(JStr(r.value.id))
    ensures r.Ok? ==> EntityTypeOf(parsedKeys) == Ok(r.value.entityType)
    ensures r.Ok? ==> Names(r.value.relationships) == KeysOfType(parsedKeys, NGSILD_ENTITY_CORE_MEMBERS, RELATIONSHIP)
    ensures r.Ok? ==> Names(r.value.properties) == KeysOfType(parsedKeys, NGSILD_ENTITY_CORE_MEMBERS, PROPERTY)
    ensures r.Ok? ==> Names(r.value.geoProperties) == KeysOfType(parsedKeys, NGSILD_ENTITY_CORE_MEMBERS, GEOPROPERTY)
    ensures r.Ok? ==> UnclassifiedKeys(parsedKeys, NGSILD_ENTITY_CORE_MEMBERS, true) == []
  {
    if !HasKey(parsedKeys, JSONLD_ID) then
      Err(BadRequestData("The provided NGSI-LD entity does not contain an id property"))
    else
      var id :- GetString(parsedKeys, JSONLD_ID);
      if !HasKey(parsedKeys, JSONLD_TYPE) then
        Err(BadRequestData("The provided NGSI-LD entity does not contain a type property"))
      else
        var entityType :- EntityTypeOf(parsedKeys);
        if !IsNgsiLdSupportedName(ShortType(entityType)) then
          Err(BadRequestData("The provided NGSI-LD entity has a type with invalid characters"))
        else
          var relationships :- AttributesOfType(parsedKeys, NGSILD_ENTITY_CORE_MEMBERS, RELATIONSHIP);
          var properties :- AttributesOfType(parsedKeys, NGSILD_ENTITY_CORE_MEMBERS, PROPERTY);
          var geoProperties :- AttributesOfType(parsedKeys, NGSILD_ENTITY_CORE_MEMBERS, GEOPROPERTY);
          EntityAttributesCounted(parsedKeys, relationships, properties, geoProperties);
          if |Without(parsedKeys, NGSILD_ENTITY_CORE_MEMBERS)| > |relationships| + |properties| + |geoProperties| then
            Err(BadRequestData("Entity has unknown attributes types"))
          else Ok(NgsiLdEntity(id, entityType, relationships, properties, geoProperties, contexts))
  }

  /** `getJsonArray(@type).getJsonString(0).string` */
  function EntityTypeOf(parsedKeys: Members): Result<string> {
    var types :- Present(Get(parsedKeys, JSONLD_TYPE));
    var list :- AsArray(types);
    var first :- At(list, 0);
    AsString(first)
  }

  /** The size check of the factory holds exactly when no member is left
      unclassified. */
  lemma EntityAttributesCounted(parsedKeys: Members, relationships: seq<Attribute>, properties: seq<Attribute>,
                                geoProperties: seq<Attribute>)
    requires Names(relationships) == KeysOfType(parsedKeys, NGSILD_ENTITY_CORE_MEMBERS, RELATIONSHIP)
    requires Names(properties) == KeysOfType(parsedKeys, NGSILD_ENTITY_CORE_MEMBERS, PROPERTY)
    requires Names(geoProperties) == KeysOfType(parsedKeys, NGSILD_ENTITY_CORE_MEMBERS, GEOPROPERTY)
    ensures |Without(parsedKeys, NGSILD_ENTITY_CORE_MEMBERS)| > |relationships| + |properties| + |geoProperties| <==>
      UnclassifiedKeys(parsedKeys, NGSILD_ENTITY_CORE_MEMBERS, true) != []
  {
    ClassificationPartition(parsedKeys, NGSILD_ENTITY_CORE_MEMBERS, true);
    assert |Names(relationships)| == |relationships| && |Names(properties)| == |properties| && |Names(geoProperties)| == |geoProperties|;
  }

  /** An entity with a readable id and type is refused for its type name,
      and then for any member that is none of the three attribute types. */
  lemma ParseEntityRefusals(parsedKeys: Members, contexts: seq<string>)
    requires GetString(parsedKeys, JSONLD_ID).Ok? && EntityTypeOf(parsedKeys).Ok?
    ensures !IsNgsiLdSupportedName(ShortType(EntityTypeOf(parsedKeys).value)) ==>
      ParseEntity(parsedKeys, contexts) == Err(BadRequestData("The provided NGSI-LD entity has a type with invalid characters"))
    ensures (IsNgsiLdSupportedName(ShortType(EntityTypeOf(parsedKeys).value)) &&
      AttributesOfType(parsedKeys, NGSILD_ENTITY_CORE_MEMBERS, RELATIONSHIP).Ok? &&
      AttributesOfType(parsedKeys, NGSILD_ENTITY_CORE_MEMBERS, PROPERTY).Ok? &&
      AttributesOfType(parsedKeys, NGSILD_ENTITY_CORE_MEMBERS, GEOPROPERTY).Ok? &&
      UnclassifiedKeys(parsedKeys, NGSILD_ENTITY_CORE_MEMBERS, true) != []) ==>
      ParseEntity(parsedKeys, contexts) == Err(BadRequestData("Entity has unknown attributes types"))
  {
    assert HasKey(parsedKeys, JSONLD_ID) && HasKey(parsedKeys, JSONLD_TYPE);
  }

  /** The attributes are built Relationships first, then Properties, then
      GeoProperties; the first group that is refused gives the error. */
  lemma ParseEntityAttributeErrors(parsedKeys: Members, contexts: seq<string>)
    requires GetString(parsedKeys, JSONLD_ID).Ok? && EntityTypeOf(parsedKeys).Ok?
    requires IsNgsiLdSupportedName(ShortType(EntityTypeOf(parsedKeys).value))
    ensures AttributesOfType(parsedKeys, NGSILD_ENTITY_CORE_MEMBERS, RELATIONSHIP).Err? ==>
      ParseEntity(parsedKeys, contexts) == Err(AttributesOfType(parsedKeys, NGSILD_ENTITY_CORE_MEMBERS, RELATIONSHIP).error)
    ensures (AttributesOfType(parsedKeys, NGSILD_ENTITY_CORE_MEMBERS, RELATIONSHIP).Ok? &&
      AttributesOfType(parsedKeys, NGSILD_ENTITY_CORE_MEMBERS, PROPERTY).Err?) ==>
      ParseEntity(parsedKeys, contexts) == Err(AttributesOfType(parsedKeys, NGSILD_ENTITY_CORE_MEMBERS, PROPERTY).error)
    ensures (AttributesOfType(parsedKeys, NGSILD_ENTITY_CORE_MEMBERS, RELATIONSHIP).Ok? &&
      AttributesOfType(parsedKeys, NGSILD_ENTITY_CORE_MEMBERS, PROPERTY).Ok? &&
      AttributesOfType(parsedKeys, NGSILD_ENTITY_CORE_MEMBERS, GEOPROPERTY).Err?) ==>
      ParseEntity(parsedKeys, contexts) == Err(AttributesOfType(parsedKeys, NGSILD_ENTITY_CORE_MEMBERS, GEOPROPERTY).error)
  {
    assert HasKey(parsedKeys, JSONLD_ID) && HasKey(parsedKeys, JSONLD_TYPE);
  }

  /** `toNgsiLdEntity` */
  function ToNgsiLdEntity(entity: J.JsonLdEntity): Result<NgsiLdEntity> {
    ParseEntity(entity.properties, entity.contexts)
  }

  /** The attributes of an entity: Properties, then Relationships, then
      GeoProperties. */
  function Attributes(e: NgsiLdEntity): (r: seq<Attribute>)
    ensures |r| == |e.properties| + |e.relationships| + |e.geoProperties|
    ensures ValidEntity(e) ==> forall j :: 0 <= j < |r| ==> ValidAttribute(r[j])
  {
    var r := e.properties + e.relationships + e.geoProperties;
    assert ValidEntity(e) ==> forall j :: 0 <= j < |r| ==> ValidAttribute(r[j]) by {
      if ValidEntity(e) {
        AllValidAt(PROPERTY, e.properties);
        AllValidAt(RELATIONSHIP, e.relationships);
        AllValidAt(GEOPROPERTY, e.geoProperties);
      }
    }
    r
  }

  /** `getLocation`: the first GeoProperty named location. */
  function GetLocation(e: NgsiLdEntity): (r: Option<Attribute>)
    ensures r.Some? ==> r.value in e.geoProperties && r.value.name == NGSILD_LOCATION_PROPERTY
    ensures r.None? <==> forall a :: a in e.geoProperties ==> a.name != NGSILD_LOCATION_PROPERTY
  {
    FindNamed(e.geoProperties, NGSILD_LOCATION_PROPERTY)
  }

  /** `find { it.name == name }` */
  function FindNamed(attributes: seq<Attribute>, name: string): (r: Option<Attribute>)
    ensures r.Some? ==> exists j :: (0 <= j < |attributes| && attributes[j] == r.value && attributes[j].name == name &&
      forall k :: 0 <= k < j ==> attributes[k].name != name)
    ensures r.None? <==> forall a :: a in attributes ==> a.name != name
  {
    if attributes == [] then None
    else if attributes[0].name == name then Some(attributes[0])
    else
      var r := FindNamed(attributes[1..], name);
      assert forall a :: a in attributes <==> a == attributes[0] || a in attributes[1..];
      TailIndex(attributes);
      r
  }

  // ---------------------------------------------------------------------
  // parseToNgsiLdAttributes

  /** The `when` of `parseToNgsiLdAttributes` on the first instance of a
      value: Property, then Relationship, then GeoProperty, else none. */
  function KindOf(v: Json): Result<Option<NgsiLdAttributeType>> {
    var isProperty :- FirstInstanceOfType(v, PROPERTY);
    if isProperty then Ok(Some(PROPERTY))
    else
      var isRelationship :- FirstInstanceOfType(v, RELATIONSHIP);
      if isRelationship then Ok(Some(RELATIONSHIP))
      else
        var isGeoProperty :- FirstInstanceOfType(v, GEOPROPERTY);
        if isGeoProperty then Ok(Some(GEOPROPERTY)) else Ok(None)
  }

  /** The kinds are tried in order and the first that holds is taken. */
  lemma KindOfClassifies(v: Json)
    ensures KindOf(v) == Ok(Some(PROPERTY)) <==> FirstInstanceOfType(v, PROPERTY) == Ok(true)
    ensures KindOf(v) == Ok(Some(RELATIONSHIP)) <==>
      FirstInstanceOfType(v, PROPERTY) == Ok(false) && FirstInstanceOfType(v, RELATIONSHIP) == Ok(true)
    ensures KindOf(v) == Ok(Some(GEOPROPERTY)) <==>
      FirstInstanceOfType(v, PROPERTY) == Ok(false) && FirstInstanceOfType(v, RELATIONSHIP) == Ok(false) &&
      FirstInstanceOfType(v, GEOPROPERTY) == Ok(true)
    ensures KindOf(v) == Ok(None) <==>
      FirstInstanceOfType(v, PROPERTY) == Ok(false) && FirstInstanceOfType(v, RELATIONSHIP) == Ok(false) &&
      FirstInstanceOfType(v, GEOPROPERTY) == Ok(false)
  {
  }

  /** One member of `parseToNgsiLdAttributes`: an attribute of the kind of
      its first instance, or refused by name when it is of none. */
  function ParseMember(m: Member): (r: Result<Attribute>)
    ensures r.Ok? ==> r.value.name == m.key && ValidAttribute(r.value) && KindOf(m.value) == Ok(Some(r.value.kind))
    ensures KindOf(m.value) == Ok(None) ==> r == Err(BadRequestData("Unrecognized type for " + m.key))
  {
    var instances :- AsArray(m.value);
    var kind :- KindOf(m.value);
    if kind.None? then Err(BadRequestData("Unrecognized type for " + m.key))
    else ParseAttribute(kind.value, m.key, instances)
  }

  /** Each member became, in order, a valid attribute of its name and of the
      kind of its first instance. */
  predicate ParsedByKind(attributes: Members, parsed: seq<Attribute>)
    decreases |attributes|
  {
    if attributes == [] then parsed == []
    else
      parsed != [] && parsed[0].name == attributes[0].key && KindOf(attributes[0].value) == Ok(Some(parsed[0].kind)) &&
      ValidAttribute(parsed[0]) && ParsedByKind(attributes[1..], parsed[1..])
  }

  /** `parseToNgsiLdAttributes`: every member becomes an attribute of the
      kind of its first instance, in order; the first member that fails is
      the error. */
  function ParseToNgsiLdAttributes(attributes: Members): (r: Result<seq<Attribute>>)
    ensures r.Ok? ==> ParsedByKind(attributes, r.value)
    ensures attributes != [] && ParseMember(attributes[0]).Err? ==> r == Err(ParseMember(attributes[0]).error)
  {
    if attributes == [] then Ok([])
    else
      var attribute :- ParseMember(attributes[0]);
      var rest :- ParseToNgsiLdAttributes(attributes[1..]);
      var out := [attribute] + rest;
      assert out[1..] == rest;
      Ok(out)
  }

  // ---------------------------------------------------------------------
  // Linked entities
  //
  // Only Relationships link: a Relationship instance links to its object
  // and, like every other instance, through the Relationships it holds.
  // The Properties an instance holds are not traversed.

  /** `getLinkedEntitiesIds` of an attribute: those of its instances, in order. */
  function AttributeLinkedIds(a: Attribute): seq<string>
    decreases a, 1
  {
    InstancesLinkedIds(a, 0)
  }

  function InstancesLinkedIds(a: Attribute, j: nat): seq<string>
    decreases a, 0, |a.instances| - j
  {
    if j >= |a.instances| then [] else InstanceLinkedIds(a.instances[j]) + InstancesLinkedIds(a, j + 1)
  }

  /** `getLinkedEntitiesIds` of an instance: those of its Relationships,
      then, for a Relationship instance, its object. */
  function InstanceLinkedIds(i: Instance): seq<string>
    decreases i, 1
  {
    RelationshipsLinkedIds(i, 0) + (if i.payload.RelationshipPayload? then [i.payload.objectId] else [])
  }

  function RelationshipsLinkedIds(i: Instance, j: nat): seq<string>
    decreases i, 0, |i.relationships| - j
  {
    if j >= |i.relationships| then [] else AttributeLinkedIds(i.relationships[j]) + RelationshipsLinkedIds(i, j + 1)
  }

  /** Reference definition: `u` is the object of a Relationship instance
      reachable through Relationships only. */
  ghost predicate AttributeLinksTo(a: Attribute, u: string)
    decreases a, 1
  {
    exists j :: 0 <= j < |a.instances| && InstanceLinksTo(a.instances[j], u)
  }

  ghost predicate InstanceLinksTo(i: Instance, u: string)
    decreases i, 1
  {
    (i.payload.RelationshipPayload? && i.payload.objectId == u) ||
    exists j :: 0 <= j < |i.relationships| && AttributeLinksTo(i.relationships[j], u)
  }

  lemma {:induction false} AttributeLinkedIdsSound(a: Attribute, u: string)
    ensures u in AttributeLinkedIds(a) <==> AttributeLinksTo(a, u)
    decreases a, 1
  {
    InstancesLinkedIdsSound(a, 0, u);
  }

  lemma {:induction false} InstancesLinkedIdsSound(a: Attribute, j: nat, u: string)
    ensures u in InstancesLinkedIds(a, j) <==> exists k :: j <= k < |a.instances| && InstanceLinksTo(a.instances[k], u)
    decreases a, 0, |a.instances| - j
  {
    if j < |a.instances| {
      InstanceLinkedIdsSound(a.instances[j], u);
      InstancesLinkedIdsSound(a, j + 1, u);
    }
  }

  lemma {:induction false} InstanceLinkedIdsSound(i: Instance, u: string)
    ensures u in InstanceLinkedIds(i) <==> InstanceLinksTo(i, u)
    decreases i, 1
  {
    RelationshipsLinkedIdsSound(i, 0, u);
  }

  lemma {:induction false} RelationshipsLinkedIdsSound(i: Instance, j: nat, u: string)
    ensures u in RelationshipsLinkedIds(i, j) <==> exists k :: j <= k < |i.relationships| && AttributeLinksTo(i.relationships[k], u)
    decreases i, 0, |i.relationships| - j
  {
    if j < |i.relationships| {
      AttributeLinkedIdsSound(i.relationships[j], u);
      RelationshipsLinkedIdsSound(i, j + 1, u);
    }
  }

  /** `flatMap { it.getLinkedEntitiesIds() }` over a list of attributes. */
  function ListLinkedIds(attributes: seq<Attribute>): (r: seq<string>)
    ensures forall u :: u in r <==> exists a :: a in attributes && AttributeLinksTo(a, u)
  {
    if attributes == [] then []
    else
      var rest := ListLinkedIds(attributes[1..]);
      var r := AttributeLinkedIds(attributes[0]) + rest;
      assert forall u :: u in r <==> exists a :: a in attributes && AttributeLinksTo(a, u) by {
        forall u ensures u in r <==> exists a :: a in attributes && AttributeLinksTo(a, u) {
          AttributeLinkedIdsSound(attributes[0], u);
          assert attributes[0] in attributes;
          assert forall a :: a in attributes[1..] ==> a in attributes;
          assert forall a :: a in attributes ==> a == attributes[0] || a in attributes[1..];
        }
      }
      r
  }

  /** `getLinkedEntitiesIds` of an entity: those of its Properties, then
      Relationships, then GeoProperties. */
  function EntityLinkedIds(e: NgsiLdEntity): (r: seq<string>)
    ensures forall u :: u in r <==> exists a :: a in Attributes(e) && AttributeLinksTo(a, u)
  {
    var r := ListLinkedIds(e.properties) + ListLinkedIds(e.relationships) + ListLinkedIds(e.geoProperties);
    assert forall a :: a in Attributes(e) <==> a in e.properties || a in e.relationships || a in e.geoProperties;
    r
  }
}
