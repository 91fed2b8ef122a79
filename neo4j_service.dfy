/** The legacy context registry's graph service: appending, updating and
    batch-creating entity attributes on a Neo4j graph.

    The graph is a store of entity records, of Property and Relationship
    nodes addressed by the node they hang off and their name (the expanded
    name of a Property, the relationship type name of a Relationship), and
    of the location of each entity.  The parsing helpers of the registry's
    `NgsiLdParsingUtils` are not part of this model and are ports. */
module Neo4jService {
  import opened Wrappers
  import opened Json
  import opened JsonLdUtils
  import U = UpdateResults

  // ---------------------------------------------------------------------
  // The graph

  /** A step from a node to one of its attribute nodes. */
  datatype Hop = PropertyHop(name: string) | RelationshipHop(typeName: string)

  /** The node an attribute hangs off: an entity, reached through the
      attribute nodes `via` (none for an attribute of the entity itself,
      one for an attribute of attribute). */
  datatype Subject = Subject(entityId: string, via: seq<Hop>)

  /** The address of an attribute node: its subject and its name. */
  datatype Slot = Slot(subject: Subject, name: string)

  /** The Entity node `id`. */
  function EntityNode(id: string): Subject {
    Subject(id, [])
  }

  /** The Property node at `slot`, as the subject of its attributes. */
  function PropertyNode(slot: Slot): Subject {
    Subject(slot.subject.entityId, slot.subject.via + [PropertyHop(slot.name)])
  }

  /** The Relationship node at `slot`, as the subject of its attributes. */
  function RelationshipNode(slot: Slot): Subject {
    Subject(slot.subject.entityId, slot.subject.via + [RelationshipHop(slot.name)])
  }

  /** A Property node: `value`, `unitCode`, `observedAt` (dates as text). */
  datatype PropertyRecord = PropertyRecord(value: Json, unitCode: Option<string>, observedAt: Option<string>)

  /** A Relationship node: its `type` list, `observedAt` and the entity its
      typed edge points to. */
  datatype RelationshipRecord = RelationshipRecord(relType: seq<string>, observedAt: Option<string>, target: string)

  /** An Entity node's `type` and `contexts`. */
  datatype EntityRecord = EntityRecord(types: seq<string>, contexts: seq<string>)

  /** The `location` point of an entity (coordinates are opaque values). */
  datatype Location = Location(longitude: Json, latitude: Json)

  datatype Store = Store(
    entities: map<string, EntityRecord>,
    properties: map<Slot, PropertyRecord>,
    relationships: map<Slot, RelationshipRecord>,
    locations: map<string, Location>)

  /** The outcome of an operation on the graph: its result and the graph
      after it (after a raised exception, the graph as far as it got: none
      of these operations runs in a transaction of its own). */
  datatype Step<T> = Step(result: Result<T>, store: Store)

  /** The parsing helpers of the registry, which are not part of this model. */
  datatype Ports = Ports(
    /** `extractShortTypeFromExpanded` */
    shortName: string -> string,
    /** `toRelationshipTypeName` */
    relationshipTypeName: string -> string,
    /** `expandValueAsMap` */
    expandValueAsMap: Json -> Result<Members>,
    /** `isAttributeOfType(values, type)` with the type's uri */
    isAttributeOfType: (Members, string) -> bool,
    /** `getPropertyValueFromMap` */
    propertyValue: (Members, string) -> Option<Json>,
    /** `getPropertyValueFromMapAsString` */
    propertyString: (Members, string) -> Option<string>,
    /** `getPropertyValueFromMapAsDateTime` */
    propertyDateTime: (Members, string) -> Option<string>,
    /** Jackson's reading of an expanded payload as an `Entity`: its id and
        types */
    readEntity: Members -> Result<(string, seq<string>)>,
    /** `getRelationshipObjectId` */
    relationshipObjectId: Members -> Result<string>,
    /** `extractTypeFromPayload` */
    typeOf: Members -> Result<string>,
    /** `NGSILD_PROPERTIES_CORE_MEMBERS` plus `NGSILD_RELATIONSHIPS_CORE_MEMBERS` */
    coreMembers: set<string>)

  /** The type the registry writes for a GeoJSON point. */
  const POINT_TYPE := "https://uri.etsi.org/ngsi-ld/default-context/Point"

  /** The registry's `UpdateResult`: the updated attribute names and the
      reasons for the others. */
  datatype UpdateResult = UpdateResult(updated: seq<string>, notUpdated: seq<U.NotUpdatedDetails>)

  function Names(ds: seq<U.NotUpdatedDetails>): (r: seq<string>)
    ensures |r| == |ds| && forall i :: 0 <= i < |ds| ==> r[i] == ds[i].attributeName
  {
    seq(|ds|, i requires 0 <= i < |ds| => ds[i].attributeName)
  }

  // ---------------------------------------------------------------------
  // Elementary changes of the graph

  /** `createTempEntityInBatch`: an entity record with the one given type. */
  function TempEntity(s: Store, entityId: string, entityType: string, contexts: seq<string>): (t: Store)
    ensures t.entities == s.entities[entityId := EntityRecord([entityType], contexts)]
    ensures t.properties == s.properties && t.relationships == s.relationships && t.locations == s.locations
  {
    s.(entities := s.entities[entityId := EntityRecord([entityType], contexts)])
  }

  /** `deletePropertyFromEntity` / `deleteRelationshipFromEntity`: the node at
      `slot` and the attributes hanging off it (`node`) are removed. */
  function AttributeDeleted(s: Store, slot: Slot, node: Subject): Store
  {
    s.(properties := s.properties - ({slot} + set k | k in s.properties && k.subject == node),
       relationships := s.relationships - ({slot} + set k | k in s.relationships && k.subject == node))
  }

  /** `deleteEntity`: the entity, its location and every attribute node
      rooted at it are removed. */
  function EntityDeleted(s: Store, entityId: string): Store
  {
    Store(s.entities - {entityId},
          s.properties - (set k | k in s.properties && k.subject.entityId == entityId),
          s.relationships - (set k | k in s.relationships && k.subject.entityId == entityId),
          s.locations - {entityId})
  }

  // ---------------------------------------------------------------------
  // Creating attributes

  /** An attribute's expanded value, after `expandValueAsMap`. */
  datatype Entry = Entry(key: string, values: Members)

  /** `it[0] is Map<*, *>` on an expanded value, which is a list. */
  function FirstIsMap(v: Json): (r: Result<bool>)
    ensures r.Ok? <==> v.JArr? && |v.elems| > 0
    ensures r.Ok? ==> r.value == v.elems[0].JObj?
  {
    var elems :- AsArray(v);
    var first :- At(elems, 0);
    Ok(first.JObj?)
  }

  /** `filterValues { it[0] is Map<*, *> }`: every value is tested before
      anything else happens. */
  function MapValued(ms: Members): (r: Result<Members>)
    ensures r.Ok? <==> forall i :: 0 <= i < |ms| ==> FirstIsMap(ms[i].value).Ok?
    ensures r.Ok? ==> forall m :: m in r.value <==> m in ms && FirstIsMap(m.value) == Ok(true)
    decreases |ms|
  {
    if ms == [] then Ok([])
    else
      var isMap :- FirstIsMap(ms[0].value);
      var rest :- MapValued(ms[1..]);
      assert forall m :: m in ms <==> m == ms[0] || m in ms[1..];
      Ok(if isMap then [ms[0]] + rest else rest)
  }

  /** What `MapValued` keeps is the in-order filter of the map-valued
      members, repetitions included. */
  lemma {:induction false} MapValuedFilter(ms: Members)
    ensures MapValued(ms).Ok? ==> MapValued(ms).value == Filter(ms, (m: Member) => FirstIsMap(m.value) == Ok(true))
    decreases |ms|
  {
    if ms != [] {
      MapValuedFilter(ms[1..]);
    }
  }

  /** `mapValues { expandValueAsMap(it.value) }` */
  function Expanded(p: Ports, ms: Members): (r: Result<seq<Entry>>)
    ensures r.Ok? ==> |r.value| == |ms| && forall i :: 0 <= i < |ms| ==>
      r.value[i].key == ms[i].key && p.expandValueAsMap(ms[i].value) == Ok(r.value[i].values)
    decreases |ms|
  {
    if ms == [] then Ok([])
    else
      var values :- p.expandValueAsMap(ms[0].value);
      var rest :- Expanded(p, ms[1..]);
      Ok([Entry(ms[0].key, values)] + rest)
  }

  /** `filter { key not a core member && isAttributeOfType(value, Property) }` */
  function PropertyEntries(p: Ports, es: seq<Entry>): (r: seq<Entry>)
    ensures forall e :: e in r <==> e in es && e.key !in p.coreMembers && p.isAttributeOfType(e.values, NGSILD_PROPERTY_TYPE)
    decreases |es|
  {
    if es == [] then []
    else
      var rest := PropertyEntries(p, es[1..]);
      assert forall e :: e in es <==> e == es[0] || e in es[1..];
      if es[0].key !in p.coreMembers && p.isAttributeOfType(es[0].values, NGSILD_PROPERTY_TYPE) then [es[0]] + rest else rest
  }

  /** What `PropertyEntries` keeps is the in-order filter of the non-core
      Property entries, repetitions included. */
  lemma {:induction false} PropertyEntriesFilter(p: Ports, es: seq<Entry>)
    ensures PropertyEntries(p, es) ==
      Filter(es, (e: Entry) => e.key !in p.coreMembers && p.isAttributeOfType(e.values, NGSILD_PROPERTY_TYPE))
    decreases |es|
  {
    if es != [] {
      PropertyEntriesFilter(p, es[1..]);
    }
  }

  /** The attributes of attribute that `createAttributeProperties` and
      `updatePropertiesOfAttribute` walk: the non-core Property maps. */
  function NestedPropertyEntries(p: Ports, values: Members): Result<seq<Entry>> {
    var maps :- MapValued(values);
    var expanded :- Expanded(p, maps);
    Ok(PropertyEntries(p, expanded))
  }

  /** One Property created by `createAttributeProperties`: its value is the
      `hasValue` one, or else the short-hand `@value`. */
  function CreateNestedPropertyStep(s: Store, p: Ports, subject: Subject, e: Entry): Step<()>
  {
    var value := p.propertyValue(e.values, NGSILD_PROPERTY_VALUE);
    var v := if value.Some? then Ok(value.value) else Present(Get(e.values, JSONLD_VALUE_KW));
    if v.Err? then Step(Err(v.error), s)
    else
      var record := PropertyRecord(v.value, p.propertyString(e.values, NGSILD_UNIT_CODE_PROPERTY),
                                   p.propertyDateTime(e.values, NGSILD_OBSERVED_AT_PROPERTY));
      Step(Ok(()), s.(properties := s.properties[Slot(subject, e.key) := record]))
  }

  function CreateNestedProperties(s: Store, p: Ports, subject: Subject, es: seq<Entry>): Step<()>
    decreases |es|
  {
    if es == [] then Step(Ok(()), s)
    else
      var step := CreateNestedPropertyStep(s, p, subject, es[0]);
      if step.result.Err? then step else CreateNestedProperties(step.store, p, subject, es[1..])
  }

  /** `createAttributeProperties` */
  function CreateAttributePropertiesStep(s: Store, p: Ports, subject: Subject, values: Members): Step<()> {
    match NestedPropertyEntries(p, values)
    case Err(e) => Step(Err(e), s)
    case Ok(es) => CreateNestedProperties(s, p, subject, es)
  }

  /** The bad-request message for a relationship target that does not exist.  Where the source
      interpolates an attribute node's own text rendering, which this model does not define, the
      message leaves that part out and keeps the fixed text around it. */
  function TargetMissing(objectId: string, where: string): string {
    "Target entity " + objectId + " in " + where
  }

  /** One entry of `createAttributeRelationships`: a Relationship map whose
      target exists is linked to it; outside a batch a missing target is a
      bad request; in a batch it must be one of the batch's valid entities,
      and a placeholder entity with its declared type is created for it. */
  function CreateNestedRelationshipStep(s: Store, p: Ports, subject: Subject, m: Member, isInBatchContext: bool,
                                    validEntities: map<string, string>): Step<()>
  {
    match FirstIsMap(m.value)
    case Err(e) => Step(Err(e), s)
    case Ok(isMap) =>
      if !isMap then Step(Ok(()), s)
      else
        var values := m.value.elems[0].members;
        if !p.isAttributeOfType(values, NGSILD_RELATIONSHIP_TYPE) then Step(Ok(()), s)
        else match p.relationshipObjectId(values)
          case Err(e) => Step(Err(e), s)
          case Ok(objectId) =>
            var slot := Slot(subject, p.relationshipTypeName(m.key));
            var record := RelationshipRecord([m.key], p.propertyDateTime(values, NGSILD_OBSERVED_AT_PROPERTY), objectId);
            if objectId in s.entities then Step(Ok(()), s.(relationships := s.relationships[slot := record]))
            else if !isInBatchContext then Step(Err(BadRequestData(TargetMissing(objectId,
                   "property " + " does not exist, create it first"))), s)
            else if objectId !in validEntities then Step(Err(BadRequestData(TargetMissing(objectId,
                   "relationship " + " does not exist, create it first"))), s)
            else
              var placed := TempEntity(s, objectId, validEntities[objectId], []);
              Step(Ok(()), placed.(relationships := placed.relationships[slot := record]))
  }

  function CreateNestedRelationships(s: Store, p: Ports, subject: Subject, ms: Members, isInBatchContext: bool,
                                     validEntities: map<string, string>): Step<()>
    decreases |ms|
  {
    if ms == [] then Step(Ok(()), s)
    else
      var step := CreateNestedRelationshipStep(s, p, subject, ms[0], isInBatchContext, validEntities);
      if step.result.Err? then step
      else CreateNestedRelationships(step.store, p, subject, ms[1..], isInBatchContext, validEntities)
  }

  /** `createAttributeRelationships` */
  function CreateAttributeRelationshipsStep(s: Store, p: Ports, subject: Subject, values: Members, isInBatchContext: bool,
                                        validEntities: map<string, string>): Step<()> {
    CreateNestedRelationships(s, p, subject, values, isInBatchContext, validEntities)
  }

  /** `createEntityProperty`: the Property node, then its properties, then its
      relationships; a Property without `hasValue` is a bad request. */
  function CreateEntityPropertyStep(s: Store, p: Ports, entityId: string, key: string, values: Members,
                                isInBatchContext: bool, validEntities: map<string, string>): Step<()>
  {
    match p.propertyValue(values, NGSILD_PROPERTY_VALUE)
    case None => Step(Err(BadRequestData("Key " + NGSILD_PROPERTY_VALUE + " not found in ")), s)
    case Some(v) =>
      var slot := Slot(EntityNode(entityId), key);
      var record := PropertyRecord(v, p.propertyString(values, NGSILD_UNIT_CODE_PROPERTY),
                                   p.propertyDateTime(values, NGSILD_OBSERVED_AT_PROPERTY));
      var withProperty := s.(properties := s.properties[slot := record]);
      var nested := CreateAttributePropertiesStep(withProperty, p, PropertyNode(slot), values);
      if nested.result.Err? then nested
      else CreateAttributeRelationshipsStep(nested.store, p, PropertyNode(slot), values, isInBatchContext, validEntities)
  }

  /** `createEntityRelationship`: the Relationship node with its edge to the
      target, then its properties and relationships (the latter outside any
      batch). */
  function CreateEntityRelationshipStep(s: Store, p: Ports, entityId: string, key: string, values: Members,
                                    targetEntityId: string): Step<()>
  {
    var slot := Slot(EntityNode(entityId), p.relationshipTypeName(key));
    var record := RelationshipRecord([key], p.propertyDateTime(values, NGSILD_OBSERVED_AT_PROPERTY), targetEntityId);
    var withRelationship := s.(relationships := s.relationships[slot := record]);
    var nested := CreateAttributePropertiesStep(withRelationship, p, RelationshipNode(slot), values);
    if nested.result.Err? then nested
    else CreateAttributeRelationshipsStep(nested.store, p, RelationshipNode(slot), values, false, map[])
  }

  // ---------------------------------------------------------------------
  // Locations

  /** The geometry of a GeoProperty: `expandValueAsMap(values[hasValue]!!)`
      and its first `@type`. */
  function Geometry(p: Ports, values: Members): Result<(string, Members)> {
    var geo :- Present(Get(values, NGSILD_GEOPROPERTY_VALUE));
    var geoValue :- p.expandValueAsMap(geo);
    var types :- Present(Get(geoValue, JSONLD_TYPE));
    var typeList :- AsArray(types);
    var first :- At(typeList, 0);
    var geoType :- AsString(first);
    Ok((geoType, geoValue))
  }

  /** The longitude and latitude `@value`s of a point's coordinates; both are
      read before either is required. */
  function PointOf(geoValue: Members): Result<Location> {
    var coordinates :- Present(Get(geoValue, NGSILD_COORDINATES_PROPERTY));
    var pair :- AsArray(coordinates);
    var first :- At(pair, 0);
    var firstMap :- AsObject(first);
    var longitude := Get(firstMap, JSONLD_VALUE_KW);
    var second :- At(pair, 1);
    var secondMap :- AsObject(second);
    var latitude := Get(secondMap, JSONLD_VALUE_KW);
    var lon :- Present(longitude);
    var lat :- Present(latitude);
    Ok(Location(lon, lat))
  }

  /** `createLocationProperty`: a Point becomes the entity's location; any
      other geometry is only logged.  The answer says whether a location was
      stored (the repository's row count is not modelled). */
  function CreateLocationPropertyStep(s: Store, p: Ports, entityId: string, values: Members): (r: Step<bool>)
    ensures r.result.Ok? && !r.result.value ==> r.store == s
    ensures r.store.entities == s.entities && r.store.properties == s.properties && r.store.relationships == s.relationships
  {
    match Geometry(p, values)
    case Err(e) => Step(Err(e), s)
    case Ok((geoType, geoValue)) =>
      if geoType != POINT_TYPE then Step(Ok(false), s)
      else match PointOf(geoValue)
        case Err(e) => Step(Err(e), s)
        case Ok(location) => Step(Ok(true), s.(locations := s.locations[entityId := location]))
  }

  /** `updateLocationPropertyOfEntity`: a Point replaces the location; any
      other geometry is a bad request. */
  function UpdateLocationPropertyOfEntityStep(s: Store, p: Ports, entityId: string, values: Members): (r: Step<()>)
    ensures r.result.Err? ==> r.store == s
    ensures r.result.Ok? <==> Geometry(p, values).Ok? && Geometry(p, values).value.0 == POINT_TYPE &&
                              PointOf(Geometry(p, values).value.1).Ok?
    ensures Geometry(p, values).Ok? && Geometry(p, values).value.0 != POINT_TYPE ==>
      r.result == Err(BadRequestData("Unsupported geometry type : " + Geometry(p, values).value.0))
    ensures r.result.Ok? ==> r.store == s.(locations := s.locations[entityId := PointOf(Geometry(p, values).value.1).value])
  {
    match Geometry(p, values)
    case Err(e) => Step(Err(e), s)
    case Ok((geoType, geoValue)) =>
      if geoType != POINT_TYPE then Step(Err(BadRequestData("Unsupported geometry type : " + geoType)), s)
      else match PointOf(geoValue)
        case Err(e) => Step(Err(e), s)
        case Ok(location) => Step(Ok(()), s.(locations := s.locations[entityId := location]))
  }

  // ---------------------------------------------------------------------
  // createEntity

  /** `forEach` over the expanded attributes; the first exception stops it. */
  function CreateEach(s: Store, es: seq<Entry>, create: (Store, Entry) -> Step<()>): Step<()>
    decreases |es|
  {
    if es == [] then Step(Ok(()), s)
    else
      var step := create(s, es[0]);
      if step.result.Err? then step else CreateEach(step.store, es[1..], create)
  }

  /** A Relationship of `createEntity`: its object must already exist. */
  function CreateRelationshipOfEntryStep(s: Store, p: Ports, entityId: string, e: Entry): Step<()> {
    if !p.isAttributeOfType(e.values, NGSILD_RELATIONSHIP_TYPE) then Step(Ok(()), s)
    else match p.relationshipObjectId(e.values)
      case Err(err) => Step(Err(err), s)
      case Ok(objectId) =>
        if objectId !in s.entities then
          Step(Err(BadRequestData(TargetMissing(objectId, "relationship " + e.key + " does not exist, create it first"))), s)
        else CreateEntityRelationshipStep(s, p, entityId, e.key, e.values, objectId)
  }

  /** A Property of `createEntity`, created outside any batch. */
  function CreatePropertyOfEntryStep(s: Store, p: Ports, entityId: string, e: Entry): Step<()> {
    if !p.isAttributeOfType(e.values, NGSILD_PROPERTY_TYPE) then Step(Ok(()), s)
    else CreateEntityPropertyStep(s, p, entityId, e.key, e.values, false, map[])
  }

  /** A GeoProperty of `createEntity`; the stored-or-not answer is dropped. */
  function CreateLocationOfEntryStep(s: Store, p: Ports, entityId: string, e: Entry): Step<()> {
    if !p.isAttributeOfType(e.values, NGSILD_GEOPROPERTY_TYPE) then Step(Ok(()), s)
    else
      var step := CreateLocationPropertyStep(s, p, entityId, e.values);
      if step.result.Err? then Step(Err(step.result.error), step.store) else Step(Ok(()), step.store)
  }

  /** `createEntity`, a transaction: the entity record, then its
      Relationships, its Properties and its GeoProperties, each phase over
      all the attributes; any exception leaves the graph as it was.  The
      answer is the entity's id. */
  function CreateEntityStep(s: Store, p: Ports, expandedPayload: Members, contexts: seq<string>): (r: Step<string>)
    ensures r.result.Err? ==> r.store == s
  {
    match p.readEntity(expandedPayload)
    case Err(err) => Step(Err(err), s)
    case Ok((entityId, types)) =>
      var saved := s.(entities := s.entities[entityId := EntityRecord(types, contexts)]);
      match Expanded(p, Without(expandedPayload, {JSONLD_ID, JSONLD_TYPE}))
      case Err(err) => Step(Err(err), s)
      case Ok(es) =>
        var created := CreateAttributesOfEntity(saved, p, entityId, es);
        if created.result.Err? then Step(Err(created.result.error), s) else Step(Ok(entityId), created.store)
  }

  /** The three phases of `createEntity` over the expanded attributes. */
  function CreateAttributesOfEntity(s: Store, p: Ports, entityId: string, es: seq<Entry>): Step<()> {
    var linked := CreateEach(s, es, (t, e) => CreateRelationshipOfEntryStep(t, p, entityId, e));
    if linked.result.Err? then linked
    else
      var valued := CreateEach(linked.store, es, (t, e) => CreatePropertyOfEntryStep(t, p, entityId, e));
      if valued.result.Err? then valued
      else CreateEach(valued.store, es, (t, e) => CreateLocationOfEntryStep(t, p, entityId, e))
  }

  // ---------------------------------------------------------------------
  // appendEntityAttributes

  /** One element of `updateStatuses`: the attribute key, whether it was
      appended and, when it was not, why. */
  datatype Status = Status(key: string, updated: bool, reason: Option<string>)

  /** A creation that succeeded counts the attribute as appended. */
  function Appended<T>(step: Step<T>, key: string): (r: Step<Status>)
    ensures r.store == step.store
    ensures r.result.Ok? <==> step.result.Ok?
    ensures r.result.Ok? ==> r.result.value == Status(key, true, None)
    ensures r.result.Err? ==> r.result.error == step.result.error
  {
    if step.result.Err? then Step(Err(step.result.error), step.store)
    else Step(Ok(Status(key, true, None)), step.store)
  }

  /** The reason an existing attribute is left alone when overwriting is
      not allowed; `kind` ends with a space. */
  function AlreadyExists(kind: string, name: string, entityId: string): string {
    kind + name + " already exists on " + entityId + " and overwrite is not allowed, ignoring"
  }

  function Ignored(s: Store, key: string, kind: string, name: string, entityId: string): Step<Status> {
    Step(Ok(Status(key, false, Some(AlreadyExists(kind, name, entityId)))), s)
  }

  const NO_SUCH_ELEMENT := Crash("NoSuchElementException")

  /** Linking the entity to the relationship's object: in a batch, a missing
      object must be one of the batch's valid entities and is created as a
      placeholder; outside a batch the object is linked whether it exists or
      not. */
  function LinkRelationshipStep(s: Store, p: Ports, entityId: string, key: string, values: Members,
                            isInBatchContext: bool, validEntities: map<string, string>): Step<Status>
  {
    match p.relationshipObjectId(values)
    case Err(e) => Step(Err(e), s)
    case Ok(objectId) =>
      if objectId !in s.entities && isInBatchContext then
        if objectId !in validEntities then
          Step(Err(BadRequestData(TargetMissing(objectId, "relationship " + p.shortName(key)
                                                 + " does not exist, create it first"))), s)
        else if entityId !in s.entities then Step(Err(NO_SUCH_ELEMENT), s)
        else
          var placed := TempEntity(s, objectId, validEntities[objectId], []);
          Appended(CreateEntityRelationshipStep(placed, p, entityId, key, values, objectId), key)
      else if entityId !in s.entities then Step(Err(NO_SUCH_ELEMENT), s)
      else Appended(CreateEntityRelationshipStep(s, p, entityId, key, values, objectId), key)
  }

  /** The Relationship branch: looked up by the type name of the short name. */
  function AppendRelationshipStep(s: Store, p: Ports, entityId: string, key: string, values: Members,
                              disallowOverwrite: bool, isInBatchContext: bool,
                              validEntities: map<string, string>): Step<Status>
  {
    var name := p.shortName(key);
    var slot := Slot(EntityNode(entityId), p.relationshipTypeName(name));
    if slot !in s.relationships then LinkRelationshipStep(s, p, entityId, key, values, isInBatchContext, validEntities)
    else if disallowOverwrite then Ignored(s, key, "Relationship ", name, entityId)
    else
      var cleared := AttributeDeleted(s, slot, RelationshipNode(slot));
      LinkRelationshipStep(cleared, p, entityId, key, values, isInBatchContext, validEntities)
  }

  /** The Property branch: looked up by the expanded name. */
  function AppendPropertyStep(s: Store, p: Ports, entityId: string, key: string, values: Members,
                          disallowOverwrite: bool, isInBatchContext: bool,
                          validEntities: map<string, string>): Step<Status>
  {
    var slot := Slot(EntityNode(entityId), key);
    if slot !in s.properties then
      if entityId !in s.entities then Step(Err(NO_SUCH_ELEMENT), s)
      else Appended(CreateEntityPropertyStep(s, p, entityId, key, values, isInBatchContext, validEntities), key)
    else if disallowOverwrite then Ignored(s, key, "Property ", key, entityId)
    else
      var cleared := AttributeDeleted(s, slot, PropertyNode(slot));
      if entityId !in cleared.entities then Step(Err(NO_SUCH_ELEMENT), cleared)
      else Appended(CreateEntityPropertyStep(cleared, p, entityId, key, values, isInBatchContext, validEntities), key)
  }

  /** The GeoProperty branch: an entity has its GeoProperty when it has a
      location. */
  function AppendGeoPropertyStep(s: Store, p: Ports, entityId: string, key: string, values: Members,
                             disallowOverwrite: bool): Step<Status>
  {
    if entityId !in s.locations then
      if entityId !in s.entities then Step(Err(NO_SUCH_ELEMENT), s)
      else Appended(CreateLocationPropertyStep(s, p, entityId, values), key)
    else if disallowOverwrite then Ignored(s, key, "GeoProperty ", key, entityId)
    else if entityId !in s.entities then Step(Err(NO_SUCH_ELEMENT), s)
    else Appended(UpdateLocationPropertyOfEntityStep(s, p, entityId, values), key)
  }

  /** `attributeValue["@type"]!![0]` */
  function AttributeTypeOf(values: Members): Result<Json> {
    var types :- Present(Get(values, JSONLD_TYPE));
    var typeList :- AsArray(types);
    At(typeList, 0)
  }

  /** A type as string interpolation prints it. */
  function TypeText(t: Json): string {
    if t.JStr? then t.s else Render(t)
  }

  /** One attribute of `appendEntityAttributes`. */
  function AppendAttributeStep(s: Store, p: Ports, entityId: string, m: Member, disallowOverwrite: bool,
                           isInBatchContext: bool, validEntities: map<string, string>): Step<Status>
  {
    match p.expandValueAsMap(m.value)
    case Err(e) => Step(Err(e), s)
    case Ok(values) =>
      if !HasKey(values, JSONLD_TYPE) then Step(Err(BadRequestData("@type not found in ")), s)
      else match AttributeTypeOf(values)
        case Err(e) => Step(Err(e), s)
        case Ok(t) =>
          if t == JStr(NGSILD_RELATIONSHIP_TYPE) then
            AppendRelationshipStep(s, p, entityId, m.key, values, disallowOverwrite, isInBatchContext, validEntities)
          else if t == JStr(NGSILD_PROPERTY_TYPE) then
            AppendPropertyStep(s, p, entityId, m.key, values, disallowOverwrite, isInBatchContext, validEntities)
          else if t == JStr(NGSILD_GEOPROPERTY_TYPE) then
            AppendGeoPropertyStep(s, p, entityId, m.key, values, disallowOverwrite)
          else Step(Ok(Status(m.key, false, Some("Unknown attribute type " + TypeText(t)))), s)
  }

  /** `attributes.map { ... }`, the statuses so far in `done`; the first
      exception stops the walk. */
  function AppendAll(s: Store, ms: Members, attribute: (Store, Member) -> Step<Status>, done: seq<Status>): Step<seq<Status>>
    decreases |ms|
  {
    if ms == [] then Step(Ok(done), s)
    else
      var step := attribute(s, ms[0]);
      if step.result.Err? then Step(Err(step.result.error), step.store)
      else AppendAll(step.store, ms[1..], attribute, done + [step.result.value])
  }

  /** `updated` and `notUpdated` of the statuses, with `third!!` on the
      reasons of the statuses not appended. */
  function Collect(statuses: seq<Status>): (r: Result<UpdateResult>)
    decreases |statuses|
  {
    if statuses == [] then Ok(UpdateResult([], []))
    else
      var rest :- Collect(statuses[1..]);
      var st := statuses[0];
      if st.updated then Ok(UpdateResult([st.key] + rest.updated, rest.notUpdated))
      else
        var reason :- Required(st.reason);
        Ok(UpdateResult(rest.updated, [U.NotUpdatedDetails(st.key, reason)] + rest.notUpdated))
  }

  /** `x!!` on a string */
  function Required(o: Option<string>): Result<string> {
    if o.Some? then Ok(o.value) else Err(Crash("NullPointerException"))
  }

  /** `appendEntityAttributes` */
  function AppendEntityAttributesStep(s: Store, p: Ports, entityId: string, attributes: Members, disallowOverwrite: bool,
                                  isInBatchContext: bool, validEntities: map<string, string>): Step<UpdateResult>
  {
    var all := AppendAll(s, attributes, (t, m) => AppendAttributeStep(t, p, entityId, m, disallowOverwrite, isInBatchContext, validEntities), []);
    if all.result.Err? then Step(Err(all.result.error), all.store)
    else Step(Collect(all.result.value), all.store)
  }

  // ---------------------------------------------------------------------
  // updateEntityAttributes

  /** The Property that `updatePropertyValues` reads from a payload: its
      value is `hasValue`, or else the short-hand `@value`, which must be
      there; its unit code and observation date are read if present. */
  function NewPropertyRecord(p: Ports, values: Members): (r: Result<PropertyRecord>)
    ensures r.Ok? <==> p.propertyValue(values, NGSILD_PROPERTY_VALUE).Some? || HasKey(values, JSONLD_VALUE_KW)
    ensures r.Err? ==> r.error == Crash("NullPointerException")
    ensures r.Ok? ==> (r.value.unitCode == p.propertyString(values, NGSILD_UNIT_CODE_PROPERTY) &&
                       r.value.observedAt == p.propertyDateTime(values, NGSILD_OBSERVED_AT_PROPERTY))
    ensures r.Ok? && p.propertyValue(values, NGSILD_PROPERTY_VALUE).Some? ==>
      r.value.value == p.propertyValue(values, NGSILD_PROPERTY_VALUE).value
    ensures r.Ok? && p.propertyValue(values, NGSILD_PROPERTY_VALUE).None? ==>
      Get(values, JSONLD_VALUE_KW) == Some(r.value.value)
  {
    var unitCode := p.propertyString(values, NGSILD_UNIT_CODE_PROPERTY);
    var value := p.propertyValue(values, NGSILD_PROPERTY_VALUE);
    var v :- if value.Some? then Ok(value.value) else Present(Get(values, JSONLD_VALUE_KW));
    Ok(PropertyRecord(v, unitCode, p.propertyDateTime(values, NGSILD_OBSERVED_AT_PROPERTY)))
  }

  /** `updatePropertyValues`: the stored Property at `slot` becomes the one
      read from the payload, and nothing else changes. */
  function UpdatePropertyValuesStep(s: Store, p: Ports, slot: Slot, values: Members): (r: Step<()>)
    requires slot in s.properties
    ensures r.result.Ok? <==> NewPropertyRecord(p, values).Ok?
    ensures r.result.Err? ==> r.store == s && r.result.error == NewPropertyRecord(p, values).error
    ensures r.result.Ok? ==> r.store == s.(properties := s.properties[slot := NewPropertyRecord(p, values).value])
  {
    match NewPropertyRecord(p, values)
    case Err(e) => Step(Err(e), s)
    case Ok(record) => Step(Ok(()), s.(properties := s.properties[slot := record]))
  }

  /** The Relationship `updateRelationshipValues` leaves: the same type,
      re-pointed to `targetEntityId`, with the payload's observation date. */
  function Repointed(p: Ports, before: RelationshipRecord, values: Members, targetEntityId: string): (r: RelationshipRecord)
    ensures r.relType == before.relType && r.target == targetEntityId
    ensures r.observedAt == p.propertyDateTime(values, NGSILD_OBSERVED_AT_PROPERTY)
  {
    before.(observedAt := p.propertyDateTime(values, NGSILD_OBSERVED_AT_PROPERTY), target := targetEntityId)
  }

  /** `updateRelationshipValues`: the stored Relationship is re-pointed to an
      existing target and takes the new observation date; a missing target
      is a bad request. */
  function UpdateRelationshipValuesStep(s: Store, p: Ports, subject: Subject, key: string, values: Members,
                                    targetEntityId: string): (r: Step<()>)
    requires Slot(subject, p.relationshipTypeName(key)) in s.relationships
    ensures r.result.Ok? <==> targetEntityId in s.entities
    ensures r.result.Err? ==> (r.store == s &&
      r.result.error == BadRequestData("Target entity " + targetEntityId + " does not exist, create it first"))
    ensures var slot := Slot(subject, p.relationshipTypeName(key));
      r.result.Ok? ==> r.store == s.(relationships := s.relationships[slot := Repointed(p, s.relationships[slot], values, targetEntityId)])
  {
    if targetEntityId !in s.entities then
      Step(Err(BadRequestData("Target entity " + targetEntityId + " does not exist, create it first")), s)
    else
      var slot := Slot(subject, p.relationshipTypeName(key));
      Step(Ok(()), s.(relationships := s.relationships[slot := Repointed(p, s.relationships[slot], values, targetEntityId)]))
  }

  /** Whether one graph has the same nodes as another: only values changed. */
  predicate SameNodes(s: Store, t: Store) {
    t.entities == s.entities && t.locations.Keys == s.locations.Keys &&
    t.properties.Keys == s.properties.Keys && t.relationships.Keys == s.relationships.Keys
  }

  /** Whether `t` differs from `s` only in the values of the attributes hung
      off `subject`: the same nodes, the same locations, every other Property
      and Relationship as it was, and every Relationship of the same type. */
  predicate OnlyUnder(s: Store, t: Store, subject: Subject) {
    SameNodes(s, t) && t.locations == s.locations &&
    (forall sl :: sl in s.properties && sl.subject != subject ==> t.properties[sl] == s.properties[sl]) &&
    (forall sl :: sl in s.relationships && sl.subject != subject ==> t.relationships[sl] == s.relationships[sl]) &&
    (forall sl :: sl in s.relationships ==> t.relationships[sl].relType == s.relationships[sl].relType)
  }

  /** One Property of `updatePropertiesOfAttribute`: it must exist, and it
      becomes the one read from its payload. */
  function UpdateNestedProperty(s: Store, p: Ports, subject: Subject, e: Entry): (r: Step<()>)
    ensures Slot(subject, e.key) !in s.properties ==>
      r == Step(Err(BadRequestData("Property " + p.shortName(e.key) + " does not exist")), s)
    ensures r.result.Ok? <==> Slot(subject, e.key) in s.properties && NewPropertyRecord(p, e.values).Ok?
    ensures r.result.Err? ==> r.store == s
    ensures r.result.Ok? ==>
      r.store == s.(properties := s.properties[Slot(subject, e.key) := NewPropertyRecord(p, e.values).value])
    ensures OnlyUnder(s, r.store, subject)
  {
    var slot := Slot(subject, e.key);
    if slot !in s.properties then Step(Err(BadRequestData("Property " + p.shortName(e.key) + " does not exist")), s)
    else UpdatePropertyValuesStep(s, p, slot, e.values)
  }

  function UpdateNestedProperties(s: Store, p: Ports, subject: Subject, es: seq<Entry>): (r: Step<()>)
    ensures OnlyUnder(s, r.store, subject)
    decreases |es|
  {
    if es == [] then Step(Ok(()), s)
    else
      var step := UpdateNestedProperty(s, p, subject, es[0]);
      if step.result.Err? then step else UpdateNestedProperties(step.store, p, subject, es[1..])
  }

  /** `updatePropertiesOfAttribute` */
  function UpdatePropertiesOfAttributeStep(s: Store, p: Ports, subject: Subject, values: Members): (r: Step<()>)
    ensures OnlyUnder(s, r.store, subject)
  {
    match NestedPropertyEntries(p, values)
    case Err(e) => Step(Err(e), s)
    case Ok(es) => UpdateNestedProperties(s, p, subject, es)
  }

  /** The payload of an attribute of attribute that
      `updateRelationshipsOfAttribute` acts on: a first value that is a map
      typed as a Relationship. */
  function NestedRelationshipPayload(p: Ports, m: Member): (r: Option<Members>)
    ensures r.Some? <==> FirstIsMap(m.value) == Ok(true) && p.isAttributeOfType(m.value.elems[0].members, NGSILD_RELATIONSHIP_TYPE)
    ensures r.Some? ==> r.value == m.value.elems[0].members
  {
    if FirstIsMap(m.value) == Ok(true) && p.isAttributeOfType(m.value.elems[0].members, NGSILD_RELATIONSHIP_TYPE)
    then Some(m.value.elems[0].members) else None
  }

  /** One entry of `updateRelationshipsOfAttribute`: a Relationship map must
      name an existing relationship, and is re-pointed to its object. */
  function UpdateNestedRelationship(s: Store, p: Ports, subject: Subject, m: Member): (r: Step<()>)
    ensures r.result.Err? ==> r.store == s
    ensures NestedRelationshipPayload(p, m).None? ==> r.store == s && (r.result.Ok? <==> FirstIsMap(m.value).Ok?)
    ensures NestedRelationshipPayload(p, m).Some? ==>
      var values := NestedRelationshipPayload(p, m).value;
      var slot := Slot(subject, p.relationshipTypeName(m.key));
      (r.result.Ok? <==> slot in s.relationships && p.relationshipObjectId(values).Ok? &&
                         p.relationshipObjectId(values).value in s.entities) &&
      (r.result.Ok? ==> r.store == s.(relationships := s.relationships[slot :=
                         Repointed(p, s.relationships[slot], values, p.relationshipObjectId(values).value)]))
    ensures OnlyUnder(s, r.store, subject)
  {
    match FirstIsMap(m.value)
    case Err(e) => Step(Err(e), s)
    case Ok(isMap) =>
      if !isMap then Step(Ok(()), s)
      else
        var values := m.value.elems[0].members;
        if !p.isAttributeOfType(values, NGSILD_RELATIONSHIP_TYPE) then Step(Ok(()), s)
        else if Slot(subject, p.relationshipTypeName(m.key)) !in s.relationships then
          Step(Err(BadRequestData("Relationship " + p.relationshipTypeName(m.key) + " does not exist")), s)
        else match p.relationshipObjectId(values)
          case Err(e) => Step(Err(e), s)
          case Ok(objectId) => UpdateRelationshipValuesStep(s, p, subject, m.key, values, objectId)
  }

  function UpdateNestedRelationships(s: Store, p: Ports, subject: Subject, ms: Members): (r: Step<()>)
    ensures OnlyUnder(s, r.store, subject)
    decreases |ms|
  {
    if ms == [] then Step(Ok(()), s)
    else
      var step := UpdateNestedRelationship(s, p, subject, ms[0]);
      if step.result.Err? then step else UpdateNestedRelationships(step.store, p, subject, ms[1..])
  }

  /** `updateRelationshipsOfAttribute` */
  function UpdateRelationshipsOfAttributeStep(s: Store, p: Ports, subject: Subject, values: Members): (r: Step<()>)
    ensures OnlyUnder(s, r.store, subject)
  {
    UpdateNestedRelationships(s, p, subject, values)
  }

  /** `updatePropertyOfEntity`: the values, then the attributes of attribute.
      When it goes through, the entity's Property is the one read from the
      payload; only it and the attributes hung off it change. */
  function UpdatePropertyOfEntityStep(s: Store, p: Ports, entityId: string, key: string, values: Members): (r: Step<()>)
    requires Slot(EntityNode(entityId), key) in s.properties
    ensures SameNodes(s, r.store) && r.store.locations == s.locations
    ensures NewPropertyRecord(p, values).Err? ==> r == Step(Err(NewPropertyRecord(p, values).error), s)
    ensures var slot := Slot(EntityNode(entityId), key);
      r.result.Ok? ==> NewPropertyRecord(p, values).Ok? && r.store.properties[slot] == NewPropertyRecord(p, values).value
    ensures var slot := Slot(EntityNode(entityId), key);
      forall sl :: sl in s.properties && sl != slot && sl.subject != PropertyNode(slot) ==> r.store.properties[sl] == s.properties[sl]
    ensures var slot := Slot(EntityNode(entityId), key);
      forall sl :: sl in s.relationships && sl.subject != PropertyNode(slot) ==> r.store.relationships[sl] == s.relationships[sl]
  {
    var slot := Slot(EntityNode(entityId), key);
    var own := UpdatePropertyValuesStep(s, p, slot, values);
    if own.result.Err? then own
    else
      assert |PropertyNode(slot).via| == 1;
      var nested := UpdatePropertiesOfAttributeStep(own.store, p, PropertyNode(slot), values);
      if nested.result.Err? then nested
      else UpdateRelationshipsOfAttributeStep(nested.store, p, PropertyNode(slot), values)
  }

  /** `updateRelationshipOfEntity`: the target, then the attributes of
      attribute. When it goes through, the entity's Relationship is
      re-pointed to an existing target; only it and the attributes hung off
      it change. */
  function UpdateRelationshipOfEntityStep(s: Store, p: Ports, entityId: string, key: string, values: Members,
                                      targetEntityId: string): (r: Step<()>)
    requires Slot(EntityNode(entityId), p.relationshipTypeName(key)) in s.relationships
    ensures SameNodes(s, r.store) && r.store.locations == s.locations && r.store.entities == s.entities
    ensures targetEntityId !in s.entities ==>
      r == Step(Err(BadRequestData("Target entity " + targetEntityId + " does not exist, create it first")), s)
    ensures var slot := Slot(EntityNode(entityId), p.relationshipTypeName(key));
      r.result.Ok? ==> (targetEntityId in s.entities &&
                        r.store.relationships[slot] == Repointed(p, s.relationships[slot], values, targetEntityId))
    ensures var slot := Slot(EntityNode(entityId), p.relationshipTypeName(key));
      forall sl :: sl in s.relationships && sl != slot && sl.subject != RelationshipNode(slot) ==>
        r.store.relationships[sl] == s.relationships[sl]
    ensures var slot := Slot(EntityNode(entityId), p.relationshipTypeName(key));
      forall sl :: sl in s.properties && sl.subject != RelationshipNode(slot) ==> r.store.properties[sl] == s.properties[sl]
  {
    var slot := Slot(EntityNode(entityId), p.relationshipTypeName(key));
    var own := UpdateRelationshipValuesStep(s, p, EntityNode(entityId), key, values, targetEntityId);
    if own.result.Err? then own
    else
      assert |RelationshipNode(slot).via| == 1;
      var nested := UpdatePropertiesOfAttributeStep(own.store, p, RelationshipNode(slot), values);
      if nested.result.Err? then nested
      else UpdateRelationshipsOfAttributeStep(nested.store, p, RelationshipNode(slot), values)
  }

  /** What the update of one attribute came to. */
  datatype Outcome = Changed | Missing(reason: string) | Unrecognised

  /** The body of the `try` in `updateEntityAttributes`: only an existing
      attribute is updated; an unknown type is skipped. */
  function TryUpdateStep(s: Store, p: Ports, entityId: string, m: Member): (r: Step<Outcome>)
    ensures SameNodes(s, r.store)
  {
    match p.expandValueAsMap(m.value)
    case Err(e) => Step(Err(e), s)
    case Ok(values) =>
      match AttributeTypeOf(values)
      case Err(e) => Step(Err(e), s)
      case Ok(t) =>
        if t == JStr(NGSILD_RELATIONSHIP_TYPE) then
          if Slot(EntityNode(entityId), p.relationshipTypeName(m.key)) !in s.relationships then
            Step(Ok(Missing("Relationship does not exist")), s)
          else match p.relationshipObjectId(values)
            case Err(e) => Step(Err(e), s)
            case Ok(objectId) => Done(UpdateRelationshipOfEntityStep(s, p, entityId, m.key, values, objectId))
        else if t == JStr(NGSILD_PROPERTY_TYPE) then
          if Slot(EntityNode(entityId), m.key) !in s.properties then Step(Ok(Missing("Property does not exist")), s)
          else Done(UpdatePropertyOfEntityStep(s, p, entityId, m.key, values))
        else if t == JStr(NGSILD_GEOPROPERTY_TYPE) then
          if entityId !in s.locations then Step(Ok(Missing("GeoProperty does not exist")), s)
          else Done(UpdateLocationPropertyOfEntityStep(s, p, entityId, values))
        else Step(Ok(Unrecognised), s)
  }

  function Done(step: Step<()>): (r: Step<Outcome>)
    ensures r.store == step.store && (r.result.Ok? <==> step.result.Ok?)
    ensures r.result.Ok? ==> r.result.value == Changed
    ensures r.result.Err? ==> r.result.error == step.result.error
  {
    if step.result.Err? then Step(Err(step.result.error), step.store) else Step(Ok(Changed), step.store)
  }

  /** One attribute of `updateEntityAttributes`, added to the two lists: a
      bad request is caught and recorded under the short name; any other
      exception escapes. */
  function UpdateAttributeStep(s: Store, p: Ports, entityId: string, m: Member, acc: UpdateResult): (r: Step<UpdateResult>)
    ensures SameNodes(s, r.store)
  {
    var shortName := p.shortName(m.key);
    var step := TryUpdateStep(s, p, entityId, m);
    match step.result
    case Err(BadRequestData(message)) =>
      Step(Ok(acc.(notUpdated := acc.notUpdated + [U.NotUpdatedDetails(shortName, message)])), step.store)
    case Err(e) => Step(Err(e), step.store)
    case Ok(Changed) => Step(Ok(acc.(updated := acc.updated + [shortName])), step.store)
    case Ok(Missing(reason)) =>
      Step(Ok(acc.(notUpdated := acc.notUpdated + [U.NotUpdatedDetails(shortName, reason)])), step.store)
    case Ok(Unrecognised) => Step(Ok(acc), step.store)
  }

  function UpdateAll(s: Store, p: Ports, entityId: string, ms: Members, acc: UpdateResult): (r: Step<UpdateResult>)
    ensures SameNodes(s, r.store)
    decreases |ms|
  {
    if ms == [] then Step(Ok(acc), s)
    else
      var step := UpdateAttributeStep(s, p, entityId, ms[0], acc);
      if step.result.Err? then step else UpdateAll(step.store, p, entityId, ms[1..], step.result.value)
  }

  /** `updateEntityAttributes` on the expanded fragment; the entity must
      exist. */
  function UpdateEntityAttributesStep(s: Store, p: Ports, entityId: string, expandedPayload: Members): (r: Step<UpdateResult>)
    ensures SameNodes(s, r.store)
  {
    if entityId !in s.entities then Step(Err(NO_SUCH_ELEMENT), s)
    else UpdateAll(s, p, entityId, expandedPayload, UpdateResult([], []))
  }

  // ---------------------------------------------------------------------
  // Batches

  /** An entity of a batch: its expanded payload and its contexts. */
  datatype BatchEntity = BatchEntity(payload: Members, contexts: seq<string>)

  datatype BatchEntityError = BatchEntityError(entityId: string, error: seq<string>)

  datatype BatchOperationResult = BatchOperationResult(success: seq<string>, errors: seq<BatchEntityError>)

  const ENTITY_ALREADY_EXISTS := "Entity already exists"

  /** `getOrElse("@id") { "" } as String`: `getOrElse` gives the default for
      a missing key and for a null value alike. */
  function UrnOf(payload: Members): Result<string> {
    match Get(payload, JSONLD_ID)
    case None => Ok("")
    case Some(JNull) => Ok("")
    case Some(JStr(urn)) => Ok(urn)
    case Some(_) => Err(Crash("ClassCastException"))
  }

  /** One entity of `createBatchOfEntities`: a placeholder entity, then its
      attributes appended without overwrite in batch mode; an entity whose
      append is a bad request is deleted and reported. */
  function CreateBatchEntityStep(s: Store, p: Ports, e: BatchEntity, validEntities: map<string, string>,
                             acc: BatchOperationResult): Step<BatchOperationResult>
  {
    match UrnOf(e.payload)
    case Err(err) => Step(Err(err), s)
    case Ok(urn) =>
      match p.typeOf(e.payload)
      case Err(err) => Step(Err(err), s)
      case Ok(entityType) =>
        var placed := TempEntity(s, urn, entityType, e.contexts);
        var attributes := Without(e.payload, {JSONLD_ID, JSONLD_TYPE});
        var appended := AppendEntityAttributesStep(placed, p, urn, attributes, false, true, validEntities);
        match appended.result
        case Ok(_) => Step(Ok(acc.(success := acc.success + [urn])), appended.store)
        case Err(BadRequestData(message)) =>
          Step(Ok(acc.(errors := acc.errors + [BatchEntityError(urn, [message])])), EntityDeleted(appended.store, urn))
        case Err(err) => Step(Err(err), appended.store)
  }

  function CreateBatchEntities(s: Store, es: seq<BatchEntity>,
                               entity: (Store, BatchEntity, BatchOperationResult) -> Step<BatchOperationResult>,
                               acc: BatchOperationResult): Step<BatchOperationResult>
    decreases |es|
  {
    if es == [] then Step(Ok(acc), s)
    else
      var step := entity(s, es[0], acc);
      if step.result.Err? then step else CreateBatchEntities(step.store, es[1..], entity, step.result.value)
  }

  /** `createBatchOfEntities` */
  function CreateBatchOfEntitiesStep(s: Store, p: Ports, es: seq<BatchEntity>, validEntities: map<string, string>)
    : Step<BatchOperationResult>
  {
    CreateBatchEntities(s, es, (t, e, acc) => CreateBatchEntityStep(t, p, e, validEntities, acc), BatchOperationResult([], []))
  }

  /** The already-existing entities, each reported as such. */
  function ExistingErrors(existing: seq<BatchEntity>, errors: seq<BatchEntityError>): Result<seq<BatchEntityError>>
    decreases |existing|
  {
    if existing == [] then Ok(errors)
    else
      var urn :- UrnOf(existing[0].payload);
      ExistingErrors(existing[1..], errors + [BatchEntityError(urn, [ENTITY_ALREADY_EXISTS])])
  }

  /** `processBatchOfEntities` */
  function ProcessBatchOfEntitiesStep(s: Store, p: Ports, existing: seq<BatchEntity>, newEntities: seq<BatchEntity>,
                                  validEntities: map<string, string>): Step<BatchOperationResult>
  {
    var created := CreateBatchOfEntitiesStep(s, p, newEntities, validEntities);
    if created.result.Err? then created
    else match ExistingErrors(existing, created.result.value.errors)
      case Err(err) => Step(Err(err), created.store)
      case Ok(errors) => Step(Ok(BatchOperationResult(created.result.value.success, errors)), created.store)
  }

  // ---------------------------------------------------------------------
  // The service over a mutable graph

  /** The graph the service changes in place, through its repositories. */
  class LegacyGraph {
    var entities: map<string, EntityRecord>
    var properties: map<Slot, PropertyRecord>
    var relationships: map<Slot, RelationshipRecord>
    var locations: map<string, Location>

    function State(): Store
      reads this
    {
      Store(entities, properties, relationships, locations)
    }

    constructor (initial: Store)
      ensures State() == initial
    {
      entities := initial.entities;
      properties := initial.properties;
      relationships := initial.relationships;
      locations := initial.locations;
    }

    /** `createTempEntityInBatch` */
    method CreateTempEntityInBatch(entityId: string, entityType: string, contexts: seq<string>)
      modifies this
      ensures State() == TempEntity(old(State()), entityId, entityType, contexts)
    {
      entities := entities[entityId := EntityRecord([entityType], contexts)];
    }

    /** `deleteEntity` */
    method DeleteEntity(entityId: string)
      modifies this
      ensures State() == EntityDeleted(old(State()), entityId)
    {
      entities := entities - {entityId};
      properties := properties - (set k | k in properties && k.subject.entityId == entityId);
      relationships := relationships - (set k | k in relationships && k.subject.entityId == entityId);
      locations := locations - {entityId};
    }

    /** One Property of `createAttributeProperties`. */
    method CreateNestedProperty(p: Ports, subject: Subject, e: Entry) returns (r: Result<()>)
      modifies this
      ensures Step(r, State()) == CreateNestedPropertyStep(old(State()), p, subject, e)
    {
      var value := p.propertyValue(e.values, NGSILD_PROPERTY_VALUE);
      var v := if value.Some? then Ok(value.value) else Present(Get(e.values, JSONLD_VALUE_KW));
      if v.Err? {
        return Err(v.error);
      }
      properties := properties[Slot(subject, e.key) := PropertyRecord(v.value,
        p.propertyString(e.values, NGSILD_UNIT_CODE_PROPERTY), p.propertyDateTime(e.values, NGSILD_OBSERVED_AT_PROPERTY))];
      return Ok(());
    }

    /** `createAttributeProperties` */
    method CreateAttributeProperties(p: Ports, subject: Subject, values: Members) returns (r: Result<()>)
      modifies this
      ensures Step(r, State()) == CreateAttributePropertiesStep(old(State()), p, subject, values)
    {
      var entries := NestedPropertyEntries(p, values);
      if entries.Err? {
        return Err(entries.error);
      }
      var es := entries.value;
      var i := 0;
      while i < |es|
        invariant 0 <= i <= |es|
        invariant CreateNestedProperties(State(), p, subject, es[i..]) == CreateNestedProperties(old(State()), p, subject, es)
      {
        assert es[i..][0] == es[i] && es[i..][1..] == es[i + 1..];
        var created := CreateNestedProperty(p, subject, es[i]);
        if created.Err? {
          return created;
        }
        i := i + 1;
      }
      return Ok(());
    }

    /** One entry of `createAttributeRelationships`. */
    method CreateNestedRelationship(p: Ports, subject: Subject, m: Member, isInBatchContext: bool,
                                    validEntities: map<string, string>) returns (r: Result<()>)
      modifies this
      ensures Step(r, State()) == CreateNestedRelationshipStep(old(State()), p, subject, m, isInBatchContext, validEntities)
    {
      var isMap := FirstIsMap(m.value);
      if isMap.Err? {
        return Err(isMap.error);
      }
      if isMap.value {
        var relationshipValues := m.value.elems[0].members;
        if p.isAttributeOfType(relationshipValues, NGSILD_RELATIONSHIP_TYPE) {
          var objectId := p.relationshipObjectId(relationshipValues);
          if objectId.Err? {
            return Err(objectId.error);
          }
          var slot := Slot(subject, p.relationshipTypeName(m.key));
          var record := RelationshipRecord([m.key], p.propertyDateTime(relationshipValues, NGSILD_OBSERVED_AT_PROPERTY),
                                           objectId.value);
          if objectId.value !in entities {
            if !isInBatchContext {
              return Err(BadRequestData(TargetMissing(objectId.value, "property " + " does not exist, create it first")));
            }
            if objectId.value !in validEntities {
              return Err(BadRequestData(TargetMissing(objectId.value, "relationship " + " does not exist, create it first")));
            }
            CreateTempEntityInBatch(objectId.value, validEntities[objectId.value], []);
          }
          relationships := relationships[slot := record];
        }
      }
      return Ok(());
    }

    /** `createAttributeRelationships` */
    method CreateAttributeRelationships(p: Ports, subject: Subject, values: Members, isInBatchContext: bool,
                                        validEntities: map<string, string>) returns (r: Result<()>)
      modifies this
      ensures Step(r, State()) ==
        CreateAttributeRelationshipsStep(old(State()), p, subject, values, isInBatchContext, validEntities)
    {
      var i := 0;
      while i < |values|
        invariant 0 <= i <= |values|
        invariant CreateNestedRelationships(State(), p, subject, values[i..], isInBatchContext, validEntities) ==
          CreateNestedRelationships(old(State()), p, subject, values, isInBatchContext, validEntities)
      {
        assert values[i..][0] == values[i] && values[i..][1..] == values[i + 1..];
        var created := CreateNestedRelationship(p, subject, values[i], isInBatchContext, validEntities);
        if created.Err? {
          return created;
        }
        i := i + 1;
      }
      return Ok(());
    }

    /** `createEntityProperty` */
    method CreateEntityProperty(p: Ports, entityId: string, key: string, values: Members,
                                isInBatchContext: bool, validEntities: map<string, string>) returns (r: Result<()>)
      modifies this
      ensures Step(r, State()) ==
        CreateEntityPropertyStep(old(State()), p, entityId, key, values, isInBatchContext, validEntities)
    {
      var value := p.propertyValue(values, NGSILD_PROPERTY_VALUE);
      if value.None? {
        return Err(BadRequestData("Key " + NGSILD_PROPERTY_VALUE + " not found in "));
      }
      var slot := Slot(EntityNode(entityId), key);
      properties := properties[slot := PropertyRecord(value.value, p.propertyString(values, NGSILD_UNIT_CODE_PROPERTY),
                                                      p.propertyDateTime(values, NGSILD_OBSERVED_AT_PROPERTY))];
      r := CreateAttributeProperties(p, PropertyNode(slot), values);
      if r.Err? {
        return;
      }
      r := CreateAttributeRelationships(p, PropertyNode(slot), values, isInBatchContext, validEntities);
    }

    /** `createEntityRelationship` */
    method CreateEntityRelationship(p: Ports, entityId: string, key: string, values: Members, targetEntityId: string)
      returns (r: Result<()>)
      modifies this
      ensures Step(r, State()) == CreateEntityRelationshipStep(old(State()), p, entityId, key, values, targetEntityId)
    {
      var slot := Slot(EntityNode(entityId), p.relationshipTypeName(key));
      relationships := relationships[slot := RelationshipRecord([key],
        p.propertyDateTime(values, NGSILD_OBSERVED_AT_PROPERTY), targetEntityId)];
      r := CreateAttributeProperties(p, RelationshipNode(slot), values);
      if r.Err? {
        return;
      }
      r := CreateAttributeRelationships(p, RelationshipNode(slot), values, false, map[]);
    }

    /** `createLocationProperty` */
    method CreateLocationProperty(p: Ports, entityId: string, values: Members) returns (r: Result<bool>)
      modifies this
      ensures Step(r, State()) == CreateLocationPropertyStep(old(State()), p, entityId, values)
    {
      var geometry := Geometry(p, values);
      if geometry.Err? {
        return Err(geometry.error);
      }
      var (geoType, geoValue) := geometry.value;
      if geoType != POINT_TYPE {
        return Ok(false);
      }
      var location := PointOf(geoValue);
      if location.Err? {
        return Err(location.error);
      }
      locations := locations[entityId := location.value];
      return Ok(true);
    }

    /** The rollback of a failed transaction. */
    method Restore(saved: Store)
      modifies this
      ensures State() == saved
    {
      entities := saved.entities;
      properties := saved.properties;
      relationships := saved.relationships;
      locations := saved.locations;
    }

    /** One Relationship of `createEntity`. */
    method CreateRelationshipOfEntry(p: Ports, entityId: string, e: Entry) returns (r: Result<()>)
      modifies this
      ensures Step(r, State()) == CreateRelationshipOfEntryStep(old(State()), p, entityId, e)
    {
      if !p.isAttributeOfType(e.values, NGSILD_RELATIONSHIP_TYPE) {
        return Ok(());
      }
      var objectId := p.relationshipObjectId(e.values);
      if objectId.Err? {
        return Err(objectId.error);
      }
      if objectId.value !in entities {
        return Err(BadRequestData(TargetMissing(objectId.value, "relationship " + e.key + " does not exist, create it first")));
      }
      r := CreateEntityRelationship(p, entityId, e.key, e.values, objectId.value);
    }

    /** One Property of `createEntity`. */
    method CreatePropertyOfEntry(p: Ports, entityId: string, e: Entry) returns (r: Result<()>)
      modifies this
      ensures Step(r, State()) == CreatePropertyOfEntryStep(old(State()), p, entityId, e)
    {
      if !p.isAttributeOfType(e.values, NGSILD_PROPERTY_TYPE) {
        return Ok(());
      }
      r := CreateEntityProperty(p, entityId, e.key, e.values, false, map[]);
    }

    /** One GeoProperty of `createEntity`. */
    method CreateLocationOfEntry(p: Ports, entityId: string, e: Entry) returns (r: Result<()>)
      modifies this
      ensures Step(r, State()) == CreateLocationOfEntryStep(old(State()), p, entityId, e)
    {
      if !p.isAttributeOfType(e.values, NGSILD_GEOPROPERTY_TYPE) {
        return Ok(());
      }
      var stored := CreateLocationProperty(p, entityId, e.values);
      if stored.Err? {
        return Err(stored.error);
      }
      return Ok(());
    }

    /** The Relationships phase of `createEntity`. */
    method CreateRelationshipsOfEntity(p: Ports, entityId: string, es: seq<Entry>) returns (r: Result<()>)
      modifies this
      ensures Step(r, State()) == CreateEach(old(State()), es, (t, e) => CreateRelationshipOfEntryStep(t, p, entityId, e))
    {
      ghost var create := (t, e) => CreateRelationshipOfEntryStep(t, p, entityId, e);
      var i := 0;
      while i < |es|
        invariant 0 <= i <= |es|
        invariant CreateEach(State(), es[i..], create) == CreateEach(old(State()), es, create)
      {
        assert es[i..][0] == es[i] && es[i..][1..] == es[i + 1..];
        r := CreateRelationshipOfEntry(p, entityId, es[i]);
        if r.Err? {
          return;
        }
        i := i + 1;
      }
      return Ok(());
    }

    /** The Properties phase of `createEntity`. */
    method CreatePropertiesOfEntity(p: Ports, entityId: string, es: seq<Entry>) returns (r: Result<()>)
      modifies this
      ensures Step(r, State()) == CreateEach(old(State()), es, (t, e) => CreatePropertyOfEntryStep(t, p, entityId, e))
    {
      ghost var create := (t, e) => CreatePropertyOfEntryStep(t, p, entityId, e);
      var i := 0;
      while i < |es|
        invariant 0 <= i <= |es|
        invariant CreateEach(State(), es[i..], create) == CreateEach(old(State()), es, create)
      {
        assert es[i..][0] == es[i] && es[i..][1..] == es[i + 1..];
        r := CreatePropertyOfEntry(p, entityId, es[i]);
        if r.Err? {
          return;
        }
        i := i + 1;
      }
      return Ok(());
    }

    /** The GeoProperties phase of `createEntity`. */
    method CreateLocationsOfEntity(p: Ports, entityId: string, es: seq<Entry>) returns (r: Result<()>)
      modifies this
      ensures Step(r, State()) == CreateEach(old(State()), es, (t, e) => CreateLocationOfEntryStep(t, p, entityId, e))
    {
      ghost var create := (t, e) => CreateLocationOfEntryStep(t, p, entityId, e);
      var i := 0;
      while i < |es|
        invariant 0 <= i <= |es|
        invariant CreateEach(State(), es[i..], create) == CreateEach(old(State()), es, create)
      {
        assert es[i..][0] == es[i] && es[i..][1..] == es[i + 1..];
        r := CreateLocationOfEntry(p, entityId, es[i]);
        if r.Err? {
          return;
        }
        i := i + 1;
      }
      return Ok(());
    }

    /** The three phases of `createEntity`. */
    method CreateAttributes(p: Ports, entityId: string, es: seq<Entry>) returns (r: Result<()>)
      modifies this
      ensures Step(r, State()) == CreateAttributesOfEntity(old(State()), p, entityId, es)
    {
      r := CreateRelationshipsOfEntity(p, entityId, es);
      if r.Ok? {
        r := CreatePropertiesOfEntity(p, entityId, es);
      }
      if r.Ok? {
        r := CreateLocationsOfEntity(p, entityId, es);
      }
    }

    /** `createEntity` */
    method CreateEntity(p: Ports, expandedPayload: Members, contexts: seq<string>) returns (r: Result<string>)
      modifies this
      ensures Step(r, State()) == CreateEntityStep(old(State()), p, expandedPayload, contexts)
    {
      var before := State();
      var read := p.readEntity(expandedPayload);
      if read.Err? {
        return Err(read.error);
      }
      var (entityId, types) := read.value;
      entities := entities[entityId := EntityRecord(types, contexts)];
      var es := Expanded(p, Without(expandedPayload, {JSONLD_ID, JSONLD_TYPE}));
      if es.Err? {
        Restore(before);
        return Err(es.error);
      }
      var done := CreateAttributes(p, entityId, es.value);
      if done.Err? {
        Restore(before);
        return Err(done.error);
      }
      return Ok(entityId);
    }

    /** `updateLocationPropertyOfEntity` */
    method UpdateLocationPropertyOfEntity(p: Ports, entityId: string, values: Members) returns (r: Result<()>)
      modifies this
      ensures Step(r, State()) == UpdateLocationPropertyOfEntityStep(old(State()), p, entityId, values)
    {
      var geometry := Geometry(p, values);
      if geometry.Err? {
        return Err(geometry.error);
      }
      var (geoType, geoValue) := geometry.value;
      if geoType != POINT_TYPE {
        return Err(BadRequestData("Unsupported geometry type : " + geoType));
      }
      var location := PointOf(geoValue);
      if location.Err? {
        return Err(location.error);
      }
      locations := locations[entityId := location.value];
      return Ok(());
    }

    /** The object linking of the Relationship branch of `appendEntityAttributes`. */
    method LinkRelationship(p: Ports, entityId: string, key: string, values: Members,
                            isInBatchContext: bool, validEntities: map<string, string>) returns (r: Result<Status>)
      modifies this
      ensures Step(r, State()) ==
        LinkRelationshipStep(old(State()), p, entityId, key, values, isInBatchContext, validEntities)
    {
      var objectId := p.relationshipObjectId(values);
      if objectId.Err? {
        return Err(objectId.error);
      }
      if objectId.value !in entities && isInBatchContext {
        if objectId.value !in validEntities {
          return Err(BadRequestData(TargetMissing(objectId.value, "relationship " + p.shortName(key)
                                                  + " does not exist, create it first")));
        }
        if entityId !in entities {
          return Err(NO_SUCH_ELEMENT);
        }
        CreateTempEntityInBatch(objectId.value, validEntities[objectId.value], []);
      } else if entityId !in entities {
        return Err(NO_SUCH_ELEMENT);
      }
      var created := CreateEntityRelationship(p, entityId, key, values, objectId.value);
      if created.Err? {
        return Err(created.error);
      }
      return Ok(Status(key, true, None));
    }

    /** The Relationship branch of `appendEntityAttributes`. */
    method AppendRelationship(p: Ports, entityId: string, key: string, values: Members, disallowOverwrite: bool,
                              isInBatchContext: bool, validEntities: map<string, string>) returns (r: Result<Status>)
      modifies this
      ensures Step(r, State()) == AppendRelationshipStep(old(State()), p, entityId, key, values,
                                                                  disallowOverwrite, isInBatchContext, validEntities)
    {
      var name := p.shortName(key);
      var slot := Slot(EntityNode(entityId), p.relationshipTypeName(name));
      if slot in relationships {
        if disallowOverwrite {
          return Ok(Status(key, false, Some(AlreadyExists("Relationship ", name, entityId))));
        }
        DeleteAttribute(slot, RelationshipNode(slot));
      }
      r := LinkRelationship(p, entityId, key, values, isInBatchContext, validEntities);
    }

    /** `deletePropertyFromEntity` / `deleteRelationshipFromEntity` */
    method DeleteAttribute(slot: Slot, node: Subject)
      modifies this
      ensures State() == AttributeDeleted(old(State()), slot, node)
    {
      properties := properties - ({slot} + set k | k in properties && k.subject == node);
      relationships := relationships - ({slot} + set k | k in relationships && k.subject == node);
    }

    /** The Property branch of `appendEntityAttributes`. */
    method AppendProperty(p: Ports, entityId: string, key: string, values: Members, disallowOverwrite: bool,
                          isInBatchContext: bool, validEntities: map<string, string>) returns (r: Result<Status>)
      modifies this
      ensures Step(r, State()) == AppendPropertyStep(old(State()), p, entityId, key, values,
                                                              disallowOverwrite, isInBatchContext, validEntities)
    {
      var slot := Slot(EntityNode(entityId), key);
      if slot in properties {
        if disallowOverwrite {
          return Ok(Status(key, false, Some(AlreadyExists("Property ", key, entityId))));
        }
        DeleteAttribute(slot, PropertyNode(slot));
      }
      if entityId !in entities {
        return Err(NO_SUCH_ELEMENT);
      }
      var created := CreateEntityProperty(p, entityId, key, values, isInBatchContext, validEntities);
      if created.Err? {
        return Err(created.error);
      }
      return Ok(Status(key, true, None));
    }

    /** The GeoProperty branch of `appendEntityAttributes`. */
    method AppendGeoProperty(p: Ports, entityId: string, key: string, values: Members, disallowOverwrite: bool)
      returns (r: Result<Status>)
      modifies this
      ensures Step(r, State()) == AppendGeoPropertyStep(old(State()), p, entityId, key, values, disallowOverwrite)
    {
      if entityId in locations && disallowOverwrite {
        return Ok(Status(key, false, Some(AlreadyExists("GeoProperty ", key, entityId))));
      }
      if entityId !in entities {
        return Err(NO_SUCH_ELEMENT);
      }
      if entityId !in locations {
        var created := CreateLocationProperty(p, entityId, values);
        if created.Err? {
          return Err(created.error);
        }
      } else {
        var updated := UpdateLocationPropertyOfEntity(p, entityId, values);
        if updated.Err? {
          return Err(updated.error);
        }
      }
      return Ok(Status(key, true, None));
    }

    /** The body of the `map` of `appendEntityAttributes`. */
    method AppendAttribute(p: Ports, entityId: string, m: Member, disallowOverwrite: bool,
                           isInBatchContext: bool, validEntities: map<string, string>) returns (r: Result<Status>)
      modifies this
      ensures Step(r, State()) == AppendAttributeStep(old(State()), p, entityId, m, disallowOverwrite,
                                                               isInBatchContext, validEntities)
    {
      var values := p.expandValueAsMap(m.value);
      if values.Err? {
        return Err(values.error);
      }
      if !HasKey(values.value, JSONLD_TYPE) {
        return Err(BadRequestData("@type not found in "));
      }
      var t := AttributeTypeOf(values.value);
      if t.Err? {
        return Err(t.error);
      }
      if t.value == JStr(NGSILD_RELATIONSHIP_TYPE) {
        r := AppendRelationship(p, entityId, m.key, values.value, disallowOverwrite, isInBatchContext, validEntities);
      } else if t.value == JStr(NGSILD_PROPERTY_TYPE) {
        r := AppendProperty(p, entityId, m.key, values.value, disallowOverwrite, isInBatchContext, validEntities);
      } else if t.value == JStr(NGSILD_GEOPROPERTY_TYPE) {
        r := AppendGeoProperty(p, entityId, m.key, values.value, disallowOverwrite);
      } else {
        r := Ok(Status(m.key, false, Some("Unknown attribute type " + TypeText(t.value))));
      }
    }

    /** `appendEntityAttributes` */
    method AppendEntityAttributes(p: Ports, entityId: string, attributes: Members, disallowOverwrite: bool,
                                  isInBatchContext: bool, validEntities: map<string, string>) returns (r: Result<UpdateResult>)
      modifies this
      ensures Step(r, State()) == AppendEntityAttributesStep(old(State()), p, entityId, attributes,
                                                                      disallowOverwrite, isInBatchContext, validEntities)
    {
      ghost var attribute := (t, m) => AppendAttributeStep(t, p, entityId, m, disallowOverwrite, isInBatchContext, validEntities);
      var statuses: seq<Status> := [];
      var i := 0;
      while i < |attributes|
        invariant 0 <= i <= |attributes|
        invariant AppendAll(State(), attributes[i..], attribute, statuses) == AppendAll(old(State()), attributes, attribute, [])
      {
        assert attributes[i..][0] == attributes[i] && attributes[i..][1..] == attributes[i + 1..];
        var status := AppendAttribute(p, entityId, attributes[i], disallowOverwrite, isInBatchContext, validEntities);
        if status.Err? {
          return Err(status.error);
        }
        statuses := statuses + [status.value];
        i := i + 1;
      }
      return Collect(statuses);
    }

    /** `updatePropertyValues` */
    method UpdatePropertyValues(p: Ports, slot: Slot, values: Members) returns (r: Result<()>)
      requires slot in properties
      modifies this
      ensures Step(r, State()) == UpdatePropertyValuesStep(old(State()), p, slot, values)
    {
      var value := p.propertyValue(values, NGSILD_PROPERTY_VALUE);
      var v := if value.Some? then Ok(value.value) else Present(Get(values, JSONLD_VALUE_KW));
      if v.Err? {
        return Err(v.error);
      }
      properties := properties[slot := PropertyRecord(v.value, p.propertyString(values, NGSILD_UNIT_CODE_PROPERTY),
                                                      p.propertyDateTime(values, NGSILD_OBSERVED_AT_PROPERTY))];
      return Ok(());
    }

    /** `updateRelationshipValues` */
    method UpdateRelationshipValues(p: Ports, subject: Subject, key: string, values: Members, targetEntityId: string)
      returns (r: Result<()>)
      requires Slot(subject, p.relationshipTypeName(key)) in relationships
      modifies this
      ensures Step(r, State()) == UpdateRelationshipValuesStep(old(State()), p, subject, key, values, targetEntityId)
    {
      if targetEntityId !in entities {
        return Err(BadRequestData("Target entity " + targetEntityId + " does not exist, create it first"));
      }
      var slot := Slot(subject, p.relationshipTypeName(key));
      relationships := relationships[slot := relationships[slot].(
        observedAt := p.propertyDateTime(values, NGSILD_OBSERVED_AT_PROPERTY), target := targetEntityId)];
      return Ok(());
    }

    /** `updatePropertiesOfAttribute` */
    method UpdatePropertiesOfAttribute(p: Ports, subject: Subject, values: Members) returns (r: Result<()>)
      modifies this
      ensures Step(r, State()) == UpdatePropertiesOfAttributeStep(old(State()), p, subject, values)
    {
      var entries := NestedPropertyEntries(p, values);
      if entries.Err? {
        return Err(entries.error);
      }
      var es := entries.value;
      var i := 0;
      while i < |es|
        invariant 0 <= i <= |es|
        invariant UpdateNestedProperties(State(), p, subject, es[i..]) == UpdateNestedProperties(old(State()), p, subject, es)
      {
        assert es[i..][0] == es[i] && es[i..][1..] == es[i + 1..];
        var slot := Slot(subject, es[i].key);
        if slot !in properties {
          return Err(BadRequestData("Property " + p.shortName(es[i].key) + " does not exist"));
        }
        var updated := UpdatePropertyValues(p, slot, es[i].values);
        if updated.Err? {
          return Err(updated.error);
        }
        i := i + 1;
      }
      return Ok(());
    }

    /** `updateRelationshipsOfAttribute` */
    method UpdateRelationshipsOfAttribute(p: Ports, subject: Subject, values: Members) returns (r: Result<()>)
      modifies this
      ensures Step(r, State()) == UpdateRelationshipsOfAttributeStep(old(State()), p, subject, values)
    {
      var i := 0;
      while i < |values|
        invariant 0 <= i <= |values|
        invariant UpdateNestedRelationships(State(), p, subject, values[i..]) ==
          UpdateNestedRelationships(old(State()), p, subject, values)
      {
        assert values[i..][0] == values[i] && values[i..][1..] == values[i + 1..];
        var m := values[i];
        var isMap := FirstIsMap(m.value);
        if isMap.Err? {
          return Err(isMap.error);
        }
        if isMap.value {
          var relationshipValues := m.value.elems[0].members;
          if p.isAttributeOfType(relationshipValues, NGSILD_RELATIONSHIP_TYPE) {
            if Slot(subject, p.relationshipTypeName(m.key)) !in relationships {
              return Err(BadRequestData("Relationship " + p.relationshipTypeName(m.key) + " does not exist"));
            }
            var objectId := p.relationshipObjectId(relationshipValues);
            if objectId.Err? {
              return Err(objectId.error);
            }
            var updated := UpdateRelationshipValues(p, subject, m.key, relationshipValues, objectId.value);
            if updated.Err? {
              return Err(updated.error);
            }
          }
        }
        i := i + 1;
      }
      return Ok(());
    }

    /** `updatePropertyOfEntity` */
    method UpdatePropertyOfEntity(p: Ports, entityId: string, key: string, values: Members) returns (r: Result<()>)
      requires Slot(EntityNode(entityId), key) in properties
      modifies this
      ensures Step(r, State()) == UpdatePropertyOfEntityStep(old(State()), p, entityId, key, values)
    {
      var slot := Slot(EntityNode(entityId), key);
      r := UpdatePropertyValues(p, slot, values);
      if r.Err? {
        return;
      }
      r := UpdatePropertiesOfAttribute(p, PropertyNode(slot), values);
      if r.Err? {
        return;
      }
      r := UpdateRelationshipsOfAttribute(p, PropertyNode(slot), values);
    }

    /** `updateRelationshipOfEntity` */
    method UpdateRelationshipOfEntity(p: Ports, entityId: string, key: string, values: Members, targetEntityId: string)
      returns (r: Result<()>)
      requires Slot(EntityNode(entityId), p.relationshipTypeName(key)) in relationships
      modifies this
      ensures Step(r, State()) == UpdateRelationshipOfEntityStep(old(State()), p, entityId, key, values, targetEntityId)
    {
      var slot := Slot(EntityNode(entityId), p.relationshipTypeName(key));
      r := UpdateRelationshipValues(p, EntityNode(entityId), key, values, targetEntityId);
      if r.Err? {
        return;
      }
      r := UpdatePropertiesOfAttribute(p, RelationshipNode(slot), values);
      if r.Err? {
        return;
      }
      r := UpdateRelationshipsOfAttribute(p, RelationshipNode(slot), values);
    }

    /** The body of the `try` of `updateEntityAttributes`. */
    method TryUpdate(p: Ports, entityId: string, m: Member) returns (r: Result<Outcome>)
      modifies this
      ensures Step(r, State()) == TryUpdateStep(old(State()), p, entityId, m)
    {
      var values := p.expandValueAsMap(m.value);
      if values.Err? {
        return Err(values.error);
      }
      var t := AttributeTypeOf(values.value);
      if t.Err? {
        return Err(t.error);
      }
      var updated: Result<()>;
      if t.value == JStr(NGSILD_RELATIONSHIP_TYPE) {
        if Slot(EntityNode(entityId), p.relationshipTypeName(m.key)) !in relationships {
          return Ok(Missing("Relationship does not exist"));
        }
        var objectId := p.relationshipObjectId(values.value);
        if objectId.Err? {
          return Err(objectId.error);
        }
        updated := UpdateRelationshipOfEntity(p, entityId, m.key, values.value, objectId.value);
      } else if t.value == JStr(NGSILD_PROPERTY_TYPE) {
        if Slot(EntityNode(entityId), m.key) !in properties {
          return Ok(Missing("Property does not exist"));
        }
        updated := UpdatePropertyOfEntity(p, entityId, m.key, values.value);
      } else if t.value == JStr(NGSILD_GEOPROPERTY_TYPE) {
        if entityId !in locations {
          return Ok(Missing("GeoProperty does not exist"));
        }
        updated := UpdateLocationPropertyOfEntity(p, entityId, values.value);
      } else {
        return Ok(Unrecognised);
      }
      if updated.Err? {
        return Err(updated.error);
      }
      return Ok(Changed);
    }

    /** One attribute of `updateEntityAttributes`, added to the two lists. */
    method UpdateAttribute(p: Ports, entityId: string, m: Member, acc: UpdateResult) returns (r: Result<UpdateResult>)
      modifies this
      ensures Step(r, State()) == UpdateAttributeStep(old(State()), p, entityId, m, acc)
    {
      var shortAttributeName := p.shortName(m.key);
      var outcome := TryUpdate(p, entityId, m);
      match outcome
      case Err(BadRequestData(message)) =>
        r := Ok(acc.(notUpdated := acc.notUpdated + [U.NotUpdatedDetails(shortAttributeName, message)]));
      case Err(e) =>
        r := Err(e);
      case Ok(Changed) =>
        r := Ok(acc.(updated := acc.updated + [shortAttributeName]));
      case Ok(Missing(reason)) =>
        r := Ok(acc.(notUpdated := acc.notUpdated + [U.NotUpdatedDetails(shortAttributeName, reason)]));
      case Ok(Unrecognised) =>
        r := Ok(acc);
    }

    /** `updateEntityAttributes` on the expanded fragment */
    method UpdateEntityAttributes(p: Ports, entityId: string, expandedPayload: Members) returns (r: Result<UpdateResult>)
      modifies this
      ensures Step(r, State()) == UpdateEntityAttributesStep(old(State()), p, entityId, expandedPayload)
    {
      if entityId !in entities {
        return Err(NO_SUCH_ELEMENT);
      }
      var results := UpdateResult([], []);
      var i := 0;
      while i < |expandedPayload|
        invariant 0 <= i <= |expandedPayload|
        invariant UpdateAll(State(), p, entityId, expandedPayload[i..], results) ==
          UpdateAll(old(State()), p, entityId, expandedPayload, UpdateResult([], []))
      {
        assert expandedPayload[i..][0] == expandedPayload[i] && expandedPayload[i..][1..] == expandedPayload[i + 1..];
        var step := UpdateAttribute(p, entityId, expandedPayload[i], results);
        if step.Err? {
          return step;
        }
        results := step.value;
        i := i + 1;
      }
      return Ok(results);
    }

    /** One entity of `createBatchOfEntities`, added to the created or the
        failed ones. */
    method CreateBatchEntity(p: Ports, e: BatchEntity, validEntities: map<string, string>, acc: BatchOperationResult)
      returns (r: Result<BatchOperationResult>)
      modifies this
      ensures Step(r, State()) == CreateBatchEntityStep(old(State()), p, e, validEntities, acc)
    {
      var urn := UrnOf(e.payload);
      if urn.Err? {
        return Err(urn.error);
      }
      var entityType := p.typeOf(e.payload);
      if entityType.Err? {
        return Err(entityType.error);
      }
      CreateTempEntityInBatch(urn.value, entityType.value, e.contexts);
      var attributes := Without(e.payload, {JSONLD_ID, JSONLD_TYPE});
      var appended := AppendEntityAttributes(p, urn.value, attributes, false, true, validEntities);
      match appended
      case Ok(_) =>
        r := Ok(acc.(success := acc.success + [urn.value]));
      case Err(BadRequestData(message)) =>
        DeleteEntity(urn.value);
        r := Ok(acc.(errors := acc.errors + [BatchEntityError(urn.value, [message])]));
      case Err(err) =>
        r := Err(err);
    }

    /** `createBatchOfEntities` */
    method CreateBatchOfEntities(p: Ports, es: seq<BatchEntity>, validEntities: map<string, string>)
      returns (r: Result<BatchOperationResult>)
      modifies this
      ensures Step(r, State()) == CreateBatchOfEntitiesStep(old(State()), p, es, validEntities)
    {
      var results := BatchOperationResult([], []);
      var i := 0;
      while i < |es|
        invariant 0 <= i <= |es|
        invariant CreateBatchEntities(State(), es[i..], (t, e, acc) => CreateBatchEntityStep(t, p, e, validEntities, acc), results) ==
          CreateBatchOfEntitiesStep(old(State()), p, es, validEntities)
      {
        assert es[i..][0] == es[i] && es[i..][1..] == es[i + 1..];
        var step := CreateBatchEntity(p, es[i], validEntities, results);
        if step.Err? {
          return step;
        }
        results := step.value;
        i := i + 1;
      }
      return Ok(results);
    }

    /** `processBatchOfEntities` */
    method ProcessBatchOfEntities(p: Ports, existing: seq<BatchEntity>, newEntities: seq<BatchEntity>,
                                  validEntities: map<string, string>) returns (r: Result<BatchOperationResult>)
      modifies this
      ensures Step(r, State()) == ProcessBatchOfEntitiesStep(old(State()), p, existing, newEntities, validEntities)
    {
      var created := CreateBatchOfEntities(p, newEntities, validEntities);
      if created.Err? {
        return created;
      }
      var errors := created.value.errors;
      var i := 0;
      while i < |existing|
        invariant 0 <= i <= |existing|
        invariant ExistingErrors(existing[i..], errors) == ExistingErrors(existing, created.value.errors)
      {
        assert existing[i..][0] == existing[i] && existing[i..][1..] == existing[i + 1..];
        var urn := UrnOf(existing[i].payload);
        if urn.Err? {
          return Err(urn.error);
        }
        errors := errors + [BatchEntityError(urn.value, [ENTITY_ALREADY_EXISTS])];
        i := i + 1;
      }
      return Ok(BatchOperationResult(created.value.success, errors));
    }
  }

  // ---------------------------------------------------------------------
  // What creating attributes leaves in place

  /** The properties off nodes other than `subject` are kept, and only
      properties off `subject` are added. */
  predicate PropertiesKeptOutside(s: Store, t: Store, subject: Subject) {
    (forall k :: k in s.properties && k.subject != subject ==> k in t.properties && t.properties[k] == s.properties[k]) &&
    (forall k :: k in t.properties ==> k in s.properties || k.subject == subject)
  }

  /** The same for relationships. */
  predicate RelationshipsKeptOutside(s: Store, t: Store, subject: Subject) {
    (forall k :: k in s.relationships && k.subject != subject ==> k in t.relationships && t.relationships[k] == s.relationships[k]) &&
    (forall k :: k in t.relationships ==> k in s.relationships || k.subject == subject)
  }

  /** Every entity is kept (placeholders may be added). */
  predicate EntitiesKept(s: Store, t: Store) {
    forall id :: id in s.entities ==> id in t.entities && t.entities[id] == s.entities[id]
  }

  lemma {:induction false} CreateNestedPropertiesFrame(s: Store, p: Ports, subject: Subject, es: seq<Entry>)
    ensures var t := CreateNestedProperties(s, p, subject, es).store;
      t.entities == s.entities && t.relationships == s.relationships && t.locations == s.locations &&
      PropertiesKeptOutside(s, t, subject)
    decreases |es|
  {
    if es != [] {
      var step := CreateNestedPropertyStep(s, p, subject, es[0]);
      if step.result.Ok? {
        CreateNestedPropertiesFrame(step.store, p, subject, es[1..]);
      }
    }
  }

  lemma CreateNestedRelationshipFrame(s: Store, p: Ports, subject: Subject, m: Member,
                                      isInBatchContext: bool, validEntities: map<string, string>)
    ensures var t := CreateNestedRelationshipStep(s, p, subject, m, isInBatchContext, validEntities).store;
      t.properties == s.properties && t.locations == s.locations &&
      (!isInBatchContext ==> t.entities == s.entities) &&
      EntitiesKept(s, t) && RelationshipsKeptOutside(s, t, subject)
  {
    var isMap := FirstIsMap(m.value);
    if isMap.Ok? && isMap.value {
      var values := m.value.elems[0].members;
      var objectId := p.relationshipObjectId(values);
      if p.isAttributeOfType(values, NGSILD_RELATIONSHIP_TYPE) && objectId.Ok? {
        var slot := Slot(subject, p.relationshipTypeName(m.key));
        var record := RelationshipRecord([m.key], p.propertyDateTime(values, NGSILD_OBSERVED_AT_PROPERTY), objectId.value);
        if objectId.value in s.entities {
          assert CreateNestedRelationshipStep(s, p, subject, m, isInBatchContext, validEntities).store ==
            s.(relationships := s.relationships[slot := record]);
        } else if isInBatchContext && objectId.value in validEntities {
          var placed := TempEntity(s, objectId.value, validEntities[objectId.value], []);
          assert CreateNestedRelationshipStep(s, p, subject, m, isInBatchContext, validEntities).store ==
            placed.(relationships := placed.relationships[slot := record]);
        }
      }
    }
  }

  lemma {:induction false} CreateNestedRelationshipsFrame(s: Store, p: Ports, subject: Subject, ms: Members,
                                                          isInBatchContext: bool, validEntities: map<string, string>)
    ensures var t := CreateNestedRelationships(s, p, subject, ms, isInBatchContext, validEntities).store;
      t.properties == s.properties && t.locations == s.locations &&
      (!isInBatchContext ==> t.entities == s.entities) &&
      EntitiesKept(s, t) && RelationshipsKeptOutside(s, t, subject)
    decreases |ms|
  {
    if ms != [] {
      var step := CreateNestedRelationshipStep(s, p, subject, ms[0], isInBatchContext, validEntities);
      CreateNestedRelationshipFrame(s, p, subject, ms[0], isInBatchContext, validEntities);
      if step.result.Ok? {
        CreateNestedRelationshipsFrame(step.store, p, subject, ms[1..], isInBatchContext, validEntities);
      }
    }
  }

  /** A created Property holds the `hasValue` of its values at its slot, and
      the attributes of attribute created after it do not touch it; without
      `hasValue` the creation is a bad request that changes nothing. */
  lemma CreatedPropertyStored(s: Store, p: Ports, entityId: string, key: string, values: Members,
                              isInBatchContext: bool, validEntities: map<string, string>)
    ensures var r := CreateEntityPropertyStep(s, p, entityId, key, values, isInBatchContext, validEntities);
      var slot := Slot(EntityNode(entityId), key);
      (p.propertyValue(values, NGSILD_PROPERTY_VALUE).None? ==>
         r == Step(Err(BadRequestData("Key " + NGSILD_PROPERTY_VALUE + " not found in ")), s)) &&
      (r.result.Ok? ==> (p.propertyValue(values, NGSILD_PROPERTY_VALUE).Some? && slot in r.store.properties &&
         r.store.properties[slot] == PropertyRecord(p.propertyValue(values, NGSILD_PROPERTY_VALUE).value,
                                                    p.propertyString(values, NGSILD_UNIT_CODE_PROPERTY),
                                                    p.propertyDateTime(values, NGSILD_OBSERVED_AT_PROPERTY)))) &&
      r.store.locations == s.locations && (!isInBatchContext ==> r.store.entities == s.entities)
  {
    var value := p.propertyValue(values, NGSILD_PROPERTY_VALUE);
    if value.Some? {
      var slot := Slot(EntityNode(entityId), key);
      var record := PropertyRecord(value.value, p.propertyString(values, NGSILD_UNIT_CODE_PROPERTY),
                                   p.propertyDateTime(values, NGSILD_OBSERVED_AT_PROPERTY));
      var withProperty := s.(properties := s.properties[slot := record]);
      assert PropertyNode(slot) != slot.subject by { assert |PropertyNode(slot).via| != |slot.subject.via|; }
      var nested := CreateAttributePropertiesStep(withProperty, p, PropertyNode(slot), values);
      var es := NestedPropertyEntries(p, values);
      if es.Ok? {
        CreateNestedPropertiesFrame(withProperty, p, PropertyNode(slot), es.value);
      }
      if nested.result.Ok? {
        CreateNestedRelationshipsFrame(nested.store, p, PropertyNode(slot), values, isInBatchContext, validEntities);
      }
    }
  }

  /** A created Relationship holds its expanded type and points to the given
      target; it creates no entity. */
  lemma CreatedRelationshipStored(s: Store, p: Ports, entityId: string, key: string, values: Members, targetEntityId: string)
    ensures var r := CreateEntityRelationshipStep(s, p, entityId, key, values, targetEntityId);
      var slot := Slot(EntityNode(entityId), p.relationshipTypeName(key));
      r.store.entities == s.entities && r.store.locations == s.locations &&
      (r.result.Ok? ==> (slot in r.store.relationships &&
         r.store.relationships[slot] == RelationshipRecord([key], p.propertyDateTime(values, NGSILD_OBSERVED_AT_PROPERTY), targetEntityId)))
  {
    var slot := Slot(EntityNode(entityId), p.relationshipTypeName(key));
    var record := RelationshipRecord([key], p.propertyDateTime(values, NGSILD_OBSERVED_AT_PROPERTY), targetEntityId);
    var withRelationship := s.(relationships := s.relationships[slot := record]);
    assert RelationshipNode(slot) != slot.subject by { assert |RelationshipNode(slot).via| != |slot.subject.via|; }
    var nested := CreateAttributePropertiesStep(withRelationship, p, RelationshipNode(slot), values);
    var es := NestedPropertyEntries(p, values);
    if es.Ok? {
      CreateNestedPropertiesFrame(withRelationship, p, RelationshipNode(slot), es.value);
    }
    if nested.result.Ok? {
      CreateNestedRelationshipsFrame(nested.store, p, RelationshipNode(slot), values, false, map[]);
    }
  }
  /** No step of `createEntity` touches the entity records. */
  lemma CreateRelationshipOfEntryKeeps(t: Store, p: Ports, entityId: string, e: Entry)
    ensures CreateRelationshipOfEntryStep(t, p, entityId, e).store.entities == t.entities
  {
    var objectId := p.relationshipObjectId(e.values);
    if objectId.Ok? {
      CreatedRelationshipStored(t, p, entityId, e.key, e.values, objectId.value);
    }
  }

  lemma CreatePropertyOfEntryKeeps(t: Store, p: Ports, entityId: string, e: Entry)
    ensures CreatePropertyOfEntryStep(t, p, entityId, e).store.entities == t.entities
  {
    CreatedPropertyStored(t, p, entityId, e.key, e.values, false, map[]);
  }

  /** Hence no phase of `createEntity` touches them. */
  lemma LinkPhaseKeepsEntities(s: Store, p: Ports, entityId: string, es: seq<Entry>)
    ensures CreateEach(s, es, (t, e) => CreateRelationshipOfEntryStep(t, p, entityId, e)).store.entities == s.entities
  {
    forall t: Store, i | 0 <= i < |es|
      ensures CreateRelationshipOfEntryStep(t, p, entityId, es[i]).store.entities == t.entities
    {
      CreateRelationshipOfEntryKeeps(t, p, entityId, es[i]);
    }
    CreateEachKeepsEntities(s, es, (t, e) => CreateRelationshipOfEntryStep(t, p, entityId, e));
  }

  lemma PropertyPhaseKeepsEntities(s: Store, p: Ports, entityId: string, es: seq<Entry>)
    ensures CreateEach(s, es, (t, e) => CreatePropertyOfEntryStep(t, p, entityId, e)).store.entities == s.entities
  {
    forall t: Store, i | 0 <= i < |es|
      ensures CreatePropertyOfEntryStep(t, p, entityId, es[i]).store.entities == t.entities
    {
      CreatePropertyOfEntryKeeps(t, p, entityId, es[i]);
    }
    CreateEachKeepsEntities(s, es, (t, e) => CreatePropertyOfEntryStep(t, p, entityId, e));
  }

  lemma LocationPhaseKeepsEntities(s: Store, p: Ports, entityId: string, es: seq<Entry>)
    ensures CreateEach(s, es, (t, e) => CreateLocationOfEntryStep(t, p, entityId, e)).store.entities == s.entities
  {
    CreateEachKeepsEntities(s, es, (t, e) => CreateLocationOfEntryStep(t, p, entityId, e));
  }

  lemma {:induction false} CreateEachKeepsEntities(s: Store, es: seq<Entry>, create: (Store, Entry) -> Step<()>)
    requires forall t: Store, i :: 0 <= i < |es| ==> create(t, es[i]).store.entities == t.entities
    ensures CreateEach(s, es, create).store.entities == s.entities
    decreases |es|
  {
    if es != [] {
      assert create(s, es[0]).store.entities == s.entities;
      assert forall t: Store, i :: 0 <= i < |es[1..]| ==> create(t, es[1..][i]).store.entities == t.entities by {
        forall t: Store, i | 0 <= i < |es[1..]| ensures create(t, es[1..][i]).store.entities == t.entities {
          assert es[1..][i] == es[i + 1];
        }
      }
      CreateEachKeepsEntities(create(s, es[0]).store, es[1..], create);
    }
  }

  /** A phase fails once one of its steps fails on the entity records it is
      given. */
  lemma {:induction false} CreateEachFailsAt(s: Store, es: seq<Entry>, create: (Store, Entry) -> Step<()>, i: nat)
    requires i < |es|
    requires forall t: Store, j :: 0 <= j < |es| ==> create(t, es[j]).store.entities == t.entities
    requires forall t: Store :: t.entities == s.entities ==> create(t, es[i]).result.Err?
    ensures CreateEach(s, es, create).result.Err?
    decreases i
  {
    if create(s, es[0]).result.Ok? {
      assert i != 0;
      var next := create(s, es[0]).store;
      assert next.entities == s.entities;
      assert forall t: Store, j :: 0 <= j < |es[1..]| ==> create(t, es[1..][j]).store.entities == t.entities by {
        forall t: Store, j | 0 <= j < |es[1..]| ensures create(t, es[1..][j]).store.entities == t.entities {
          assert es[1..][j] == es[j + 1];
        }
      }
      assert es[1..][i - 1] == es[i];
      CreateEachFailsAt(next, es[1..], create, i - 1);
    }
  }

  /** After `createEntity` the entity records are the old ones plus the new
      entity's, with its types and contexts; its attributes create no entity. */
  lemma CreateEntityStoresRecord(s: Store, p: Ports, expandedPayload: Members, contexts: seq<string>,
                                 entityId: string, types: seq<string>)
    requires p.readEntity(expandedPayload) == Ok((entityId, types))
    ensures var r := CreateEntityStep(s, p, expandedPayload, contexts);
      r.result.Ok? ==> (r.result.value == entityId && r.store.entities == s.entities[entityId := EntityRecord(types, contexts)])
  {
    var es := Expanded(p, Without(expandedPayload, {JSONLD_ID, JSONLD_TYPE}));
    if es.Ok? {
      CreateAttributesKeepEntities(s.(entities := s.entities[entityId := EntityRecord(types, contexts)]), p, entityId, es.value);
    }
  }

  lemma CreateAttributesKeepEntities(s: Store, p: Ports, entityId: string, es: seq<Entry>)
    ensures CreateAttributesOfEntity(s, p, entityId, es).store.entities == s.entities
  {
    LinkPhaseKeepsEntities(s, p, entityId, es);
    var linked := CreateEach(s, es, (t, e) => CreateRelationshipOfEntryStep(t, p, entityId, e));
    PropertyPhaseKeepsEntities(linked.store, p, entityId, es);
    var valued := CreateEach(linked.store, es, (t, e) => CreatePropertyOfEntryStep(t, p, entityId, e));
    LocationPhaseKeepsEntities(valued.store, p, entityId, es);
  }

  /** `createEntity` refuses a Relationship whose object is neither an
      existing entity nor the entity being created, and then changes
      nothing. */
  lemma CreateEntityTargetMustExist(s: Store, p: Ports, expandedPayload: Members, contexts: seq<string>, i: nat)
    requires p.readEntity(expandedPayload).Ok?
    requires Expanded(p, Without(expandedPayload, {JSONLD_ID, JSONLD_TYPE})).Ok?
    requires var es := Expanded(p, Without(expandedPayload, {JSONLD_ID, JSONLD_TYPE})).value;
      i < |es| && p.isAttributeOfType(es[i].values, NGSILD_RELATIONSHIP_TYPE) &&
      p.relationshipObjectId(es[i].values).Ok? &&
      p.relationshipObjectId(es[i].values).value !in s.entities &&
      p.relationshipObjectId(es[i].values).value != p.readEntity(expandedPayload).value.0
    ensures var r := CreateEntityStep(s, p, expandedPayload, contexts);
      r.result.Err? && r.store == s
  {
    var (entityId, types) := p.readEntity(expandedPayload).value;
    var es := Expanded(p, Without(expandedPayload, {JSONLD_ID, JSONLD_TYPE})).value;
    forall t: Store, j | 0 <= j < |es|
      ensures CreateRelationshipOfEntryStep(t, p, entityId, es[j]).store.entities == t.entities
    {
      CreateRelationshipOfEntryKeeps(t, p, entityId, es[j]);
    }
    var saved := s.(entities := s.entities[entityId := EntityRecord(types, contexts)]);
    CreateEachFailsAt(saved, es, (t, e) => CreateRelationshipOfEntryStep(t, p, entityId, e), i);
    assert CreateAttributesOfEntity(saved, p, entityId, es).result.Err?;
  }


  // ---------------------------------------------------------------------
  // appendEntityAttributes: each attribute, by its type

  /** An expanded attribute whose first `@type` is the string `t`. */
  predicate TypedAs(p: Ports, m: Member, values: Members, t: string) {
    p.expandValueAsMap(m.value) == Ok(values) && AttributeTypeOf(values) == Ok(JStr(t))
  }

  /** An attribute without `@type` is a bad request that changes nothing. */
  lemma AppendWithoutType(s: Store, p: Ports, entityId: string, m: Member, values: Members, disallowOverwrite: bool,
                          isInBatchContext: bool, validEntities: map<string, string>)
    requires p.expandValueAsMap(m.value) == Ok(values) && !HasKey(values, JSONLD_TYPE)
    ensures AppendAttributeStep(s, p, entityId, m, disallowOverwrite, isInBatchContext, validEntities) ==
      Step(Err(BadRequestData("@type not found in ")), s)
  {
  }

  /** An attribute of none of the three types is not appended, says why,
      and changes nothing. */
  lemma AppendUnknownType(s: Store, p: Ports, entityId: string, m: Member, values: Members, t: Json,
                          disallowOverwrite: bool, isInBatchContext: bool, validEntities: map<string, string>)
    requires p.expandValueAsMap(m.value) == Ok(values) && AttributeTypeOf(values) == Ok(t)
    requires t !in {JStr(NGSILD_RELATIONSHIP_TYPE), JStr(NGSILD_PROPERTY_TYPE), JStr(NGSILD_GEOPROPERTY_TYPE)}
    ensures AppendAttributeStep(s, p, entityId, m, disallowOverwrite, isInBatchContext, validEntities) ==
      Step(Ok(Status(m.key, false, Some("Unknown attribute type " + TypeText(t)))), s)
  {
    assert HasKey(values, JSONLD_TYPE);
  }

  /** The first `@type` of an attribute selects its branch. */
  lemma AppendDispatch(s: Store, p: Ports, entityId: string, m: Member, values: Members, disallowOverwrite: bool,
                       isInBatchContext: bool, validEntities: map<string, string>)
    requires p.expandValueAsMap(m.value) == Ok(values)
    ensures var r := AppendAttributeStep(s, p, entityId, m, disallowOverwrite, isInBatchContext, validEntities);
      (TypedAs(p, m, values, NGSILD_RELATIONSHIP_TYPE) ==>
         r == AppendRelationshipStep(s, p, entityId, m.key, values, disallowOverwrite, isInBatchContext, validEntities)) &&
      (TypedAs(p, m, values, NGSILD_PROPERTY_TYPE) ==>
         r == AppendPropertyStep(s, p, entityId, m.key, values, disallowOverwrite, isInBatchContext, validEntities)) &&
      (TypedAs(p, m, values, NGSILD_GEOPROPERTY_TYPE) ==>
         r == AppendGeoPropertyStep(s, p, entityId, m.key, values, disallowOverwrite))
  {
    if AttributeTypeOf(values).Ok? {
      assert HasKey(values, JSONLD_TYPE);
    }
  }

  /** A Property: an existing one is left alone when overwriting is not
      allowed; otherwise it is (deleted and) created, holds its new value and
      counts as appended; without `hasValue` it is a bad request. */
  lemma AppendPropertyCases(s: Store, p: Ports, entityId: string, key: string, values: Members, disallowOverwrite: bool,
                            isInBatchContext: bool, validEntities: map<string, string>)
    ensures var r := AppendPropertyStep(s, p, entityId, key, values, disallowOverwrite, isInBatchContext, validEntities);
      var slot := Slot(EntityNode(entityId), key);
      var value := p.propertyValue(values, NGSILD_PROPERTY_VALUE);
      (slot in s.properties && disallowOverwrite ==> r == Ignored(s, key, "Property ", key, entityId)) &&
      (slot !in s.properties || !disallowOverwrite ==>
        (entityId !in s.entities ==> r.result == Err(NO_SUCH_ELEMENT)) &&
        (entityId in s.entities && value.None? ==>
           r.result == Err(BadRequestData("Key " + NGSILD_PROPERTY_VALUE + " not found in "))) &&
        (r.result.Ok? ==> (r.result.value == Status(key, true, None) && value.Some? &&
           slot in r.store.properties && r.store.properties[slot].value == value.value)))
  {
    var slot := Slot(EntityNode(entityId), key);
    if slot !in s.properties {
      CreatedPropertyStored(s, p, entityId, key, values, isInBatchContext, validEntities);
    } else if !disallowOverwrite {
      var cleared := AttributeDeleted(s, slot, PropertyNode(slot));
      CreatedPropertyStored(cleared, p, entityId, key, values, isInBatchContext, validEntities);
    }
  }

  /** Linking a relationship: in a batch, a missing object outside the
      valid entities is a bad request, and one of them is created as a
      placeholder of its declared type; outside a batch the object is linked
      as it is.  A link made points to the object and counts as appended. */
  lemma LinkRelationshipCases(s: Store, p: Ports, entityId: string, key: string, values: Members, objectId: string,
                              isInBatchContext: bool, validEntities: map<string, string>)
    requires p.relationshipObjectId(values) == Ok(objectId)
    ensures var r := LinkRelationshipStep(s, p, entityId, key, values, isInBatchContext, validEntities);
      var slot := Slot(EntityNode(entityId), p.relationshipTypeName(key));
      var placeholder := objectId !in s.entities && isInBatchContext;
      (placeholder && objectId !in validEntities ==> r == Step(Err(BadRequestData(TargetMissing(objectId,
          "relationship " + p.shortName(key) + " does not exist, create it first"))), s)) &&
      (!(placeholder && objectId !in validEntities) && entityId !in s.entities ==> r == Step(Err(NO_SUCH_ELEMENT), s)) &&
      (r.result.Ok? ==> (r.result.value == Status(key, true, None) &&
         slot in r.store.relationships && r.store.relationships[slot].target == objectId &&
         r.store.entities == if placeholder && objectId in validEntities
                             then s.entities[objectId := EntityRecord([validEntities[objectId]], [])]
                             else s.entities))
  {
    if objectId !in s.entities && isInBatchContext {
      if objectId in validEntities && entityId in s.entities {
        var placed := TempEntity(s, objectId, validEntities[objectId], []);
        CreatedRelationshipStored(placed, p, entityId, key, values, objectId);
      }
    } else if entityId in s.entities {
      CreatedRelationshipStored(s, p, entityId, key, values, objectId);
    }
  }

  /** A Relationship is looked up by the type name of its short name: an
      existing one is left alone when overwriting is not allowed, and is
      otherwise deleted, with its attributes, before the link is made. */
  lemma AppendRelationshipCases(s: Store, p: Ports, entityId: string, key: string, values: Members, disallowOverwrite: bool,
                                isInBatchContext: bool, validEntities: map<string, string>)
    ensures var r := AppendRelationshipStep(s, p, entityId, key, values, disallowOverwrite, isInBatchContext, validEntities);
      var name := p.shortName(key);
      var slot := Slot(EntityNode(entityId), p.relationshipTypeName(name));
      (slot !in s.relationships ==> r == LinkRelationshipStep(s, p, entityId, key, values, isInBatchContext, validEntities)) &&
      (slot in s.relationships && disallowOverwrite ==> r == Ignored(s, key, "Relationship ", name, entityId)) &&
      (slot in s.relationships && !disallowOverwrite ==>
         var cleared := LinkRelationshipStep(AttributeDeleted(s, slot, RelationshipNode(slot)), p, entityId, key, values,
                                             isInBatchContext, validEntities);
         r == cleared && slot !in AttributeDeleted(s, slot, RelationshipNode(slot)).relationships &&
         AttributeDeleted(s, slot, RelationshipNode(slot)).entities == s.entities)
  {
  }

  /** A GeoProperty is present when the entity has a location.  An absent
      one is created as a Point location, or, for any other geometry, only
      logged, yet counts as appended either way; an existing one is left
      alone when overwriting is not allowed, and is otherwise replaced by a
      Point, any other geometry being a bad request. */
  lemma AppendGeoPropertyCases(s: Store, p: Ports, entityId: string, key: string, values: Members, disallowOverwrite: bool,
                               geoType: string, geoValue: Members)
    requires Geometry(p, values) == Ok((geoType, geoValue))
    ensures var r := AppendGeoPropertyStep(s, p, entityId, key, values, disallowOverwrite);
      var kept := entityId in s.locations && disallowOverwrite;
      (kept ==> r == Ignored(s, key, "GeoProperty ", key, entityId)) &&
      (!kept && entityId !in s.entities ==> r == Step(Err(NO_SUCH_ELEMENT), s)) &&
      (!kept && entityId in s.entities ==>
        (entityId !in s.locations && geoType != POINT_TYPE ==> r == Step(Ok(Status(key, true, None)), s)) &&
        (entityId in s.locations && geoType != POINT_TYPE ==>
           r == Step(Err(BadRequestData("Unsupported geometry type : " + geoType)), s)) &&
        (geoType == POINT_TYPE && PointOf(geoValue).Ok? ==>
           r == Step(Ok(Status(key, true, None)), s.(locations := s.locations[entityId := PointOf(geoValue).value])))) &&
      (geoType == POINT_TYPE && PointOf(geoValue).Err? ==> r.store == s && (r.result.Ok? ==> entityId in s.locations))
  {
  }

  // ---------------------------------------------------------------------
  // appendEntityAttributes: the partition of the keys

  /** The keys the statuses are about, in order. */
  function StatusKeys(statuses: seq<Status>): (r: seq<string>)
    ensures |r| == |statuses| && forall i :: 0 <= i < |statuses| ==> r[i] == statuses[i].key
  {
    seq(|statuses|, i requires 0 <= i < |statuses| => statuses[i].key)
  }

  /** Every status that is not an append says why. */
  predicate Reasoned(statuses: seq<Status>) {
    forall i :: 0 <= i < |statuses| ==> statuses[i].updated || statuses[i].reason.Some?
  }

  /** The two lists can be built exactly when every status not appended has
      a reason, and then every key lands in exactly one of them. */
  lemma CollectPartition(statuses: seq<Status>)
    ensures Collect(statuses).Ok? <==> Reasoned(statuses)
    ensures Collect(statuses).Ok? ==>
      multiset(Collect(statuses).value.updated) + multiset(Names(Collect(statuses).value.notUpdated)) ==
      multiset(StatusKeys(statuses))
  {
    CollectOk(statuses);
    CollectCounts(statuses);
    if Collect(statuses).Ok? {
      assert Counted(Collect(statuses).value) ==
        multiset(Collect(statuses).value.updated) + multiset(Names(Collect(statuses).value.notUpdated));
    }
  }

  lemma {:induction false} CollectOk(statuses: seq<Status>)
    ensures Collect(statuses).Ok? <==> Reasoned(statuses)
    decreases |statuses|
  {
    if statuses != [] {
      CollectOk(statuses[1..]);
      ReasonedCons(statuses);
    }
  }

  lemma ReasonedCons(statuses: seq<Status>)
    requires statuses != []
    ensures Reasoned(statuses) <==> (statuses[0].updated || statuses[0].reason.Some?) && Reasoned(statuses[1..])
  {
    if Reasoned(statuses) {
      forall i | 0 <= i < |statuses[1..]|
        ensures statuses[1..][i].updated || statuses[1..][i].reason.Some?
      {
        assert statuses[1..][i] == statuses[i + 1];
      }
    }
  }

  lemma {:induction false} CollectCounts(statuses: seq<Status>)
    ensures Collect(statuses).Ok? ==> Counted(Collect(statuses).value) == multiset(StatusKeys(statuses))
    decreases |statuses|
  {
    if statuses != [] && Collect(statuses).Ok? {
      CollectCountedCons(statuses);
      StatusKeysCons(statuses);
      CollectCounts(statuses[1..]);
    }
  }

  /** Every key `Collect` placed, in either list. */
  function Counted(r: UpdateResult): multiset<string> {
    multiset(r.updated) + multiset(Names(r.notUpdated))
  }

  lemma StatusKeysCons(statuses: seq<Status>)
    requires statuses != []
    ensures multiset(StatusKeys(statuses)) == multiset{statuses[0].key} + multiset(StatusKeys(statuses[1..]))
  {
    assert StatusKeys(statuses) == [statuses[0].key] + StatusKeys(statuses[1..]);
  }

  /** One step of `Collect` places the first key once more. */
  lemma CollectCountedCons(statuses: seq<Status>)
    requires statuses != [] && Collect(statuses).Ok?
    ensures Collect(statuses[1..]).Ok?
    ensures Counted(Collect(statuses).value) == multiset{statuses[0].key} + Counted(Collect(statuses[1..]).value)
  {
    var st := statuses[0];
    var rest := Collect(statuses[1..]).value;
    if !st.updated {
      var d := U.NotUpdatedDetails(st.key, st.reason.value);
      assert Names([d] + rest.notUpdated) == [st.key] + Names(rest.notUpdated);
    }
  }

  /** A status about the attribute's own key, with a reason unless appended. */
  predicate KeyedAndReasoned(step: Step<Status>, key: string) {
    step.result.Ok? ==> step.result.value.key == key && (step.result.value.updated || step.result.value.reason.Some?)
  }

  lemma LinkRelationshipKeyed(s: Store, p: Ports, entityId: string, key: string, values: Members,
                              isInBatchContext: bool, validEntities: map<string, string>)
    ensures KeyedAndReasoned(LinkRelationshipStep(s, p, entityId, key, values, isInBatchContext, validEntities), key)
  {
  }

  lemma AppendRelationshipKeyed(s: Store, p: Ports, entityId: string, key: string, values: Members, disallowOverwrite: bool,
                                isInBatchContext: bool, validEntities: map<string, string>)
    ensures KeyedAndReasoned(AppendRelationshipStep(s, p, entityId, key, values, disallowOverwrite, isInBatchContext, validEntities), key)
  {
    var slot := Slot(EntityNode(entityId), p.relationshipTypeName(p.shortName(key)));
    LinkRelationshipKeyed(s, p, entityId, key, values, isInBatchContext, validEntities);
    LinkRelationshipKeyed(AttributeDeleted(s, slot, RelationshipNode(slot)), p, entityId, key, values,
                          isInBatchContext, validEntities);
  }

  lemma AppendAttributeKeyed(s: Store, p: Ports, entityId: string, m: Member, disallowOverwrite: bool,
                             isInBatchContext: bool, validEntities: map<string, string>)
    ensures KeyedAndReasoned(AppendAttributeStep(s, p, entityId, m, disallowOverwrite, isInBatchContext, validEntities), m.key)
  {
    var values := p.expandValueAsMap(m.value);
    if values.Ok? {
      var t := AttributeTypeOf(values.value);
      if t == Ok(JStr(NGSILD_RELATIONSHIP_TYPE)) {
        AppendDispatch(s, p, entityId, m, values.value, disallowOverwrite, isInBatchContext, validEntities);
        AppendRelationshipKeyed(s, p, entityId, m.key, values.value, disallowOverwrite, isInBatchContext, validEntities);
      } else if t == Ok(JStr(NGSILD_PROPERTY_TYPE)) {
        AppendDispatch(s, p, entityId, m, values.value, disallowOverwrite, isInBatchContext, validEntities);
        assert KeyedAndReasoned(AppendPropertyStep(s, p, entityId, m.key, values.value, disallowOverwrite,
                                                   isInBatchContext, validEntities), m.key);
      } else if t == Ok(JStr(NGSILD_GEOPROPERTY_TYPE)) {
        AppendDispatch(s, p, entityId, m, values.value, disallowOverwrite, isInBatchContext, validEntities);
        assert KeyedAndReasoned(AppendGeoPropertyStep(s, p, entityId, m.key, values.value, disallowOverwrite), m.key);
      }
    }
  }

  /** The statuses of a walk that stops at nothing extend the ones so far by
      one per attribute, in order; their reasons are there when each step
      gives them. */
  lemma {:induction false} AppendAllStatuses(s: Store, ms: Members, attribute: (Store, Member) -> Step<Status>, done: seq<Status>)
    requires forall t: Store, i :: 0 <= i < |ms| ==> KeyedAndReasoned(attribute(t, ms[i]), ms[i].key)
    ensures var r := AppendAll(s, ms, attribute, done);
      r.result.Ok? ==> StatusKeys(r.result.value) == StatusKeys(done) + Keys(ms) &&
                       (Reasoned(done) ==> Reasoned(r.result.value))
    decreases |ms|
  {
    if ms != [] {
      var step := attribute(s, ms[0]);
      assert KeyedAndReasoned(step, ms[0].key);
      if step.result.Ok? {
        var done' := done + [step.result.value];
        assert forall t: Store, i :: 0 <= i < |ms[1..]| ==> KeyedAndReasoned(attribute(t, ms[1..][i]), ms[1..][i].key) by {
          forall t: Store, i | 0 <= i < |ms[1..]|
            ensures KeyedAndReasoned(attribute(t, ms[1..][i]), ms[1..][i].key)
          {
            assert ms[1..][i] == ms[i + 1];
          }
        }
        AppendAllStatuses(step.store, ms[1..], attribute, done');
        assert StatusKeys(done') == StatusKeys(done) + [ms[0].key];
        KeysCons(ms);
      }
    }
  }

  /** An attribute that fails on every graph stops the walk with an error. */
  lemma {:induction false} AppendAllFailsAt(s: Store, ms: Members, attribute: (Store, Member) -> Step<Status>,
                                            done: seq<Status>, i: nat)
    requires i < |ms| && forall t: Store :: attribute(t, ms[i]).result.Err?
    ensures AppendAll(s, ms, attribute, done).result.Err?
    decreases i
  {
    var step := attribute(s, ms[0]);
    if i > 0 && step.result.Ok? {
      assert ms[1..][i - 1] == ms[i];
      AppendAllFailsAt(step.store, ms[1..], attribute, done + [step.result.value], i - 1);
    }
  }

  /** `appendEntityAttributes` never fails in building its lists, and every
      key of the fragment is either appended or not appended, exactly once. */
  lemma AppendPartition(s: Store, p: Ports, entityId: string, attributes: Members, disallowOverwrite: bool,
                        isInBatchContext: bool, validEntities: map<string, string>)
    ensures var r := AppendEntityAttributesStep(s, p, entityId, attributes, disallowOverwrite, isInBatchContext, validEntities);
      var all := AppendAll(s, attributes, (t, m) => AppendAttributeStep(t, p, entityId, m, disallowOverwrite,
                                                                       isInBatchContext, validEntities), []);
      (r.result.Ok? <==> all.result.Ok?) &&
      (r.result.Ok? ==> multiset(r.result.value.updated) + multiset(Names(r.result.value.notUpdated)) == multiset(Keys(attributes)))
  {
    var attribute := (t, m) => AppendAttributeStep(t, p, entityId, m, disallowOverwrite, isInBatchContext, validEntities);
    forall t: Store, i | 0 <= i < |attributes|
      ensures KeyedAndReasoned(attribute(t, attributes[i]), attributes[i].key)
    {
      AppendAttributeKeyed(t, p, entityId, attributes[i], disallowOverwrite, isInBatchContext, validEntities);
    }
    AppendAllStatuses(s, attributes, attribute, []);
    var all := AppendAll(s, attributes, attribute, []);
    if all.result.Ok? {
      CollectPartition(all.result.value);
      assert StatusKeys([]) == [];
      assert [] + Keys(attributes) == Keys(attributes);
    }
  }

  /** One attribute without `@type` makes the whole append a failure. */
  lemma AppendStopsWithoutType(s: Store, p: Ports, entityId: string, attributes: Members, disallowOverwrite: bool,
                               isInBatchContext: bool, validEntities: map<string, string>, i: nat, values: Members)
    requires i < |attributes| && p.expandValueAsMap(attributes[i].value) == Ok(values) && !HasKey(values, JSONLD_TYPE)
    ensures AppendEntityAttributesStep(s, p, entityId, attributes, disallowOverwrite, isInBatchContext, validEntities).result.Err?
  {
    var attribute := (t, m) => AppendAttributeStep(t, p, entityId, m, disallowOverwrite, isInBatchContext, validEntities);
    forall t: Store
      ensures attribute(t, attributes[i]).result.Err?
    {
      AppendWithoutType(t, p, entityId, attributes[i], values, disallowOverwrite, isInBatchContext, validEntities);
    }
    AppendAllFailsAt(s, attributes, attribute, [], i);
  }

  // ---------------------------------------------------------------------
  // updateEntityAttributes

  /** The lists with one more attribute not updated. */
  function Skipped(acc: UpdateResult, name: string, reason: string): UpdateResult {
    acc.(notUpdated := acc.notUpdated + [U.NotUpdatedDetails(name, reason)])
  }

  /** Only an existing attribute is updated: a missing one is reported with
      the reason of its type and changes nothing; an attribute of another
      type is in neither list; one without `@type` is a null dereference
      that is not caught. */
  lemma UpdateOnlyExisting(s: Store, p: Ports, entityId: string, m: Member, values: Members, acc: UpdateResult)
    requires p.expandValueAsMap(m.value) == Ok(values)
    ensures var r := UpdateAttributeStep(s, p, entityId, m, acc);
      var name := p.shortName(m.key);
      (TypedAs(p, m, values, NGSILD_RELATIONSHIP_TYPE) &&
         Slot(EntityNode(entityId), p.relationshipTypeName(m.key)) !in s.relationships ==>
         r == Step(Ok(Skipped(acc, name, "Relationship does not exist")), s)) &&
      (TypedAs(p, m, values, NGSILD_PROPERTY_TYPE) && Slot(EntityNode(entityId), m.key) !in s.properties ==>
         r == Step(Ok(Skipped(acc, name, "Property does not exist")), s)) &&
      (TypedAs(p, m, values, NGSILD_GEOPROPERTY_TYPE) && entityId !in s.locations ==>
         r == Step(Ok(Skipped(acc, name, "GeoProperty does not exist")), s)) &&
      (AttributeTypeOf(values).Ok? &&
         AttributeTypeOf(values).value !in {JStr(NGSILD_RELATIONSHIP_TYPE), JStr(NGSILD_PROPERTY_TYPE), JStr(NGSILD_GEOPROPERTY_TYPE)} ==>
         r == Step(Ok(acc), s)) &&
      (!HasKey(values, JSONLD_TYPE) ==> r == Step(Err(Crash("NullPointerException")), s))
  {
  }

  /** Re-pointing an existing Relationship to a missing entity is a bad
      request, which is caught and reported under the short name. */
  lemma UpdateRelationshipMissingTarget(s: Store, p: Ports, entityId: string, m: Member, values: Members, acc: UpdateResult,
                                        objectId: string)
    requires TypedAs(p, m, values, NGSILD_RELATIONSHIP_TYPE)
    requires Slot(EntityNode(entityId), p.relationshipTypeName(m.key)) in s.relationships
    requires p.relationshipObjectId(values) == Ok(objectId) && objectId !in s.entities
    ensures UpdateAttributeStep(s, p, entityId, m, acc) ==
      Step(Ok(Skipped(acc, p.shortName(m.key), "Target entity " + objectId + " does not exist, create it first")), s)
  {
  }

  /** A nested Relationship must exist on the attribute it is updated on. */
  lemma NestedRelationshipMustExist(s: Store, p: Ports, subject: Subject, m: Member)
    requires FirstIsMap(m.value) == Ok(true)
    requires p.isAttributeOfType(m.value.elems[0].members, NGSILD_RELATIONSHIP_TYPE)
    requires Slot(subject, p.relationshipTypeName(m.key)) !in s.relationships
    ensures UpdateNestedRelationship(s, p, subject, m) ==
      Step(Err(BadRequestData("Relationship " + p.relationshipTypeName(m.key) + " does not exist")), s)
  {
  }

  /** A Property that an update of attributes of attribute does not name
      keeps its value. */
  lemma {:induction false} UpdateNestedPropertiesUntouched(s: Store, p: Ports, subject: Subject, es: seq<Entry>, k: string)
    requires Slot(subject, k) in s.properties
    requires forall j :: 0 <= j < |es| ==> es[j].key != k
    ensures UpdateNestedProperties(s, p, subject, es).store.properties[Slot(subject, k)] == s.properties[Slot(subject, k)]
    decreases |es|
  {
    if es != [] {
      var step := UpdateNestedProperty(s, p, subject, es[0]);
      if step.result.Ok? {
        assert es[0].key != k;
        forall j | 0 <= j < |es[1..]| ensures es[1..][j].key != k {
          assert es[1..][j] == es[j + 1];
        }
        UpdateNestedPropertiesUntouched(step.store, p, subject, es[1..], k);
      }
    }
  }

  /** When an update of attributes of attribute goes through, the entry
      names an existing Property, and the last entry with its key has
      written the values of its payload there. */
  lemma {:induction false} UpdateNestedPropertiesWritten(s: Store, p: Ports, subject: Subject, es: seq<Entry>, i: nat)
    requires UpdateNestedProperties(s, p, subject, es).result.Ok?
    requires i < |es| && forall j :: i < j < |es| ==> es[j].key != es[i].key
    ensures Slot(subject, es[i].key) in s.properties && NewPropertyRecord(p, es[i].values).Ok?
    ensures UpdateNestedProperties(s, p, subject, es).store.properties[Slot(subject, es[i].key)] ==
      NewPropertyRecord(p, es[i].values).value
    decreases |es|
  {
    var step := UpdateNestedProperty(s, p, subject, es[0]);
    assert step.result.Ok?;
    if i == 0 {
      forall j | 0 <= j < |es[1..]| ensures es[1..][j].key != es[0].key {
        assert es[1..][j] == es[j + 1];
      }
      UpdateNestedPropertiesUntouched(step.store, p, subject, es[1..], es[0].key);
    } else {
      assert es[1..][i - 1] == es[i];
      forall j | i - 1 < j < |es[1..]| ensures es[1..][j].key != es[1..][i - 1].key {
        assert es[1..][j] == es[j + 1];
      }
      UpdateNestedPropertiesWritten(step.store, p, subject, es[1..], i - 1);
    }
  }

  /** `updatePropertiesOfAttribute` that goes through has written each
      nested Property of the payload (the last one, for a repeated key). */
  lemma UpdatePropertiesOfAttributeWritten(s: Store, p: Ports, subject: Subject, values: Members)
    requires UpdatePropertiesOfAttributeStep(s, p, subject, values).result.Ok?
    ensures NestedPropertyEntries(p, values).Ok?
    ensures var es := NestedPropertyEntries(p, values).value;
      forall i :: 0 <= i < |es| && (forall j :: i < j < |es| ==> es[j].key != es[i].key) ==>
        Slot(subject, es[i].key) in s.properties && NewPropertyRecord(p, es[i].values).Ok? &&
        UpdatePropertiesOfAttributeStep(s, p, subject, values).store.properties[Slot(subject, es[i].key)] ==
          NewPropertyRecord(p, es[i].values).value
  {
    var es := NestedPropertyEntries(p, values).value;
    forall i | 0 <= i < |es| && (forall j :: i < j < |es| ==> es[j].key != es[i].key)
      ensures Slot(subject, es[i].key) in s.properties && NewPropertyRecord(p, es[i].values).Ok? &&
        UpdateNestedProperties(s, p, subject, es).store.properties[Slot(subject, es[i].key)] ==
          NewPropertyRecord(p, es[i].values).value
    {
      UpdateNestedPropertiesWritten(s, p, subject, es, i);
    }
  }

  /** A Relationship that an update of attributes of attribute does not
      name keeps its value. */
  lemma {:induction false} UpdateNestedRelationshipsUntouched(s: Store, p: Ports, subject: Subject, ms: Members, name: string)
    requires Slot(subject, name) in s.relationships
    requires forall j :: 0 <= j < |ms| && NestedRelationshipPayload(p, ms[j]).Some? ==> p.relationshipTypeName(ms[j].key) != name
    ensures UpdateNestedRelationships(s, p, subject, ms).store.relationships[Slot(subject, name)] ==
      s.relationships[Slot(subject, name)]
    decreases |ms|
  {
    if ms != [] {
      var step := UpdateNestedRelationship(s, p, subject, ms[0]);
      if step.result.Ok? {
        forall j | 0 <= j < |ms[1..]| && NestedRelationshipPayload(p, ms[1..][j]).Some?
          ensures p.relationshipTypeName(ms[1..][j].key) != name
        {
          assert ms[1..][j] == ms[j + 1];
        }
        UpdateNestedRelationshipsUntouched(step.store, p, subject, ms[1..], name);
      }
    }
  }

  /** When an update of attributes of attribute goes through, a Relationship
      entry names an existing Relationship and an existing target, and the
      last entry with its type name has re-pointed it there. */
  lemma {:induction false} UpdateNestedRelationshipsWritten(s: Store, p: Ports, subject: Subject, ms: Members, i: nat)
    requires UpdateNestedRelationships(s, p, subject, ms).result.Ok?
    requires i < |ms| && NestedRelationshipPayload(p, ms[i]).Some?
    requires forall j :: i < j < |ms| && NestedRelationshipPayload(p, ms[j]).Some? ==>
      p.relationshipTypeName(ms[j].key) != p.relationshipTypeName(ms[i].key)
    ensures var values := NestedRelationshipPayload(p, ms[i]).value;
      var slot := Slot(subject, p.relationshipTypeName(ms[i].key));
      slot in s.relationships && p.relationshipObjectId(values).Ok? && p.relationshipObjectId(values).value in s.entities &&
      UpdateNestedRelationships(s, p, subject, ms).store.relationships[slot] ==
        Repointed(p, s.relationships[slot], values, p.relationshipObjectId(values).value)
    decreases |ms|
  {
    var step := UpdateNestedRelationship(s, p, subject, ms[0]);
    assert step.result.Ok?;
    var slot := Slot(subject, p.relationshipTypeName(ms[i].key));
    if i == 0 {
      forall j | 0 <= j < |ms[1..]| && NestedRelationshipPayload(p, ms[1..][j]).Some?
        ensures p.relationshipTypeName(ms[1..][j].key) != slot.name
      {
        assert ms[1..][j] == ms[j + 1];
      }
      UpdateNestedRelationshipsUntouched(step.store, p, subject, ms[1..], slot.name);
    } else {
      assert ms[1..][i - 1] == ms[i];
      forall j | i - 1 < j < |ms[1..]| && NestedRelationshipPayload(p, ms[1..][j]).Some?
        ensures p.relationshipTypeName(ms[1..][j].key) != p.relationshipTypeName(ms[1..][i - 1].key)
      {
        assert ms[1..][j] == ms[j + 1];
      }
      UpdateNestedRelationshipsWritten(step.store, p, subject, ms[1..], i - 1);
      assert step.store.relationships[slot].relType == s.relationships[slot].relType;
    }
  }

  /** An attribute is listed as updated under its short name exactly when
      it was changed; its node then holds the values of the payload: a
      Property its value, unit code and observation date, a Relationship
      its new target and observation date, a GeoProperty its Point. */
  lemma UpdateExistingListed(s: Store, p: Ports, entityId: string, m: Member, values: Members, acc: UpdateResult)
    requires p.expandValueAsMap(m.value) == Ok(values)
    ensures UpdateAttributeStep(s, p, entityId, m, acc).result == Ok(acc.(updated := acc.updated + [p.shortName(m.key)])) <==>
      TryUpdateStep(s, p, entityId, m).result == Ok(Changed)
    ensures var t := TryUpdateStep(s, p, entityId, m);
      t.result == Ok(Changed) && TypedAs(p, m, values, NGSILD_PROPERTY_TYPE) ==>
        var slot := Slot(EntityNode(entityId), m.key);
        slot in s.properties && NewPropertyRecord(p, values).Ok? && t.store.properties[slot] == NewPropertyRecord(p, values).value
    ensures var t := TryUpdateStep(s, p, entityId, m);
      t.result == Ok(Changed) && TypedAs(p, m, values, NGSILD_RELATIONSHIP_TYPE) ==>
        var slot := Slot(EntityNode(entityId), p.relationshipTypeName(m.key));
        slot in s.relationships && p.relationshipObjectId(values).Ok? && p.relationshipObjectId(values).value in s.entities &&
        t.store.relationships[slot] == Repointed(p, s.relationships[slot], values, p.relationshipObjectId(values).value)
    ensures var t := TryUpdateStep(s, p, entityId, m);
      t.result == Ok(Changed) && TypedAs(p, m, values, NGSILD_GEOPROPERTY_TYPE) ==>
        entityId in s.locations && Geometry(p, values).Ok? && Geometry(p, values).value.0 == POINT_TYPE &&
        PointOf(Geometry(p, values).value.1).Ok? && t.store.locations[entityId] == PointOf(Geometry(p, values).value.1).value
  {
    var r := UpdateAttributeStep(s, p, entityId, m, acc);
    var t := TryUpdateStep(s, p, entityId, m);
    if r.result == Ok(acc.(updated := acc.updated + [p.shortName(m.key)])) {
      assert |r.result.value.updated| != |acc.updated|;
    }
  }

  /** Whether an update raised something other than a bad request. */
  predicate Escapes(r: Result<Outcome>) {
    r.Err? && !r.error.BadRequestData?
  }

  /** An attribute that raises nothing but bad requests adds at most one
      entry to the lists. */
  lemma UpdateAttributeGrows(s: Store, p: Ports, entityId: string, m: Member, acc: UpdateResult)
    requires !Escapes(TryUpdateStep(s, p, entityId, m).result)
    ensures var r := UpdateAttributeStep(s, p, entityId, m, acc);
      r.result.Ok? && acc.updated <= r.result.value.updated && acc.notUpdated <= r.result.value.notUpdated &&
      |r.result.value.updated| + |r.result.value.notUpdated| <= |acc.updated| + |acc.notUpdated| + 1
  {
  }

  /** When no attribute raises anything but bad requests, every attribute is
      tried: the walk ends normally, each attribute adding at most one entry
      after the ones so far. */
  lemma {:induction false} UpdateAllContinues(s: Store, p: Ports, entityId: string, ms: Members, acc: UpdateResult)
    requires forall t: Store, i :: 0 <= i < |ms| ==> !Escapes(TryUpdateStep(t, p, entityId, ms[i]).result)
    ensures var r := UpdateAll(s, p, entityId, ms, acc);
      r.result.Ok? && acc.updated <= r.result.value.updated && acc.notUpdated <= r.result.value.notUpdated &&
      |r.result.value.updated| + |r.result.value.notUpdated| <= |acc.updated| + |acc.notUpdated| + |ms|
    decreases |ms|
  {
    if ms != [] {
      assert !Escapes(TryUpdateStep(s, p, entityId, ms[0]).result);
      UpdateAttributeGrows(s, p, entityId, ms[0], acc);
      var step := UpdateAttributeStep(s, p, entityId, ms[0], acc);
      assert forall t: Store, i :: 0 <= i < |ms[1..]| ==> !Escapes(TryUpdateStep(t, p, entityId, ms[1..][i]).result) by {
        forall t: Store, i | 0 <= i < |ms[1..]|
          ensures !Escapes(TryUpdateStep(t, p, entityId, ms[1..][i]).result)
        {
          assert ms[1..][i] == ms[i + 1];
        }
      }
      UpdateAllContinues(step.store, p, entityId, ms[1..], step.result.value);
    }
  }

  /** Whether `out` extends both lists of `acc`, every added name being one
      of `names`. */
  predicate Extends(acc: UpdateResult, out: UpdateResult, names: seq<string>) {
    acc.updated <= out.updated && acc.notUpdated <= out.notUpdated &&
    (forall k :: |acc.updated| <= k < |out.updated| ==> out.updated[k] in names) &&
    (forall k :: |acc.notUpdated| <= k < |out.notUpdated| ==> out.notUpdated[k].attributeName in names)
  }

  /** Extensions compose. */
  lemma ExtendsTrans(a: UpdateResult, b: UpdateResult, c: UpdateResult, m: seq<string>, n: seq<string>)
    requires Extends(a, b, m) && Extends(b, c, n)
    ensures Extends(a, c, m + n)
  {
    forall k | |a.updated| <= k < |c.updated| ensures c.updated[k] in m + n {
      if k < |b.updated| { assert c.updated[k] == b.updated[k]; }
    }
    forall k | |a.notUpdated| <= k < |c.notUpdated| ensures c.notUpdated[k].attributeName in m + n {
      if k < |b.notUpdated| { assert c.notUpdated[k] == b.notUpdated[k]; }
    }
  }

  /** One attribute adds at most one entry to each list, under its short
      name. */
  lemma UpdateAttributeNames(s: Store, p: Ports, entityId: string, m: Member, acc: UpdateResult)
    ensures var r := UpdateAttributeStep(s, p, entityId, m, acc);
      r.result.Ok? ==> (Extends(acc, r.result.value, [p.shortName(m.key)]) &&
                        |r.result.value.updated| <= |acc.updated| + 1 && |r.result.value.notUpdated| <= |acc.notUpdated| + 1)
  {
  }

  /** The walk tries the attributes in order: walking `a + b` is walking
      `a`, then `b` from where it stopped, unless `a` raised. */
  lemma {:induction false} UpdateAllAppend(s: Store, p: Ports, entityId: string, a: Members, b: Members, acc: UpdateResult)
    ensures var first := UpdateAll(s, p, entityId, a, acc);
      UpdateAll(s, p, entityId, a + b, acc) ==
        if first.result.Err? then first else UpdateAll(first.store, p, entityId, b, first.result.value)
    decreases |a|
  {
    if a == [] {
      assert a + b == b;
    } else {
      assert (a + b)[0] == a[0] && (a + b)[1..] == a[1..] + b;
      var step := UpdateAttributeStep(s, p, entityId, a[0], acc);
      if step.result.Ok? {
        UpdateAllAppend(step.store, p, entityId, a[1..], b, step.result.value);
      }
    }
  }

  /** The short names of some attributes, in order. */
  function ShortNames(p: Ports, ms: Members): (r: seq<string>)
    ensures |r| == |ms| && forall i :: 0 <= i < |ms| ==> r[i] == p.shortName(ms[i].key)
  {
    if ms == [] then [] else [p.shortName(ms[0].key)] + ShortNames(p, ms[1..])
  }

  /** The walk keeps the lists it started with as prefixes, and every name
      it adds to either list is the short name of one of the attributes. */
  lemma {:induction false} UpdateAllNames(s: Store, p: Ports, entityId: string, ms: Members, acc: UpdateResult)
    ensures var r := UpdateAll(s, p, entityId, ms, acc);
      r.result.Ok? ==> Extends(acc, r.result.value, ShortNames(p, ms))
    decreases |ms|
  {
    if ms == [] {
      assert Extends(acc, acc, []);
    } else {
      var step := UpdateAttributeStep(s, p, entityId, ms[0], acc);
      UpdateAttributeNames(s, p, entityId, ms[0], acc);
      if step.result.Ok? {
        var r := UpdateAll(step.store, p, entityId, ms[1..], step.result.value);
        UpdateAllNames(step.store, p, entityId, ms[1..], step.result.value);
        if r.result.Ok? {
          ExtendsTrans(acc, step.result.value, r.result.value, [p.shortName(ms[0].key)], ShortNames(p, ms[1..]));
        }
      }
    }
  }

  /** `updateEntityAttributes` of a missing entity is a `NoSuchElementException`
      that changes nothing; otherwise every name it lists is the short name of
      an attribute of the payload. */
  lemma UpdateEntityAttributesNames(s: Store, p: Ports, entityId: string, expandedPayload: Members)
    ensures entityId !in s.entities ==> UpdateEntityAttributesStep(s, p, entityId, expandedPayload) == Step(Err(NO_SUCH_ELEMENT), s)
    ensures var r := UpdateEntityAttributesStep(s, p, entityId, expandedPayload);
      r.result.Ok? ==> Extends(UpdateResult([], []), r.result.value, ShortNames(p, expandedPayload))
  {
    if entityId in s.entities {
      UpdateAllNames(s, p, entityId, expandedPayload, UpdateResult([], []));
    }
  }

  // ---------------------------------------------------------------------
  // Batches

  /** `deleteEntity` leaves nothing of the entity and keeps everything else. */
  lemma EntityDeletedRemovesAll(s: Store, entityId: string)
    ensures var t := EntityDeleted(s, entityId);
      entityId !in t.entities && entityId !in t.locations &&
      (forall k :: k in t.properties ==> k.subject.entityId != entityId) &&
      (forall k :: k in t.relationships ==> k.subject.entityId != entityId) &&
      (forall id :: id in s.entities && id != entityId ==> id in t.entities && t.entities[id] == s.entities[id]) &&
      (forall k :: k in s.properties && k.subject.entityId != entityId ==> k in t.properties && t.properties[k] == s.properties[k]) &&
      (forall k :: k in s.relationships && k.subject.entityId != entityId ==>
         k in t.relationships && t.relationships[k] == s.relationships[k])
  {
  }

  /** The id a batch entity is reported under. */
  function UrnText(e: BatchEntity): string {
    match UrnOf(e.payload)
    case Ok(urn) => urn
    case Err(_) => ""
  }

  function Urns(es: seq<BatchEntity>): (r: seq<string>)
    ensures |r| == |es| && forall i :: 0 <= i < |es| ==> r[i] == UrnText(es[i])
  {
    seq(|es|, i requires 0 <= i < |es| => UrnText(es[i]))
  }

  function ErrorIds(errors: seq<BatchEntityError>): (r: seq<string>)
    ensures |r| == |errors| && forall i :: 0 <= i < |errors| ==> r[i] == errors[i].entityId
  {
    seq(|errors|, i requires 0 <= i < |errors| => errors[i].entityId)
  }

  lemma ErrorIdsAppend(a: seq<BatchEntityError>, b: seq<BatchEntityError>)
    ensures ErrorIds(a + b) == ErrorIds(a) + ErrorIds(b)
  {
    assert forall i :: 0 <= i < |a + b| ==> ErrorIds(a + b)[i] == (ErrorIds(a) + ErrorIds(b))[i];
  }

  /** One more entity reported: among the created ones, or among the failed
      ones with one message. */
  predicate Lands(after: BatchOperationResult, before: BatchOperationResult, urn: string) {
    after == before.(success := before.success + [urn]) ||
    (after.success == before.success && |after.errors| == |before.errors| + 1 &&
     after.errors[..|before.errors|] == before.errors &&
     after.errors[|before.errors|].entityId == urn && |after.errors[|before.errors|].error| == 1)
  }

  predicate LandsIfOk(step: Step<BatchOperationResult>, before: BatchOperationResult, urn: string) {
    step.result.Ok? ==> Lands(step.result.value, before, urn)
  }

  /** Every entity id a batch result reports, as a success or as an error. */
  function Reported(r: BatchOperationResult): multiset<string> {
    multiset(r.success) + multiset(ErrorIds(r.errors))
  }

  /** The ids reported grow by the one entity. */
  lemma LandsCounted(after: BatchOperationResult, before: BatchOperationResult, urn: string)
    requires Lands(after, before, urn)
    ensures before.success <= after.success && before.errors <= after.errors
    ensures Reported(after) == Reported(before) + multiset{urn}
  {
    if after.success == before.success {
      assert after.errors == before.errors + [after.errors[|before.errors|]];
      ErrorIdsAppend(before.errors, [after.errors[|before.errors|]]);
    }
  }

  /** Each entity of a batch is created or failed, and a failed one is
      deleted, attributes and all. */
  lemma CreateBatchEntityLands(s: Store, p: Ports, e: BatchEntity, validEntities: map<string, string>, acc: BatchOperationResult)
    ensures var r := CreateBatchEntityStep(s, p, e, validEntities, acc);
      var urn := UrnText(e);
      LandsIfOk(r, acc, urn) &&
      (r.result.Ok? && r.result.value.success == acc.success ==>
         urn !in r.store.entities && urn !in r.store.locations &&
         (forall k :: k in r.store.properties ==> k.subject.entityId != urn) &&
         (forall k :: k in r.store.relationships ==> k.subject.entityId != urn))
  {
    var urn := UrnOf(e.payload);
    var entityType := p.typeOf(e.payload);
    if urn.Ok? && entityType.Ok? {
      var placed := TempEntity(s, urn.value, entityType.value, e.contexts);
      var attributes := Without(e.payload, {JSONLD_ID, JSONLD_TYPE});
      var appended := AppendEntityAttributesStep(placed, p, urn.value, attributes, false, true, validEntities);
      EntityDeletedRemovesAll(appended.store, urn.value);
      var failed := acc.(errors := acc.errors + [BatchEntityError(urn.value, [])]);
      assert failed.errors[..|acc.errors|] == acc.errors;
    }
  }

  /** Every entity of the batch is reported exactly once, as created or as
      failed, after the ones so far. */
  lemma {:induction false} CreateBatchEntitiesPartition(
      s: Store, es: seq<BatchEntity>, entity: (Store, BatchEntity, BatchOperationResult) -> Step<BatchOperationResult>,
      acc: BatchOperationResult)
    requires forall t: Store, i, a :: 0 <= i < |es| ==> LandsIfOk(entity(t, es[i], a), a, UrnText(es[i]))
    ensures var r := CreateBatchEntities(s, es, entity, acc);
      r.result.Ok? ==> (acc.success <= r.result.value.success && acc.errors <= r.result.value.errors &&
        Reported(r.result.value) == Reported(acc) + multiset(Urns(es)))
    decreases |es|
  {
    if es != [] {
      var step := entity(s, es[0], acc);
      assert LandsIfOk(step, acc, UrnText(es[0]));
      if step.result.Ok? {
        var next := step.result.value;
        LandsTail(es, entity);
        CreateBatchEntitiesPartition(step.store, es[1..], entity, next);
        LandsCounted(next, acc, UrnText(es[0]));
        UrnsCons(es);
      }
    }
  }

  lemma LandsTail(es: seq<BatchEntity>, entity: (Store, BatchEntity, BatchOperationResult) -> Step<BatchOperationResult>)
    requires es != []
    requires forall t: Store, i, a :: 0 <= i < |es| ==> LandsIfOk(entity(t, es[i], a), a, UrnText(es[i]))
    ensures forall t: Store, i, a :: 0 <= i < |es[1..]| ==> LandsIfOk(entity(t, es[1..][i], a), a, UrnText(es[1..][i]))
  {
    forall t: Store, i, a | 0 <= i < |es[1..]|
      ensures LandsIfOk(entity(t, es[1..][i], a), a, UrnText(es[1..][i]))
    {
      assert es[1..][i] == es[i + 1];
    }
  }

  lemma UrnsCons(es: seq<BatchEntity>)
    requires es != []
    ensures multiset(Urns(es)) == multiset{UrnText(es[0])} + multiset(Urns(es[1..]))
  {
    assert Urns(es) == [UrnText(es[0])] + Urns(es[1..]);
  }

  /** `createBatchOfEntities` reports every entity once. */
  lemma BatchOfEntitiesPartition(s: Store, p: Ports, es: seq<BatchEntity>, validEntities: map<string, string>)
    ensures var r := CreateBatchOfEntitiesStep(s, p, es, validEntities);
      r.result.Ok? ==> multiset(r.result.value.success) + multiset(ErrorIds(r.result.value.errors)) == multiset(Urns(es))
  {
    var entity := (t, e, acc) => CreateBatchEntityStep(t, p, e, validEntities, acc);
    forall t: Store, i, a | 0 <= i < |es|
      ensures LandsIfOk(entity(t, es[i], a), a, UrnText(es[i]))
    {
      CreateBatchEntityLands(t, p, es[i], validEntities, a);
    }
    CreateBatchEntitiesPartition(s, es, entity, BatchOperationResult([], []));
    assert Reported(BatchOperationResult([], [])) == multiset{};
  }

  /** The report of the already-existing entities. */
  function AlreadyExistsReport(existing: seq<BatchEntity>): (r: seq<BatchEntityError>)
    ensures |r| == |existing| &&
      forall i :: 0 <= i < |existing| ==> r[i] == BatchEntityError(UrnText(existing[i]), [ENTITY_ALREADY_EXISTS])
  {
    seq(|existing|, i requires 0 <= i < |existing| => BatchEntityError(UrnText(existing[i]), [ENTITY_ALREADY_EXISTS]))
  }

  lemma AlreadyExistsReportCons(existing: seq<BatchEntity>)
    requires existing != []
    ensures AlreadyExistsReport(existing) ==
      [BatchEntityError(UrnText(existing[0]), [ENTITY_ALREADY_EXISTS])] + AlreadyExistsReport(existing[1..])
  {
    assert forall i :: 0 < i < |existing| ==> existing[1..][i - 1] == existing[i];
  }

  /** Reporting the existing entities fails exactly when one of them has an
      id that is not a string. */
  lemma {:induction false} ExistingErrorsOk(existing: seq<BatchEntity>, errors: seq<BatchEntityError>)
    ensures ExistingErrors(existing, errors).Ok? <==> forall i :: 0 <= i < |existing| ==> UrnOf(existing[i].payload).Ok?
    decreases |existing|
  {
    if existing != [] {
      var urn := UrnOf(existing[0].payload);
      if urn.Ok? {
        ExistingErrorsOk(existing[1..], errors + [BatchEntityError(urn.value, [ENTITY_ALREADY_EXISTS])]);
        assert forall i :: 0 < i < |existing| ==> existing[1..][i - 1] == existing[i];
      }
    }
  }

  lemma AppendAssociates<T>(a: seq<T>, b: seq<T>, c: seq<T>)
    ensures (a + b) + c == a + (b + c)
  {
  }

  /** Every existing entity is reported as already existing, in order, after
      the errors so far. */
  lemma {:induction false} ExistingErrorsReport(existing: seq<BatchEntity>, errors: seq<BatchEntityError>)
    ensures ExistingErrors(existing, errors).Ok? ==> ExistingErrors(existing, errors).value == errors + AlreadyExistsReport(existing)
    decreases |existing|
  {
    if existing != [] {
      var urn := UrnOf(existing[0].payload);
      if urn.Ok? {
        var first := BatchEntityError(urn.value, [ENTITY_ALREADY_EXISTS]);
        ExistingErrorsReport(existing[1..], errors + [first]);
        AlreadyExistsReportCons(existing);
        AppendAssociates(errors, [first], AlreadyExistsReport(existing[1..]));
      }
    }
  }

  /** `processBatchOfEntities`: the new entities' report, then one "Entity
      already exists" per existing entity; every entity of both lists is
      reported exactly once. */
  lemma ProcessBatchReport(s: Store, p: Ports, existing: seq<BatchEntity>, newEntities: seq<BatchEntity>,
                           validEntities: map<string, string>)
    ensures var r := ProcessBatchOfEntitiesStep(s, p, existing, newEntities, validEntities);
      var created := CreateBatchOfEntitiesStep(s, p, newEntities, validEntities);
      r.result.Ok? ==> (created.result.Ok? && r.store == created.store &&
        r.result.value.success == created.result.value.success &&
        r.result.value.errors == created.result.value.errors + AlreadyExistsReport(existing) &&
        multiset(r.result.value.success) + multiset(ErrorIds(r.result.value.errors)) ==
        multiset(Urns(newEntities)) + multiset(Urns(existing)))
  {
    var created := CreateBatchOfEntitiesStep(s, p, newEntities, validEntities);
    if created.result.Ok? {
      ExistingErrorsReport(existing, created.result.value.errors);
      BatchOfEntitiesPartition(s, p, newEntities, validEntities);
      var report := AlreadyExistsReport(existing);
      ErrorIdsAppend(created.result.value.errors, report);
      assert ErrorIds(report) == Urns(existing);
      assert multiset(ErrorIds(created.result.value.errors + report)) ==
        multiset(ErrorIds(created.result.value.errors)) + multiset(Urns(existing));
    }
  }
}
