/** The attribute update engine of the entity service: a partial update of
    one attribute of a stored entity, instance by instance, including the
    attributes of that attribute.

    The graph store (the Neo4j, property and relationship repositories) is a
    class whose fields are maps keyed by (subject, attribute name,
    datasetId).  Creating a missing attribute of an attribute is delegated
    to the entity service, which is not part of this model: the store logs
    each such call and its boolean answer is a port. */
module EntityAttributeService {
  import opened Wrappers
  import opened Json
  import opened JsonLdUtils
  import opened UpdateResults
  import N = NgsiLdEntity

  /** The address of a stored attribute instance: the entity or attribute
      node it hangs off, its (relationship type or expanded) name and its
      datasetId. */
  datatype AttributeKey = AttributeKey(subject: string, name: string, datasetId: Option<string>)

  /** A stored Property or Relationship node: its own id (the subject of its
      attributes of attribute) and its values. */
  datatype StoredAttribute = StoredAttribute(id: string, values: Members)

  /** A call of `createAttributeRelationships` / `createAttributeProperties`. */
  datatype Creation = Creation(subject: string, attribute: N.Attribute)

  /** The state of the graph store. */
  datatype Store = Store(
    relationships: map<AttributeKey, StoredAttribute>,
    properties: map<AttributeKey, StoredAttribute>,
    targets: map<AttributeKey, string>,
    created: seq<Creation>,
    modifiedDates: seq<string>)

  /** The collaborators the engine calls and that are not part of this model. */
  datatype Ports = Ports(
    /** `toRelationshipTypeName` */
    relationshipTypeName: string -> string,
    /** `expandJsonLdKey` of the JSON-LD processor */
    expandJsonLdKey: (string, seq<string>) -> Option<string>,
    /** `Property.updateValues` / `Relationship.updateValues` */
    updateValues: (Members, Members) -> Members,
    /** the answer of `createAttributeRelationships` / `createAttributeProperties` */
    createAttribute: (string, N.Attribute) -> bool)

  /** The outcome of an operation on the store: its result and the store
      after it. After a raised exception the store is as far as the
      operation got, until the `@Transactional` operation that encloses it
      rolls it back. */
  datatype Step<T> = Step(result: Result<T>, store: Store)

  const PARTIAL_UPDATE_FAILED := "Partial update operation failed to perform the whole update"

  /** `x!!` on a string */
  function Required(o: Option<string>): Result<string> {
    if o.Some? then Ok(o.value) else Err(Crash("NullPointerException"))
  }

  /** Whether two stores agree on everything except the nodes and edges that
      hang off `subject`, and the created log may only have grown. */
  ghost predicate OnlySubjectChanged(s: Store, t: Store, subject: string) {
    t.relationships.Keys == s.relationships.Keys &&
    t.properties.Keys == s.properties.Keys &&
    t.modifiedDates == s.modifiedDates &&
    |s.created| <= |t.created| && t.created[..|s.created|] == s.created &&
    (forall k :: k in s.relationships && k.subject != subject ==> t.relationships[k] == s.relationships[k]) &&
    (forall k :: k in s.properties && k.subject != subject ==> t.properties[k] == s.properties[k]) &&
    (forall k: AttributeKey :: k.subject != subject ==> (k in t.targets <==> k in s.targets)) &&
    (forall k :: k in s.targets && k.subject != subject ==> t.targets[k] == s.targets[k])
  }

  lemma OnlySubjectChangedTrans(s: Store, t: Store, u: Store, subject: string)
    requires OnlySubjectChanged(s, t, subject) && OnlySubjectChanged(t, u, subject)
    ensures OnlySubjectChanged(s, u, subject)
  {
    assert u.created[..|s.created|] == u.created[..|t.created|][..|s.created|];
  }

  /** Every creation logged after the first `n` is an attribute of `subject`
      that is a valid Property or Relationship. */
  ghost predicate CreationsOf(created: seq<Creation>, n: nat, subject: string) {
    n <= |created| &&
    forall j :: n <= j < |created| ==>
      created[j].subject == subject && N.ValidAttribute(created[j].attribute) &&
      (created[j].attribute.kind == RELATIONSHIP || created[j].attribute.kind == PROPERTY)
  }

  lemma CreationsOfTrans(a: seq<Creation>, b: seq<Creation>, c: seq<Creation>, subject: string)
    requires CreationsOf(b, |a|, subject) && CreationsOf(c, |b|, subject) && c[..|b|] == b
    ensures CreationsOf(c, |a|, subject)
  {
    forall j | |a| <= j < |c|
      ensures c[j].subject == subject && N.ValidAttribute(c[j].attribute)
    {
      if j < |b| {
        assert c[j] == b[j];
      }
    }
  }

  // ---------------------------------------------------------------------
  // Updating one stored attribute

  /** `updateRelationshipTargetOfAttribute`: the relationship object of the
      values, when it can be extracted, becomes the target of the stored
      relationship; the answer says whether there was one to re-point. */
  function RetargetRelationship(s: Store, key: AttributeKey, values: Members): (r: (bool, Store))
    ensures ExtractRelationshipObject(key.name, values).Err? ==> r == (false, s)
    ensures r.0 <==> ExtractRelationshipObject(key.name, values).Ok? && key in s.relationships
    ensures r.0 ==> r.1.targets == s.targets[key := ExtractRelationshipObject(key.name, values).value]
    ensures !r.0 ==> r.1 == s
    ensures r.1.relationships == s.relationships && r.1.properties == s.properties
    ensures r.1.created == s.created && r.1.modifiedDates == s.modifiedDates
  {
    match ExtractRelationshipObject(key.name, values)
    case Err(_) => (false, s)
    case Ok(objectId) =>
      if key in s.relationships then (true, s.(targets := s.targets[key := objectId])) else (false, s)
  }

  /** `partialUpdateRelationshipOfAttribute`: re-point the relationship, then
      save its updated values; it always answers true. */
  function UpdateRelationshipOfAttribute(s: Store, ports: Ports, relationship: StoredAttribute,
                                         key: AttributeKey, values: Members): (r: Store)
    requires key in s.relationships
    ensures r.relationships == s.relationships[key := StoredAttribute(relationship.id, ports.updateValues(relationship.values, values))]
    ensures r.targets == RetargetRelationship(s, key, values).1.targets
    ensures OnlySubjectChanged(s, r, key.subject) && r.created == s.created
  {
    var retargeted := RetargetRelationship(s, key, values).1;
    retargeted.(relationships := retargeted.relationships[key := StoredAttribute(relationship.id, ports.updateValues(relationship.values, values))])
  }

  /** `partialUpdatePropertyOfAttribute`: save the updated values; it always
      answers true. */
  function UpdatePropertyOfAttribute(s: Store, ports: Ports, property: StoredAttribute,
                                     key: AttributeKey, values: Members): (r: Store)
    requires key in s.properties
    ensures r.properties == s.properties[key := StoredAttribute(property.id, ports.updateValues(property.values, values))]
    ensures r.relationships == s.relationships && r.targets == s.targets && r.created == s.created
    ensures OnlySubjectChanged(s, r, key.subject)
  {
    s.(properties := s.properties[key := StoredAttribute(property.id, ports.updateValues(property.values, values))])
  }

  // ---------------------------------------------------------------------
  // Attributes of an attribute

  /** How the value of an attribute of attribute is read, as written
      (`it.value.asJsonObject()`, and `listOf(it.value)` as the instances of
      a created one).  An expanded attribute value is an array of instances,
      so the cast fails on every one of them. */
  function NestedAttributeValueAsWritten(v: Json): (r: Result<(Members, seq<Json>)>)
    ensures v.JArr? ==> r == Err(Crash("ClassCastException"))
  {
    var values :- AsObject(v);
    Ok((values, [v]))
  }

  /** How the same value is evidently meant to be read: its first instance is
      the update, and its instances are those of a created attribute. */
  function NestedAttributeValue(v: Json): (r: Result<(Members, seq<Json>)>)
    ensures r.Ok? ==> v.JArr? && |v.elems| > 0 && v.elems[0] == JObj(r.value.0) && r.value.1 == v.elems
    ensures forall ms :: v == JArr([JObj(ms)]) ==> r == Ok((ms, [JObj(ms)]))
  {
    var instances :- AsArray(v);
    var first :- At(instances, 0);
    var values :- AsObject(first);
    Ok((values, instances))
  }

  /** One attribute of the attribute `subject`: an existing relationship of it
      is updated, else an existing property, else a missing one is created
      when typed Relationship or Property, and otherwise the answer is
      false. */
  function NestedStep(s: Store, ports: Ports, subject: string, m: Member, contexts: seq<string>,
                      read: Json -> Result<(Members, seq<Json>)>): (r: Step<bool>)
    ensures OnlySubjectChanged(s, r.store, subject) && CreationsOf(r.store.created, |s.created|, subject)
  {
    match read(m.value)
    case Err(e) => Step(Err(e), s)
    case Ok((values, instances)) =>
      var relationshipKey := AttributeKey(subject, ports.relationshipTypeName(m.key), None);
      if relationshipKey in s.relationships then
        Step(Ok(true), UpdateRelationshipOfAttribute(s, ports, s.relationships[relationshipKey], relationshipKey, values))
      else match Required(ports.expandJsonLdKey(m.key, contexts))
        case Err(e) => Step(Err(e), s)
        case Ok(expandedName) =>
          var propertyKey := AttributeKey(subject, expandedName, None);
          if propertyKey in s.properties then
            Step(Ok(true), UpdatePropertyOfAttribute(s, ports, s.properties[propertyKey], propertyKey, values))
          else CreateNested(s, ports, subject, m.key, expandedName, values, instances)
  }

  /** The creation branch of `NestedStep`. */
  function CreateNested(s: Store, ports: Ports, subject: string, name: string, expandedName: string,
                        values: Members, instances: seq<Json>): (r: Step<bool>)
    ensures OnlySubjectChanged(s, r.store, subject) && CreationsOf(r.store.created, |s.created|, subject)
    ensures N.IsAttributeOfType(values, RELATIONSHIP) == Ok(false) && N.IsAttributeOfType(values, PROPERTY) == Ok(false) ==>
      r == Step(Ok(false), s)
  {
    match N.IsAttributeOfType(values, RELATIONSHIP)
    case Err(e) => Step(Err(e), s)
    case Ok(true) => CreateOfKind(s, ports, subject, RELATIONSHIP, name, instances)
    case Ok(false) =>
      match N.IsAttributeOfType(values, PROPERTY)
      case Err(e) => Step(Err(e), s)
      case Ok(true) => CreateOfKind(s, ports, subject, PROPERTY, expandedName, instances)
      case Ok(false) => Step(Ok(false), s)
  }

  /** The parsed attribute is handed to the entity service, which answers
      whether it created it; the creation is logged.  A parse failure
      changes nothing. */
  function CreateOfKind(s: Store, ports: Ports, subject: string, kind: NgsiLdAttributeType, name: string,
                        instances: seq<Json>): (r: Step<bool>)
    requires kind == RELATIONSHIP || kind == PROPERTY
    ensures OnlySubjectChanged(s, r.store, subject) && CreationsOf(r.store.created, |s.created|, subject)
    ensures r.result.Ok? <==> N.ParseAttribute(kind, name, instances).Ok?
    ensures r.result.Ok? ==> r.store.created == s.created + [Creation(subject, N.ParseAttribute(kind, name, instances).value)]
  {
    match N.ParseAttribute(kind, name, instances)
    case Err(e) => Step(Err(e), s)
    case Ok(a) => Step(Ok(ports.createAttribute(subject, a)), s.(created := s.created + [Creation(subject, a)]))
  }

  /** The attributes of attribute, in order, each processed on the store the
      previous one left; the answer is whether all of them answered true,
      and the first exception stops the walk. */
  function NestedUpdates(s: Store, ports: Ports, subject: string, ms: Members, contexts: seq<string>,
                         read: Json -> Result<(Members, seq<Json>)>, all: bool): (r: Step<bool>)
    ensures OnlySubjectChanged(s, r.store, subject) && CreationsOf(r.store.created, |s.created|, subject)
    ensures r.result.Ok? && r.result.value ==> all
    decreases |ms|
  {
    if ms == [] then Step(Ok(all), s)
    else
      var step := NestedStep(s, ports, subject, ms[0], contexts, read);
      if step.result.Err? then Step(Err(step.result.error), step.store)
      else
        var rest := NestedUpdates(step.store, ports, subject, ms[1..], contexts, read, all && step.result.value);
        OnlySubjectChangedTrans(s, step.store, rest.store, subject);
        CreationsOfTrans(s.created, step.store.created, rest.store.created, subject);
        rest
  }

  /** The `map` of `partialUpdateAttributesOfAttribute`: the answer of each
      attribute of attribute, in order, each processed on the store the
      previous one left; the first exception stops the walk. */
  function NestedAnswers(s: Store, ports: Ports, subject: string, ms: Members, contexts: seq<string>,
                         read: Json -> Result<(Members, seq<Json>)>): (r: Step<seq<bool>>)
    ensures r.result.Ok? ==> |r.result.value| == |ms|
    decreases |ms|
  {
    if ms == [] then Step(Ok([]), s)
    else
      var step := NestedStep(s, ports, subject, ms[0], contexts, read);
      if step.result.Err? then Step(Err(step.result.error), step.store)
      else
        var rest := NestedAnswers(step.store, ports, subject, ms[1..], contexts, read);
        if rest.result.Err? then rest else Step(Ok([step.result.value] + rest.result.value), rest.store)
  }

  /** The walk that keeps a running conjunction is `all { it }` over the
      answers of the `map`: the same store, the same exception, and, when
      there is none, true exactly when `all` holds and every answer is true. */
  lemma {:induction false} NestedUpdatesAnswers(s: Store, ports: Ports, subject: string, ms: Members, contexts: seq<string>,
                                                read: Json -> Result<(Members, seq<Json>)>, all: bool)
    ensures var r := NestedUpdates(s, ports, subject, ms, contexts, read, all);
      var a := NestedAnswers(s, ports, subject, ms, contexts, read);
      r.store == a.store && r.result.Ok? == a.result.Ok? &&
      (r.result.Err? ==> r.result.error == a.result.error) &&
      (r.result.Ok? ==> (r.result.value <==> all && false !in a.result.value))
    decreases |ms|
  {
    if ms != [] {
      var step := NestedStep(s, ports, subject, ms[0], contexts, read);
      if step.result.Ok? {
        NestedUpdatesAnswers(step.store, ports, subject, ms[1..], contexts, read, all && step.result.value);
      }
    }
  }

  /** The members of an attribute that are attributes of attribute. */
  function NonCoreMembers(values: Members, isRelationship: bool): (r: Members)
    ensures forall m :: m in r <==> m in values && m.key !in (if isRelationship then N.NGSILD_RELATIONSHIPS_CORE_MEMBERS else N.NGSILD_PROPERTIES_CORE_MEMBERS)
  {
    Without(values, if isRelationship then N.NGSILD_RELATIONSHIPS_CORE_MEMBERS else N.NGSILD_PROPERTIES_CORE_MEMBERS)
  }

  /** `partialUpdateAttributesOfAttribute`, with a given reading of the values. */
  function AttributesOfAttributeWith(s: Store, ports: Ports, attribute: StoredAttribute, isRelationship: bool,
                                     values: Members, contexts: seq<string>,
                                     read: Json -> Result<(Members, seq<Json>)>): (r: Step<bool>)
    ensures OnlySubjectChanged(s, r.store, attribute.id) && CreationsOf(r.store.created, |s.created|, attribute.id)
  {
    NestedUpdates(s, ports, attribute.id, NonCoreMembers(values, isRelationship), contexts, read, true)
  }

  /** `partialUpdateAttributesOfAttribute` as evidently intended. */
  function AttributesOfAttribute(s: Store, ports: Ports, attribute: StoredAttribute, isRelationship: bool,
                                 values: Members, contexts: seq<string>): (r: Step<bool>)
    ensures OnlySubjectChanged(s, r.store, attribute.id) && CreationsOf(r.store.created, |s.created|, attribute.id)
    ensures NonCoreMembers(values, isRelationship) == [] ==> r == Step(Ok(true), s)
  {
    AttributesOfAttributeWith(s, ports, attribute, isRelationship, values, contexts, NestedAttributeValue)
  }

  /** `partialUpdateAttributesOfAttribute` answers `all { it }` over the
      answers of its attributes of attribute, and raises the first exception
      among them. */
  lemma AttributesOfAttributeAll(s: Store, ports: Ports, attribute: StoredAttribute, isRelationship: bool,
                                 values: Members, contexts: seq<string>)
    ensures var r := AttributesOfAttribute(s, ports, attribute, isRelationship, values, contexts);
      var a := NestedAnswers(s, ports, attribute.id, NonCoreMembers(values, isRelationship), contexts, NestedAttributeValue);
      r.store == a.store && (r.result.Err? <==> a.result.Err?) &&
      (r.result.Err? ==> r.result.error == a.result.error) &&
      (r.result.Ok? ==> (r.result.value <==> forall k :: 0 <= k < |a.result.value| ==> a.result.value[k]))
  {
    NestedUpdatesAnswers(s, ports, attribute.id, NonCoreMembers(values, isRelationship), contexts, NestedAttributeValue, true);
  }

  // ---------------------------------------------------------------------
  // Updating an attribute of the entity

  /** `partialUpdateEntityRelationship`: the relationship is updated, then its
      attributes; the outcome is UPDATED when both answered true, else
      FAILED, under the expanded relationship type. */
  function EntityRelationshipUpdate(s: Store, ports: Ports, key: AttributeKey, values: Members,
                                    contexts: seq<string>): (r: Step<UpdateAttributeResult>)
    requires key in s.relationships
    ensures r.store.modifiedDates == s.modifiedDates
  {
    var relationship := s.relationships[key];
    var updated := UpdateRelationshipOfAttribute(s, ports, relationship, key, values);
    var nested := AttributesOfAttribute(updated, ports, relationship, true, values, contexts);
    if nested.result.Err? then Step(Err(nested.result.error), nested.store)
    else match Required(ports.expandJsonLdKey(key.name, contexts))
      case Err(e) => Step(Err(e), nested.store)
      case Ok(name) =>
        if nested.result.value then Step(Ok(UpdateAttributeResult(name, key.datasetId, UPDATED, None)), nested.store)
        else Step(Ok(UpdateAttributeResult(name, key.datasetId, FAILED, Some(PARTIAL_UPDATE_FAILED))), nested.store)
  }

  /** `partialUpdateEntityProperty`: the property is updated, then its
      attributes; the outcome is UPDATED when both answered true, else
      FAILED. */
  function EntityPropertyUpdate(s: Store, ports: Ports, key: AttributeKey, values: Members,
                                contexts: seq<string>): (r: Step<UpdateAttributeResult>)
    requires key in s.properties
    ensures r.store.modifiedDates == s.modifiedDates
  {
    var property := s.properties[key];
    var updated := UpdatePropertyOfAttribute(s, ports, property, key, values);
    var nested := AttributesOfAttribute(updated, ports, property, false, values, contexts);
    if nested.result.Err? then Step(Err(nested.result.error), nested.store)
    else if nested.result.value then Step(Ok(UpdateAttributeResult(key.name, key.datasetId, UPDATED, None)), nested.store)
    else Step(Ok(UpdateAttributeResult(key.name, key.datasetId, FAILED, Some(PARTIAL_UPDATE_FAILED))), nested.store)
  }

  function DatasetIdText(datasetId: Option<string>): string {
    if datasetId.Some? then datasetId.value else "null"
  }

  /** The reason of an instance that matches no stored attribute. */
  function UnknownAttributeReason(entityId: string, name: string, datasetId: Option<string>): string {
    "Unknown attribute " + name + " with datasetId " + DatasetIdText(datasetId) + " in entity " + entityId
  }

  /** One instance of the incoming attribute: the relationship index is asked
      first, then the property index; an instance neither holds is IGNORED. */
  function InstanceUpdate(s: Store, ports: Ports, entityId: string, name: string, instance: Json,
                          contexts: seq<string>): (r: Step<UpdateAttributeResult>)
    ensures r.store.modifiedDates == s.modifiedDates
  {
    match AsObject(instance)
    case Err(e) => Step(Err(e), s)
    case Ok(values) =>
      match N.GetDatasetId(values)
      case Err(e) => Step(Err(e), s)
      case Ok(datasetId) =>
        var relationshipKey := AttributeKey(entityId, ports.relationshipTypeName(name), datasetId);
        var propertyKey := AttributeKey(entityId, name, datasetId);
        if relationshipKey in s.relationships then EntityRelationshipUpdate(s, ports, relationshipKey, values, contexts)
        else if propertyKey in s.properties then EntityPropertyUpdate(s, ports, propertyKey, values, contexts)
        else Step(Ok(UpdateAttributeResult(name, datasetId, IGNORED, Some(UnknownAttributeReason(entityId, name, datasetId)))), s)
  }

  /** The instances, in order, each on the store the previous one left;
      `done` holds the outcomes so far. */
  function InstancesUpdate(s: Store, ports: Ports, entityId: string, name: string, instances: seq<Json>,
                           contexts: seq<string>, done: seq<UpdateAttributeResult>): (r: Step<seq<UpdateAttributeResult>>)
    ensures r.store.modifiedDates == s.modifiedDates
    ensures r.result.Ok? ==> |r.result.value| == |done| + |instances| && r.result.value[..|done|] == done
    decreases |instances|
  {
    if instances == [] then Step(Ok(done), s)
    else
      var step := InstanceUpdate(s, ports, entityId, name, instances[0], contexts);
      if step.result.Err? then Step(Err(step.result.error), step.store)
      else
        var rest := InstancesUpdate(step.store, ports, entityId, name, instances[1..], contexts, done + [step.result.value]);
        assert rest.result.Ok? ==> rest.result.value[..|done|] == (done + [step.result.value])[..|done|];
        rest
  }

  function AnyFailed(results: seq<UpdateAttributeResult>): (r: bool)
    ensures r <==> exists j :: 0 <= j < |results| && results[j].updateOperationResult == FAILED
  {
    if results == [] then false
    else results[0].updateOperationResult == FAILED || AnyFailed(results[1..])
  }

  function AnySuccessful(results: seq<UpdateAttributeResult>): (r: bool)
    ensures r <==> exists j :: 0 <= j < |results| && IsSuccessful(results[j].updateOperationResult)
  {
    if results == [] then false
    else IsSuccessful(results[0].updateOperationResult) || AnySuccessful(results[1..])
  }

  /** `partialUpdateEntityAttribute`: the first attribute of the payload is
      updated instance by instance; a FAILED outcome raises an internal
      error, and the modification date of the entity is bumped once when
      some instance was updated. Being `@Transactional`, every error rolls
      the store back to `s`. */
  function PartialUpdate(s: Store, ports: Ports, entityId: string, expandedPayload: Members,
                         contexts: seq<string>): (r: Step<UpdateResult>)
  {
    if expandedPayload == [] then Step(Err(Crash("NoSuchElementException")), s)
    else match AsArray(expandedPayload[0].value)
      case Err(e) => Step(Err(e), s)
      case Ok(instances) =>
        var outcomes := InstancesUpdate(s, ports, entityId, expandedPayload[0].key, instances, contexts, []);
        if outcomes.result.Err? then Step(Err(outcomes.result.error), s)
        else if AnyFailed(outcomes.result.value) then Step(Err(InternalError(PARTIAL_UPDATE_FAILED)), s)
        else
          var store := if AnySuccessful(outcomes.result.value)
            then outcomes.store.(modifiedDates := outcomes.store.modifiedDates + [entityId])
            else outcomes.store;
          Step(Ok(FromDetailedResult(outcomes.result.value)), store)
  }

  // ---------------------------------------------------------------------
  // Properties of the engine

  /** An instance that neither index holds is IGNORED with its reason, and
      nothing is changed. */
  lemma UnknownInstanceIgnored(s: Store, ports: Ports, entityId: string, name: string, values: Members,
                               datasetId: Option<string>, contexts: seq<string>)
    requires N.GetDatasetId(values) == Ok(datasetId)
    requires AttributeKey(entityId, ports.relationshipTypeName(name), datasetId) !in s.relationships
    requires AttributeKey(entityId, name, datasetId) !in s.properties
    ensures InstanceUpdate(s, ports, entityId, name, JObj(values), contexts) ==
      Step(Ok(UpdateAttributeResult(name, datasetId, IGNORED, Some(UnknownAttributeReason(entityId, name, datasetId)))), s)
  {
  }

  /** The relationship index is consulted first: an instance both indexes
      hold is updated as a relationship. */
  lemma RelationshipIndexFirst(s: Store, ports: Ports, entityId: string, name: string, values: Members,
                               datasetId: Option<string>, contexts: seq<string>)
    requires N.GetDatasetId(values) == Ok(datasetId)
    requires AttributeKey(entityId, ports.relationshipTypeName(name), datasetId) in s.relationships
    ensures InstanceUpdate(s, ports, entityId, name, JObj(values), contexts) ==
      EntityRelationshipUpdate(s, ports, AttributeKey(entityId, ports.relationshipTypeName(name), datasetId), values, contexts)
  {
  }

  /** An entity-level relationship update is UPDATED exactly when the
      relationship's own update (which always answers true) and the update of
      its attributes both answered true, and FAILED otherwise. */
  lemma EntityRelationshipOutcome(s: Store, ports: Ports, key: AttributeKey, values: Members, contexts: seq<string>)
    requires key in s.relationships
    requires EntityRelationshipUpdate(s, ports, key, values, contexts).result.Ok?
    ensures var r := EntityRelationshipUpdate(s, ports, key, values, contexts).result.value;
      var nested := AttributesOfAttribute(UpdateRelationshipOfAttribute(s, ports, s.relationships[key], key, values),
                                          ports, s.relationships[key], true, values, contexts);
      r.datasetId == key.datasetId && Some(r.attributeName) == ports.expandJsonLdKey(key.name, contexts) &&
      (r.updateOperationResult == UPDATED <==> nested.result == Ok(true)) &&
      (r.updateOperationResult != UPDATED ==> r.updateOperationResult == FAILED && r.errorMessage == Some(PARTIAL_UPDATE_FAILED))
  {
    var relationship := s.relationships[key];
    var nested := AttributesOfAttribute(UpdateRelationshipOfAttribute(s, ports, relationship, key, values),
                                        ports, relationship, true, values, contexts);
    assert nested.result.Ok?;
    assert ports.expandJsonLdKey(key.name, contexts).Some?;
  }

  /** The same for an entity-level property update. */
  lemma EntityPropertyOutcome(s: Store, ports: Ports, key: AttributeKey, values: Members, contexts: seq<string>)
    requires key in s.properties
    requires EntityPropertyUpdate(s, ports, key, values, contexts).result.Ok?
    ensures var r := EntityPropertyUpdate(s, ports, key, values, contexts).result.value;
      var nested := AttributesOfAttribute(UpdatePropertyOfAttribute(s, ports, s.properties[key], key, values),
                                          ports, s.properties[key], false, values, contexts);
      r.attributeName == key.name && r.datasetId == key.datasetId &&
      (r.updateOperationResult == UPDATED <==> nested.result == Ok(true)) &&
      (r.updateOperationResult != UPDATED ==> r.updateOperationResult == FAILED && r.errorMessage == Some(PARTIAL_UPDATE_FAILED))
  {
  }

  /** Only the first entry of the payload is looked at. */
  lemma PartialUpdateFirstEntryOnly(s: Store, ports: Ports, entityId: string, expandedPayload: Members, contexts: seq<string>)
    requires expandedPayload != []
    ensures PartialUpdate(s, ports, entityId, expandedPayload, contexts) == PartialUpdate(s, ports, entityId, expandedPayload[..1], contexts)
  {
  }

  /** A FAILED outcome raises the internal error before the modification
      date is touched; otherwise the date is bumped exactly once when some
      instance was updated and left alone when none was, and every instance
      is reported once, as updated or as not updated. */
  lemma PartialUpdateOutcome(s: Store, ports: Ports, entityId: string, expandedPayload: Members, contexts: seq<string>)
    requires expandedPayload != [] && expandedPayload[0].value.JArr?
    ensures var instances := expandedPayload[0].value.elems;
      var outcomes := InstancesUpdate(s, ports, entityId, expandedPayload[0].key, instances, contexts, []);
      var r := PartialUpdate(s, ports, entityId, expandedPayload, contexts);
      (outcomes.result.Ok? && AnyFailed(outcomes.result.value) ==>
         r.result == Err(InternalError(PARTIAL_UPDATE_FAILED))) &&
      (r.result.Ok? ==>
         |r.result.value.updated| + |r.result.value.notUpdated| == |instances| &&
         r.store.modifiedDates == s.modifiedDates + (if r.result.value.updated != [] then [entityId] else [])) &&
      (r.result.Err? ==> r.store == s)
  {
    var instances := expandedPayload[0].value.elems;
    var outcomes := InstancesUpdate(s, ports, entityId, expandedPayload[0].key, instances, contexts, []);
    if outcomes.result.Ok? && !AnyFailed(outcomes.result.value) {
      var results := outcomes.result.value;
      assert AnySuccessful(results) <==> FromDetailedResult(results).updated != [] by {
        FromDetailedResultMembers(results);
        if AnySuccessful(results) {
          var j :| 0 <= j < |results| && IsSuccessful(results[j].updateOperationResult);
          assert results[j] in results;
        }
      }
    }
  }

  /** As written, an attribute of attribute whose value is an expanded
      (array) value stops the whole update with a failed cast. */
  lemma NestedAttributeCastAsWritten(s: Store, ports: Ports, attribute: StoredAttribute, isRelationship: bool,
                                     values: Members, contexts: seq<string>)
    requires NonCoreMembers(values, isRelationship) != [] && NonCoreMembers(values, isRelationship)[0].value.JArr?
    ensures AttributesOfAttributeWith(s, ports, attribute, isRelationship, values, contexts, NestedAttributeValueAsWritten) ==
      Step(Err(Crash("ClassCastException")), s)
  {
  }

  /** Read as intended, the same expanded value updates an existing property
      of the attribute with its instance. */
  lemma NestedPropertyUpdated(s: Store, ports: Ports, subject: string, name: string, instance: Members, contexts: seq<string>,
                              expandedName: string)
    requires AttributeKey(subject, ports.relationshipTypeName(name), None) !in s.relationships
    requires ports.expandJsonLdKey(name, contexts) == Some(expandedName)
    requires AttributeKey(subject, expandedName, None) in s.properties
    ensures var key := AttributeKey(subject, expandedName, None);
      NestedStep(s, ports, subject, Member(name, JArr([JObj(instance)])), contexts, NestedAttributeValue) ==
      Step(Ok(true), s.(properties := s.properties[key := StoredAttribute(s.properties[key].id, ports.updateValues(s.properties[key].values, instance))]))
  {
    assert NestedAttributeValue(JArr([JObj(instance)])) == Ok((instance, [JObj(instance)]));
  }

  /** Read as intended, an attribute of attribute naming an existing
      relationship of the attribute merges its values into that relationship
      and re-points it to the new object, and the answer is true. */
  lemma NestedRelationshipUpdated(s: Store, ports: Ports, subject: string, m: Member, contexts: seq<string>,
                                  values: Members, instances: seq<Json>)
    requires NestedAttributeValue(m.value) == Ok((values, instances))
    requires AttributeKey(subject, ports.relationshipTypeName(m.key), None) in s.relationships
    ensures var key := AttributeKey(subject, ports.relationshipTypeName(m.key), None);
      var r := NestedStep(s, ports, subject, m, contexts, NestedAttributeValue);
      r.result == Ok(true) &&
      r.store.relationships == s.relationships[key := StoredAttribute(s.relationships[key].id, ports.updateValues(s.relationships[key].values, values))] &&
      r.store.targets == (if ExtractRelationshipObject(key.name, values).Ok?
                          then s.targets[key := ExtractRelationshipObject(key.name, values).value] else s.targets) &&
      r.store.properties == s.properties && r.store.created == s.created
  {
  }

  /** A concrete update that fails as written and succeeds as intended: a
      relationship whose attribute of attribute is an existing property. */
  lemma NestedAttributeExample(ports: Ports)
    requires ports.relationshipTypeName("https://example.org/speed") == "speed"
    requires ports.expandJsonLdKey("https://example.org/speed", []) == Some("https://example.org/speed")
    ensures var values := [Member("https://example.org/speed", JArr([JObj([])]))];
      var relationship := StoredAttribute("urn:ngsi-ld:Relationship:1", values);
      var s := Store(map[], map[AttributeKey("urn:ngsi-ld:Relationship:1", "https://example.org/speed", None) := StoredAttribute("urn:ngsi-ld:Property:2", [])],
                     map[], [], []);
      AttributesOfAttributeWith(s, ports, relationship, true, values, [], NestedAttributeValueAsWritten).result == Err(Crash("ClassCastException")) &&
      AttributesOfAttribute(s, ports, relationship, true, values, []).result == Ok(true)
  {
    var values := [Member("https://example.org/speed", JArr([JObj([])]))];
    var relationship := StoredAttribute("urn:ngsi-ld:Relationship:1", values);
    var s := Store(map[], map[AttributeKey("urn:ngsi-ld:Relationship:1", "https://example.org/speed", None) := StoredAttribute("urn:ngsi-ld:Property:2", [])],
                   map[], [], []);
    assert "https://example.org/speed" !in N.NGSILD_RELATIONSHIPS_CORE_MEMBERS;
    assert NonCoreMembers(values, true) == values;
    NestedPropertyUpdated(s, ports, "urn:ngsi-ld:Relationship:1", "https://example.org/speed", [], [], "https://example.org/speed");
  }

  // ---------------------------------------------------------------------
  // The store and the service operations on it

  /** The graph store as the repositories hold it, with the operations of
      the attribute update engine. */
  class EntityGraph {
    var relationships: map<AttributeKey, StoredAttribute>
    var properties: map<AttributeKey, StoredAttribute>
    var targets: map<AttributeKey, string>
    var created: seq<Creation>
    var modifiedDates: seq<string>

    function State(): Store
      reads this
    {
      Store(relationships, properties, targets, created, modifiedDates)
    }

    constructor (initial: Store)
      ensures State() == initial
    {
      relationships := initial.relationships;
      properties := initial.properties;
      targets := initial.targets;
      created := initial.created;
      modifiedDates := initial.modifiedDates;
    }

    /** `updateRelationshipTargetOfAttribute` */
    method UpdateRelationshipTargetOfAttribute(key: AttributeKey, values: Members) returns (updated: bool)
      modifies this
      ensures (updated, State()) == RetargetRelationship(old(State()), key, values)
    {
      var objectId := ExtractRelationshipObject(key.name, values);
      if objectId.Err? || key !in relationships {
        return false;
      }
      targets := targets[key := objectId.value];
      return true;
    }

    /** `partialUpdateRelationshipOfAttribute` */
    method PartialUpdateRelationshipOfAttribute(ports: Ports, relationship: StoredAttribute, key: AttributeKey,
                                                values: Members) returns (done: bool)
      requires key in relationships
      modifies this
      ensures done && State() == UpdateRelationshipOfAttribute(old(State()), ports, relationship, key, values)
    {
      var _ := UpdateRelationshipTargetOfAttribute(key, values);
      relationships := relationships[key := StoredAttribute(relationship.id, ports.updateValues(relationship.values, values))];
      return true;
    }

    /** `partialUpdatePropertyOfAttribute` */
    method PartialUpdatePropertyOfAttribute(ports: Ports, property: StoredAttribute, key: AttributeKey,
                                            values: Members) returns (done: bool)
      requires key in properties
      modifies this
      ensures done && State() == UpdatePropertyOfAttribute(old(State()), ports, property, key, values)
    {
      properties := properties[key := StoredAttribute(property.id, ports.updateValues(property.values, values))];
      return true;
    }

    /** One attribute of attribute, read as intended. */
    method UpdateAttributeOfAttribute(ports: Ports, subject: string, m: Member, contexts: seq<string>)
      returns (r: Result<bool>)
      modifies this
      ensures Step(r, State()) == NestedStep(old(State()), ports, subject, m, contexts, NestedAttributeValue)
    {
      var read := NestedAttributeValue(m.value);
      if read.Err? {
        return Err(read.error);
      }
      var (values, instances) := read.value;
      var relationshipKey := AttributeKey(subject, ports.relationshipTypeName(m.key), None);
      if relationshipKey in relationships {
        var done := PartialUpdateRelationshipOfAttribute(ports, relationships[relationshipKey], relationshipKey, values);
        return Ok(done);
      }
      var expandedName := Required(ports.expandJsonLdKey(m.key, contexts));
      if expandedName.Err? {
        return Err(expandedName.error);
      }
      var propertyKey := AttributeKey(subject, expandedName.value, None);
      if propertyKey in properties {
        var done := PartialUpdatePropertyOfAttribute(ports, properties[propertyKey], propertyKey, values);
        return Ok(done);
      }
      r := CreateAttributeOfAttribute(ports, subject, m.key, expandedName.value, values, instances);
    }

    /** The creation branch: `createAttributeRelationships` or
        `createAttributeProperties` on a freshly built attribute. */
    method CreateAttributeOfAttribute(ports: Ports, subject: string, name: string, expandedName: string,
                                      values: Members, instances: seq<Json>) returns (r: Result<bool>)
      modifies this
      ensures Step(r, State()) == CreateNested(old(State()), ports, subject, name, expandedName, values, instances)
    {
      var isRelationship := N.IsAttributeOfType(values, RELATIONSHIP);
      if isRelationship.Err? {
        return Err(isRelationship.error);
      }
      var kind, attributeName := RELATIONSHIP, name;
      if !isRelationship.value {
        var isProperty := N.IsAttributeOfType(values, PROPERTY);
        if isProperty.Err? {
          return Err(isProperty.error);
        }
        if !isProperty.value {
          return Ok(false);
        }
        kind, attributeName := PROPERTY, expandedName;
      }
      var attribute := N.ParseAttribute(kind, attributeName, instances);
      if attribute.Err? {
        return Err(attribute.error);
      }
      created := created + [Creation(subject, attribute.value)];
      return Ok(ports.createAttribute(subject, attribute.value));
    }

    /** `partialUpdateAttributesOfAttribute` */
    method PartialUpdateAttributesOfAttribute(ports: Ports, attribute: StoredAttribute, isRelationship: bool,
                                              values: Members, contexts: seq<string>) returns (r: Result<bool>)
      modifies this
      ensures Step(r, State()) == AttributesOfAttribute(old(State()), ports, attribute, isRelationship, values, contexts)
    {
      var ms := NonCoreMembers(values, isRelationship);
      var all := true;
      var i := 0;
      while i < |ms|
        invariant 0 <= i <= |ms|
        invariant NestedUpdates(State(), ports, attribute.id, ms[i..], contexts, NestedAttributeValue, all) ==
          AttributesOfAttribute(old(State()), ports, attribute, isRelationship, values, contexts)
      {
        assert ms[i..][1..] == ms[i + 1..];
        var step := UpdateAttributeOfAttribute(ports, attribute.id, ms[i], contexts);
        if step.Err? {
          return Err(step.error);
        }
        all := all && step.value;
        i := i + 1;
      }
      return Ok(all);
    }

    /** `partialUpdateEntityRelationship` */
    method PartialUpdateEntityRelationship(ports: Ports, key: AttributeKey, values: Members, contexts: seq<string>)
      returns (r: Result<UpdateAttributeResult>)
      requires key in relationships
      modifies this
      ensures Step(r, State()) == EntityRelationshipUpdate(old(State()), ports, key, values, contexts)
    {
      var relationship := relationships[key];
      var relationshipUpdates := PartialUpdateRelationshipOfAttribute(ports, relationship, key, values);
      var attributesUpdates := PartialUpdateAttributesOfAttribute(ports, relationship, true, values, contexts);
      if attributesUpdates.Err? {
        return Err(attributesUpdates.error);
      }
      var name := Required(ports.expandJsonLdKey(key.name, contexts));
      if name.Err? {
        return Err(name.error);
      }
      if relationshipUpdates && attributesUpdates.value {
        return Ok(UpdateAttributeResult(name.value, key.datasetId, UPDATED, None));
      }
      return Ok(UpdateAttributeResult(name.value, key.datasetId, FAILED, Some(PARTIAL_UPDATE_FAILED)));
    }

    /** `partialUpdateEntityProperty` */
    method PartialUpdateEntityProperty(ports: Ports, key: AttributeKey, values: Members, contexts: seq<string>)
      returns (r: Result<UpdateAttributeResult>)
      requires key in properties
      modifies this
      ensures Step(r, State()) == EntityPropertyUpdate(old(State()), ports, key, values, contexts)
    {
      var property := properties[key];
      var propertyUpdates := PartialUpdatePropertyOfAttribute(ports, property, key, values);
      var attributesUpdates := PartialUpdateAttributesOfAttribute(ports, property, false, values, contexts);
      if attributesUpdates.Err? {
        return Err(attributesUpdates.error);
      }
      if propertyUpdates && attributesUpdates.value {
        return Ok(UpdateAttributeResult(key.name, key.datasetId, UPDATED, None));
      }
      return Ok(UpdateAttributeResult(key.name, key.datasetId, FAILED, Some(PARTIAL_UPDATE_FAILED)));
    }

    /** One instance of the incoming attribute. */
    method UpdateInstance(ports: Ports, entityId: string, name: string, instance: Json, contexts: seq<string>)
      returns (r: Result<UpdateAttributeResult>)
      modifies this
      ensures Step(r, State()) == InstanceUpdate(old(State()), ports, entityId, name, instance, contexts)
    {
      var values := AsObject(instance);
      if values.Err? {
        return Err(values.error);
      }
      var datasetId := N.GetDatasetId(values.value);
      if datasetId.Err? {
        return Err(datasetId.error);
      }
      var relationshipKey := AttributeKey(entityId, ports.relationshipTypeName(name), datasetId.value);
      var propertyKey := AttributeKey(entityId, name, datasetId.value);
      if relationshipKey in relationships {
        r := PartialUpdateEntityRelationship(ports, relationshipKey, values.value, contexts);
      } else if propertyKey in properties {
        r := PartialUpdateEntityProperty(ports, propertyKey, values.value, contexts);
      } else {
        r := Ok(UpdateAttributeResult(name, datasetId.value, IGNORED, Some(UnknownAttributeReason(entityId, name, datasetId.value))));
      }
    }

    /** The rollback of a failed transaction. */
    method Restore(saved: Store)
      modifies this
      ensures State() == saved
    {
      relationships := saved.relationships;
      properties := saved.properties;
      targets := saved.targets;
      created := saved.created;
      modifiedDates := saved.modifiedDates;
    }

    /** `partialUpdateEntityAttribute`, a `@Transactional` operation: any
        exception it raises restores the graph it started from. */
    method PartialUpdateEntityAttribute(ports: Ports, entityId: string, expandedPayload: Members, contexts: seq<string>)
      returns (r: Result<UpdateResult>)
      modifies this
      ensures Step(r, State()) == PartialUpdate(old(State()), ports, entityId, expandedPayload, contexts)
    {
      if expandedPayload == [] {
        return Err(Crash("NoSuchElementException"));
      }
      var saved := State();
      var name := expandedPayload[0].key;
      var instances := AsArray(expandedPayload[0].value);
      if instances.Err? {
        return Err(instances.error);
      }
      var results: seq<UpdateAttributeResult> := [];
      var i := 0;
      while i < |instances.value|
        invariant 0 <= i <= |instances.value|
        invariant InstancesUpdate(State(), ports, entityId, name, instances.value[i..], contexts, results) ==
          InstancesUpdate(old(State()), ports, entityId, name, instances.value, contexts, [])
      {
        assert instances.value[i..][1..] == instances.value[i + 1..];
        var outcome := UpdateInstance(ports, entityId, name, instances.value[i], contexts);
        if outcome.Err? {
          Restore(saved);
          return Err(outcome.error);
        }
        results := results + [outcome.value];
        i := i + 1;
      }
      if AnyFailed(results) {
        Restore(saved);
        return Err(InternalError(PARTIAL_UPDATE_FAILED));
      }
      if AnySuccessful(results) {
        modifiedDates := modifiedDates + [entityId];
      }
      return Ok(FromDetailedResult(results));
    }
  }
}
