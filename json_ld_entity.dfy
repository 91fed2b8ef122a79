/** An entity in expanded JSON-LD form together with the contexts it came
    with, and the read-side helpers on its compacted form. */
module JsonLdEntity {
  import opened Wrappers
  import opened Json
  import opened JsonLdUtils

  datatype JsonLdEntity = JsonLdEntity(properties: Members, contexts: seq<string>)

  /** `containsAnyOf`: no requested attribute, or one of them is a key of the entity. */
  function ContainsAnyOf(entity: JsonLdEntity, expandedAttributes: set<string>): (r: bool)
    ensures r <==> expandedAttributes == {} || exists k :: k in expandedAttributes && HasKey(entity.properties, k)
  {
    assert forall i :: 0 <= i < |entity.properties| ==> Keys(entity.properties)[i] == entity.properties[i].key;
    expandedAttributes == {} || exists i :: 0 <= i < |entity.properties| && entity.properties[i].key in expandedAttributes
  }

  /** `id`: the @id member, a string. */
  function Id(entity: JsonLdEntity): (r: Result<string>)
    ensures r.Ok? <==> exists s :: Get(entity.properties, JSONLD_ID) == Some(JStr(s))
    ensures r.Ok? ==> Get(entity.properties, JSONLD_ID) == Some(JStr(r.value))
  {
    GetString(entity.properties, JSONLD_ID)
  }

  /** `type`: the first entry of the @type array, a string. */
  function Type(entity: JsonLdEntity): (r: Result<string>)
    ensures r.Ok? <==> exists types: seq<Json> :: Get(entity.properties, JSONLD_TYPE) == Some(JArr(types)) && |types| > 0 && types[0].JStr?
    ensures r.Ok? ==> exists types :: Get(entity.properties, JSONLD_TYPE) == Some(JArr(types)) && types[0] == JStr(r.value)
  {
    var types :- Present(Get(entity.properties, JSONLD_TYPE));
    var list :- AsArray(types);
    var first :- At(list, 0);
    AsString(first)
  }

  /** `getType` of a compacted entity: its "type" member, a string. */
  function GetType(compacted: Members): (r: Result<string>)
    ensures r.Ok? <==> exists s :: Get(compacted, "type") == Some(JStr(s))
    ensures r.Ok? ==> Get(compacted, "type") == Some(JStr(r.value))
  {
    GetString(compacted, "type")
  }

  /** `simplifyValue`: a Property or GeoProperty becomes its "value", a
      Relationship its "object" (each falls back to the attribute itself);
      any other attribute type is refused. */
  function SimplifyValue(attribute: Members): (r: Result<Json>)
    ensures r.Ok? ==> TypeOfAttribute(attribute).Ok? && TypeOfAttribute(attribute).value.Some?
    ensures TypeOfAttribute(attribute) == Ok(None) ==> r == Err(BadRequestData("Unknown type for attribute"))
    ensures TypeOfAttribute(attribute) == Ok(Some(PROPERTY)) || TypeOfAttribute(attribute) == Ok(Some(GEOPROPERTY)) ==>
      r == Ok(Get(attribute, "value").GetOr(JObj(attribute)))
    ensures TypeOfAttribute(attribute) == Ok(Some(RELATIONSHIP)) ==>
      r == Ok(Get(attribute, "object").GetOr(JObj(attribute)))
  {
    var t :- TypeOfAttribute(attribute);
    match t
    case Some(PROPERTY) => Ok(Get(attribute, "value").GetOr(JObj(attribute)))
    case Some(GEOPROPERTY) => Ok(Get(attribute, "value").GetOr(JObj(attribute)))
    case Some(RELATIONSHIP) => Ok(Get(attribute, "object").GetOr(JObj(attribute)))
    case None => Err(BadRequestData("Unknown type for attribute"))
  }

  /** `simplifyRepresentation`: attributes (JSON objects) are simplified, id,
      type and @context are kept. */
  function SimplifyRepresentation(value: Json): Result<Json> {
    if value.JObj? then SimplifyValue(value.members) else Ok(value)
  }

  /** `toKeyValues`: the key-values view of a compacted entity keeps every key
      in place and simplifies each value; the first value that cannot be
      simplified is the error. */
  function ToKeyValues(compacted: Members): (r: Result<Members>)
    ensures r.Ok? <==> forall i :: 0 <= i < |compacted| ==> SimplifyRepresentation(compacted[i].value).Ok?
    ensures r.Ok? ==> Keys(r.value) == Keys(compacted)
    ensures r.Ok? ==> forall i :: 0 <= i < |compacted| ==> Ok(r.value[i].value) == SimplifyRepresentation(compacted[i].value)
  {
    if compacted == [] then Ok([])
    else
      TailIndex(compacted);
      var head :- SimplifyRepresentation(compacted[0].value);
      var rest :- ToKeyValues(compacted[1..]);
      assert Keys([Member(compacted[0].key, head)] + rest) == [compacted[0].key] + Keys(rest);
      assert Keys(compacted) == [compacted[0].key] + Keys(compacted[1..]);
      Ok([Member(compacted[0].key, head)] + rest)
  }

  /** The error of `toKeyValues` is that of the first value that cannot be
      simplified. */
  lemma {:induction false} ToKeyValuesFirstError(compacted: Members)
    requires ToKeyValues(compacted).Err?
    ensures exists i :: (0 <= i < |compacted| && SimplifyRepresentation(compacted[i].value) == Err(ToKeyValues(compacted).error) &&
      forall j :: 0 <= j < i ==> SimplifyRepresentation(compacted[j].value).Ok?)
  {
    var tail := compacted[1..];
    if SimplifyRepresentation(compacted[0].value).Ok? {
      ToKeyValuesFirstError(tail);
      var i :| 0 <= i < |tail| && SimplifyRepresentation(tail[i].value) == Err(ToKeyValues(tail).error) &&
        forall j :: 0 <= j < i ==> SimplifyRepresentation(tail[j].value).Ok?;
      assert compacted[i + 1] == tail[i];
      assert forall j :: 1 <= j < i + 1 ==> compacted[j] == tail[j - 1];
    }
  }

  // ---------------------------------------------------------------------
  // extractAttributeInstance

  /** How `it["datasetId"] as String?` reads an instance of a compacted
      multi-instance attribute, as the code is written: the instance is cast
      to a map, a missing datasetId reads as null, and a present one (a
      JsonString, which is not a Kotlin String, or JSON's null, which is not
      Kotlin's) fails the cast. */
  function DatasetIdAsWritten(instance: Json): Result<Option<string>> {
    if !instance.JObj? then Err(Crash("ClassCastException"))
    else match Get(instance.members, "datasetId")
      case None => Ok(None)
      case Some(_) => Err(Crash("ClassCastException"))
  }

  /** How the same read is evidently intended: the string content of the
      instance's datasetId. */
  function DatasetIdOf(instance: Json): Result<Option<string>> {
    if !instance.JObj? then Err(Crash("ClassCastException"))
    else match Get(instance.members, "datasetId")
      case None => Ok(None)
      case Some(JNull) => Ok(None)
      case Some(JStr(s)) => Ok(Some(s))
      case Some(_) => Err(Crash("ClassCastException"))
  }

  /** `first { ... }` over the instances with the given reading of datasetId. */
  function FirstWithDatasetId(instances: seq<Json>, datasetId: Option<string>,
                              read: Json -> Result<Option<string>>): (r: Result<Members>)
    ensures r.Ok? ==> exists i :: (0 <= i < |instances| && instances[i] == JObj(r.value) &&
      read(instances[i]) == Ok(datasetId) &&
      forall j :: 0 <= j < i ==> read(instances[j]).Ok? && read(instances[j]).value != datasetId)
    ensures (forall i :: 0 <= i < |instances| ==> read(instances[i]).Ok? && read(instances[i]).value != datasetId) ==>
      r == Err(Crash("NoSuchElementException"))
  {
    if instances == [] then Err(Crash("NoSuchElementException"))
    else
      TailIndex(instances);
      var d :- read(instances[0]);
      if d == datasetId then
        // the instance was already cast to a map by `read`
        if instances[0].JObj? then Ok(instances[0].members) else Err(Crash("ClassCastException"))
      else FirstWithDatasetId(instances[1..], datasetId, read)
  }

  /** `first { ... }` finds an instance that is there: the first instance
      read with `datasetId`, after instances all read with another one, is
      the one returned. */
  lemma {:induction false} FirstWithDatasetIdFound(instances: seq<Json>, datasetId: Option<string>,
                                                    read: Json -> Result<Option<string>>, i: nat)
    requires i < |instances| && instances[i].JObj? && read(instances[i]) == Ok(datasetId)
    requires forall j :: 0 <= j < i ==> read(instances[j]).Ok? && read(instances[j]).value != datasetId
    ensures FirstWithDatasetId(instances, datasetId, read) == Ok(instances[i].members)
    decreases i
  {
    if i > 0 {
      TailIndex(instances);
      FirstWithDatasetIdFound(instances[1..], datasetId, read, i - 1);
    }
  }

  function ExtractAttributeInstanceWith(compacted: Members, compactedAttributeName: string, datasetId: Option<string>,
                                        read: Json -> Result<Option<string>>): Result<Members> {
    match Get(compacted, compactedAttributeName)
    case Some(JArr(instances)) => FirstWithDatasetId(instances, datasetId, read)
    case Some(JObj(ms)) => Ok(ms)
    case Some(_) => Err(Crash("ClassCastException"))
    case None =>
      match Get(compacted, ShortType(compactedAttributeName))
      case Some(JObj(ms)) => Ok(ms)
      case Some(_) => Err(Crash("ClassCastException"))
      case None => Err(Crash("NullPointerException"))
  }

  /** `extractAttributeInstance` as written. */
  function ExtractAttributeInstanceAsWritten(compacted: Members, compactedAttributeName: string, datasetId: Option<string>): Result<Members> {
    ExtractAttributeInstanceWith(compacted, compactedAttributeName, datasetId, DatasetIdAsWritten)
  }

  /** `extractAttributeInstance` with the datasetId read as intended: a
      multi-instance attribute gives its first instance of `datasetId`, a
      single-instance attribute gives itself, and a missing name is retried
      on its short form. */
  function ExtractAttributeInstance(compacted: Members, compactedAttributeName: string, datasetId: Option<string>): (r: Result<Members>)
    ensures forall ms :: Get(compacted, compactedAttributeName) == Some(JObj(ms)) ==> r == Ok(ms)
    ensures forall instances :: Get(compacted, compactedAttributeName) == Some(JArr(instances)) ==>
      r == FirstWithDatasetId(instances, datasetId, DatasetIdOf)
    ensures forall instances :: Get(compacted, compactedAttributeName) == Some(JArr(instances)) ==>
      (r.Ok? ==> exists i :: 0 <= i < |instances| && instances[i] == JObj(r.value) && DatasetIdOf(instances[i]) == Ok(datasetId))
    ensures !HasKey(compacted, compactedAttributeName) ==>
      r == match Get(compacted, ShortType(compactedAttributeName))
           case Some(JObj(ms)) => Ok(ms)
           case Some(_) => Err(Crash("ClassCastException"))
           case None => Err(Crash("NullPointerException"))
  {
    ExtractAttributeInstanceWith(compacted, compactedAttributeName, datasetId, DatasetIdOf)
  }

  /** Instances whose first one carries the datasetId asked for: the search
      fails as written and gives that instance as intended. */
  lemma FirstInstanceDatasetIdCast(instances: seq<Json>, instance: Members, d: string)
    requires |instances| > 0 && instances[0] == JObj(instance)
    requires Get(instance, "datasetId") == Some(JStr(d))
    ensures FirstWithDatasetId(instances, Some(d), DatasetIdAsWritten) == Err(Crash("ClassCastException"))
    ensures FirstWithDatasetId(instances, Some(d), DatasetIdOf) == Ok(instance)
  {
    assert DatasetIdAsWritten(instances[0]) == Err(Crash("ClassCastException"));
    assert DatasetIdOf(instances[0]) == Ok(Some(d));
  }

  /** The discrepancy: asking for the instance of a datasetId that the
      attribute does hold fails as written and succeeds as intended. */
  lemma ExtractAttributeInstanceDatasetIdCast()
    ensures var instance := [Member("type", JStr("Property")), Member("value", JNum("1")), Member("datasetId", JStr("urn:ngsi-ld:Dataset:1"))];
      var compacted := [Member("speed", JArr([JObj(instance)]))];
      ExtractAttributeInstanceAsWritten(compacted, "speed", Some("urn:ngsi-ld:Dataset:1")) == Err(Crash("ClassCastException")) &&
      ExtractAttributeInstance(compacted, "speed", Some("urn:ngsi-ld:Dataset:1")) == Ok(instance)
  {
    var instance := [Member("type", JStr("Property")), Member("value", JNum("1")), Member("datasetId", JStr("urn:ngsi-ld:Dataset:1"))];
    var compacted := [Member("speed", JArr([JObj(instance)]))];
    assert Get(instance, "datasetId") == Some(JStr("urn:ngsi-ld:Dataset:1"));
    assert Get(compacted, "speed") == Some(JArr([JObj(instance)]));
    FirstInstanceDatasetIdCast([JObj(instance)], instance, "urn:ngsi-ld:Dataset:1");
  }
}
