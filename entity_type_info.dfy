/** The type-information records of the search service and the lookup of an
    attribute type by its key. */
module EntityTypeInfo {
  import opened Wrappers

  datatype AttributeType = Property | Relationship | GeoProperty {
    /** The `key` each variant is declared with. */
    function Key(): string {
      match this
      case Property => "Property"
      case Relationship => "Relationship"
      case GeoProperty => "GeoProperty"
    }
  }

  /** `values()`, in declaration order. */
  const ATTRIBUTE_TYPES: seq<AttributeType> := [Property, Relationship, GeoProperty]

  /** `find { it.key == key }` over a list of variants. */
  function FindByKey(types: seq<AttributeType>, key: string): (r: Option<AttributeType>)
    ensures r.Some? ==> r.value in types && r.value.Key() == key
    ensures r.None? <==> forall t :: t in types ==> t.Key() != key
  {
    if types == [] then None
    else if types[0].Key() == key then Some(types[0])
    else FindByKey(types[1..], key)
  }

  /** `AttributeType.forKey`: the variant declared with `key`; any other key
      fails on `!!`. */
  function ForKey(key: string): (r: Result<AttributeType>)
    ensures r.Ok? <==> key in {"Property", "Relationship", "GeoProperty"}
    ensures r.Ok? ==> r.value.Key() == key
    ensures r.Err? ==> r == Err(Crash("NullPointerException"))
  {
    match FindByKey(ATTRIBUTE_TYPES, key)
    case Some(t) => Ok(t)
    case None => Err(Crash("NullPointerException"))
  }

  /** Looking a variant up by its own key gives it back. */
  lemma ForKeyOfKey(t: AttributeType)
    ensures ForKey(t.Key()) == Ok(t)
  {
    assert t in ATTRIBUTE_TYPES;
  }

  /** The keys are pairwise distinct, so the lookup is unambiguous. */
  lemma KeysDistinct(t: AttributeType, u: AttributeType)
    ensures t.Key() == u.Key() ==> t == u
  {
  }

  /** `AttributeInfo`, with its `type` defaulting to "Attribute". */
  datatype AttributeInfo = AttributeInfo(id: string, infoType: string, attributeName: string,
                                         attributeTypes: seq<AttributeType>)

  /** `EntityTypeInfo`, with its `type` defaulting to "EntityTypeInfo". */
  datatype EntityTypeInfo = EntityTypeInfo(id: string, infoType: string, typeName: string, entityCount: int,
                                           attributeDetails: seq<AttributeInfo>)

  /** The primary constructor of `AttributeInfo` called without `type`. */
  function NewAttributeInfo(id: string, attributeName: string, attributeTypes: seq<AttributeType>): (r: AttributeInfo)
    ensures r.infoType == "Attribute"
    ensures r.id == id && r.attributeName == attributeName && r.attributeTypes == attributeTypes
  {
    AttributeInfo(id, "Attribute", attributeName, attributeTypes)
  }

  /** The primary constructor of `EntityTypeInfo` called without `type`. */
  function NewEntityTypeInfo(id: string, typeName: string, entityCount: int,
                             attributeDetails: seq<AttributeInfo>): (r: EntityTypeInfo)
    ensures r.infoType == "EntityTypeInfo"
    ensures r.id == id && r.typeName == typeName && r.entityCount == entityCount && r.attributeDetails == attributeDetails
  {
    EntityTypeInfo(id, "EntityTypeInfo", typeName, entityCount, attributeDetails)
  }
}
