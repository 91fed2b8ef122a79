# A Dafny model of the Stellio NGSI-LD context broker core

Stellio is an NGSI-LD context broker (ETSI GS CIM 009). Clients send entities in JSON-LD. An entity is a set of Properties, Relationships and GeoProperties, and each attribute has one or more instances told apart by their datasetId. The broker validates these entities, stores them in a graph, updates them attribute by attribute, publishes one event per change and serves temporal views of them. This project models the logic of that core in Dafny 4.11 and proves what the code promises about it.

Modules, one per source file:

- `Wrappers` (`wrappers.dfy`): `Option`, `Result` and the broker's error kinds. A JVM runtime failure of the Kotlin code (a failed cast, `!!` on null, an index out of range, `first` on an empty list) is the error `Crash(name)`, so every function stays total without shape preconditions.
- `Json` (`json.dfy`): JSON values. Objects are member lists kept in insertion order, as the LinkedHashMap behind a parsed object does. Numbers are kept as their literal text.
- `JsonLdUtils` (`json_ld_utils.dfy`): NGSI-LD terms, the short name of an expanded term, reading property values, the Relationship object chain, instance lookup by datasetId, attribute filtering, the @context list a compaction uses, and the in-place reshaping of compacted Polygons (class `CompactedEntityMap`).
- `JsonLdEntity` (`json_ld_entity.dfy`): an expanded entity with its contexts, `containsAnyOf`, id and type, the keyValues simplification and `extractAttributeInstance`.
- `NgsiLdEntity` (`ngsild_entity.dfy`): the validated entity, how it is built from an expanded entity with every construction check, coordinate extraction and the linked entity ids.
- `EntityTypeInfo` (`entity_type_info.dfy`): the attribute-type enum lookup and the default type fields.
- `UpdateResults` (`update_results.dfy`): the outcome records of attribute updates.
- `EntityAttributeService` (`entity_attribute_service.dfy`): the partial update of one attribute. The graph store is the class `EntityGraph`, whose maps are keyed by (subject, attribute name, datasetId).
- `EntityEventService` (`entity_event_service.dfy`): topic names and the event publishers. The Kafka template is the class `EventPublisher`; each send appends to its `sent` sequence.
- `EntityOperationHandler` (`entity_operation_handler.dfy`): batch create, upsert and delete, with their error reasons, events and response statuses. The result accumulator is the class `BatchOperationResult`.
- `TemporalEntityService` (`temporal_entity_service.dfy`): temporal entities in the simplified and the full view.
- `Neo4jService` (`neo4j_service.dfy`): the legacy registry's graph service. Class `LegacyGraph` covers entity creation with rollback, the append state machine, the partial update and batch creation.
- `NgsiLdParserService` (`ngsild_parser_service.dfy`): the legacy NGSI-LD to Cypher translator. Class `Entity` is the mutable node; class `CypherBuilder` holds the statement accumulators of the recursive traversal.

Where the source changes state, a class holds that state. Each of its methods ensures that its result and new state equal a specification function of the old state; loops carry fold invariants. The properties are proved about those functions, as lemmas or as their `ensures`.

## Model

| member | source | states |
|---|---|---|
| EntityTypeInfo.FindByKey | search-service/src/main/kotlin/com/egm/stellio/search/model/EntityTypeInfo.kt:27-28 | `find`: a variant present in the list with that key, and none exactly when no variant has the key |
| EntityTypeInfo.ForKey | search-service/src/main/kotlin/com/egm/stellio/search/model/EntityTypeInfo.kt:21-29 | succeeds exactly for the keys Property, Relationship, GeoProperty, with the variant of that key; any other key is the `!!` null-pointer failure |
| EntityTypeInfo.ForKeyOfKey | search-service/src/main/kotlin/com/egm/stellio/search/model/EntityTypeInfo.kt:21-29 | looking up the key of any attribute type gives that type back |
| EntityTypeInfo.KeysDistinct | search-service/src/main/kotlin/com/egm/stellio/search/model/EntityTypeInfo.kt:21-24 | two attribute types with the same key are the same type |
| EntityTypeInfo.NewAttributeInfo | search-service/src/main/kotlin/com/egm/stellio/search/model/EntityTypeInfo.kt:14-19 | an attribute info keeps its fields and has the default type "Attribute" |
| EntityTypeInfo.NewEntityTypeInfo | search-service/src/main/kotlin/com/egm/stellio/search/model/EntityTypeInfo.kt:5-11 | an entity type info keeps its fields and has the default type "EntityTypeInfo" |
| JsonLdEntity.ContainsAnyOf | shared/src/main/kotlin/com/egm/stellio/shared/model/JsonLdEntity.kt:25-26 | true exactly when no attribute is asked for or the entity has one of them |
| JsonLdEntity.Id | shared/src/main/kotlin/com/egm/stellio/shared/model/JsonLdEntity.kt:29-32 | succeeds exactly when @id is a JSON string, with that string |
| JsonLdEntity.Type | shared/src/main/kotlin/com/egm/stellio/shared/model/JsonLdEntity.kt:34-37 | succeeds exactly when @type is an array whose first element is a string, with that string |
| JsonLdEntity.GetType | shared/src/main/kotlin/com/egm/stellio/shared/model/JsonLdEntity.kt:40-41 | succeeds exactly when "type" is a JSON string, with that string |
| JsonLdEntity.SimplifyValue | shared/src/main/kotlin/com/egm/stellio/shared/model/JsonLdEntity.kt:74-80 | a Property or GeoProperty becomes its value and a Relationship its object, each defaulting to the whole attribute; an unknown type is a bad request |
| JsonLdEntity.ToKeyValues | shared/src/main/kotlin/com/egm/stellio/shared/model/JsonLdEntity.kt:43-44 | succeeds exactly when every value simplifies, keeping the keys in order and putting each value's simplification in its place |
| JsonLdEntity.ToKeyValuesFirstError | shared/src/main/kotlin/com/egm/stellio/shared/model/JsonLdEntity.kt:43-44 | a failure is the failure of the first value that does not simplify |
| JsonLdEntity.FirstWithDatasetId | shared/src/main/kotlin/com/egm/stellio/shared/model/JsonLdEntity.kt:52 | `first`: the first instance whose datasetId reads as the one asked for, after only non-matching ones; no match at all is NoSuchElementException |
| JsonLdEntity.FirstWithDatasetIdFound | shared/src/main/kotlin/com/egm/stellio/shared/model/JsonLdEntity.kt:52 | `first` finds an instance that is there: the first instance whose datasetId reads as the one asked for, after instances that all read as another one, is returned |
| JsonLdEntity.ExtractAttributeInstance | shared/src/main/kotlin/com/egm/stellio/shared/model/JsonLdEntity.kt:46-63 | an object attribute is returned as is; an array attribute gives exactly what `first` over its instances gives, the first instance whose datasetId is the one asked for; a missing attribute falls back to its short name, which must be an object |
| JsonLdEntity.FirstInstanceDatasetIdCast | shared/src/main/kotlin/com/egm/stellio/shared/model/JsonLdEntity.kt:50-53 | when the first instance carries the datasetId asked for, the search fails as written and gives that instance as intended |
| JsonLdEntity.ExtractAttributeInstanceDatasetIdCast | shared/src/main/kotlin/com/egm/stellio/shared/model/JsonLdEntity.kt:52 | a present datasetId fails the `as String?` cast as written, and is found once it is read as a string |
| UpdateResults.FromDetailedResultMembers | entity-service/src/main/kotlin/com/egm/stellio/entity/service/EntityAttributeService.kt:97 | every successful outcome becomes an updated detail and every other outcome a not-updated reason with its message; every entry of either list comes from an outcome of that kind; no updated detail exactly when nothing succeeded |
| UpdateResults.FromDetailedResultAppend | entity-service/src/main/kotlin/com/egm/stellio/entity/service/EntityAttributeService.kt:97 | both lists keep the order of the outcomes: the result for a concatenation of outcomes is the concatenation of the results |
| UpdateResults.FromDetailedResultOne | entity-service/src/main/kotlin/com/egm/stellio/entity/service/EntityAttributeService.kt:97 | a single outcome lands in the list its result selects |
| NgsiLdEntity.DistinctIffSetSize | shared/src/main/kotlin/com/egm/stellio/shared/model/NgsiLdEntity.kt:385-391 | comparing the size of the datasetId set with the size of the list is exactly the distinctness test |
| NgsiLdEntity.DistinctHasOneDefault | shared/src/main/kotlin/com/egm/stellio/shared/model/NgsiLdEntity.kt:379-391 | with distinct datasetIds there is at most one default instance, so the duplicate check subsumes the default-instance check |
| NgsiLdEntity.IsAttributeOfType | shared/src/main/kotlin/com/egm/stellio/shared/model/NgsiLdEntity.kt:343-347 | true exactly when @type is an array whose first entry is the type's URI; it fails when that array is empty or starts with a non-string |
| NgsiLdEntity.FirstInstanceOfType | shared/src/main/kotlin/com/egm/stellio/shared/model/NgsiLdEntity.kt:349-358 | the classification looks only at the first instance, which must be an object |
| NgsiLdEntity.ClassificationExclusive | shared/src/main/kotlin/com/egm/stellio/shared/model/NgsiLdEntity.kt:343-347 | no attribute classifies as two different types |
| NgsiLdEntity.UnclassifiedKeys | shared/src/main/kotlin/com/egm/stellio/shared/model/NgsiLdEntity.kt:61-66 | empty exactly when every non-core member classifies as one of the allowed types |
| NgsiLdEntity.ClassificationPartition | shared/src/main/kotlin/com/egm/stellio/shared/model/NgsiLdEntity.kt:61-66 | the non-core members split into Relationships, Properties, GeoProperties and unclassified ones, so the size test detects any unclassified member |
| NgsiLdEntity.ArraysCheck | shared/src/main/kotlin/com/egm/stellio/shared/model/NgsiLdEntity.kt:353-355 | passes exactly when every non-core member is an array |
| NgsiLdEntity.FilterCheck | shared/src/main/kotlin/com/egm/stellio/shared/model/NgsiLdEntity.kt:356-358 | passes exactly when the first instance of every non-core member can be classified |
| NgsiLdEntity.AllOfTypeEvery | shared/src/main/kotlin/com/egm/stellio/shared/model/NgsiLdEntity.kt:373-376 | true exactly when every instance is an object of the given type |
| NgsiLdEntity.GetDatasetId | shared/src/main/kotlin/com/egm/stellio/shared/model/NgsiLdEntity.kt:413-414 | none when the key is absent; otherwise the @id string of the first datasetId entry |
| NgsiLdEntity.DatasetIdRead | shared/src/main/kotlin/com/egm/stellio/shared/model/NgsiLdEntity.kt:413-414 | a datasetId expanded as `[{"@id": d}]` is read as d |
| NgsiLdEntity.Vertices | shared/src/main/kotlin/com/egm/stellio/shared/model/NgsiLdEntity.kt:306-314 | one position per entry of the ring |
| NgsiLdEntity.VerticesAt | shared/src/main/kotlin/com/egm/stellio/shared/model/NgsiLdEntity.kt:306-314 | the j-th vertex is the position read from the @list of the j-th entry of the ring |
| NgsiLdEntity.ExtractCoordinates | shared/src/main/kotlin/com/egm/stellio/shared/model/NgsiLdEntity.kt:287-319 | missing coordinates are a bad request; a geometry other than Point or Polygon is not implemented; a Point yields exactly its longitude and latitude; a Polygon yields one position per vertex |
| NgsiLdEntity.PointAndPolygonShortTypes | shared/src/main/kotlin/com/egm/stellio/shared/model/NgsiLdEntity.kt:267 | the expanded Point and Polygon types have the short names of the two enum entries (also lines 442-445) |
| NgsiLdEntity.GeoValue | shared/src/main/kotlin/com/egm/stellio/shared/model/NgsiLdEntity.kt:261-268 | the geometry fails as the geometry read fails; otherwise it is the outcome of extracting the coordinates, with the type matching their shape |
| NgsiLdEntity.UnsupportedGeometryOrder | shared/src/main/kotlin/com/egm/stellio/shared/model/NgsiLdEntity.kt:266-268 | a LineString crashes with IllegalArgumentException as written, and is refused as not implemented once the coordinates are read first (also lines 315-318) |
| NgsiLdEntity.ParseInstance | shared/src/main/kotlin/com/egm/stellio/shared/model/NgsiLdEntity.kt:111-112 | a parsed instance has the payload of its attribute's kind, is valid, and carries the datasetId read from it (also lines 136-137, 161-162) |
| NgsiLdEntity.ParsePropertyInstance | shared/src/main/kotlin/com/egm/stellio/shared/model/NgsiLdEntity.kt:202-218 | a parsed Property instance is valid and carries the datasetId read from it |
| NgsiLdEntity.ParseRelationshipInstance | shared/src/main/kotlin/com/egm/stellio/shared/model/NgsiLdEntity.kt:233-246 | a parsed Relationship instance is valid and carries the datasetId read from it |
| NgsiLdEntity.ParseGeoPropertyInstance | shared/src/main/kotlin/com/egm/stellio/shared/model/NgsiLdEntity.kt:261-283 | a parsed GeoProperty instance is valid and carries the datasetId read from it |
| NgsiLdEntity.NestedAttributes | shared/src/main/kotlin/com/egm/stellio/shared/model/NgsiLdEntity.kt:211-215 | the nested Relationships and Properties are exactly the non-core members of each type, all valid; any other non-core member is refused with the instance's message (also lines 238-242, 270-274) |
| NgsiLdEntity.NestedAttributesErrors | shared/src/main/kotlin/com/egm/stellio/shared/model/NgsiLdEntity.kt:211-215 | the nested Relationships are built before the nested Properties, so a refused Relationship gives the error, and a refused Property only when every Relationship was built |
| NgsiLdEntity.AttributesOfType | shared/src/main/kotlin/com/egm/stellio/shared/model/NgsiLdEntity.kt:349-365 | `getAttributesOfType`: every non-core member must be an array, and the result names exactly the members of the type, each a valid attribute of that type |
| NgsiLdEntity.BuildAttributes | shared/src/main/kotlin/com/egm/stellio/shared/model/NgsiLdEntity.kt:359-364 | the attributes built from the members from position i on name exactly the members of the type there |
| NgsiLdEntity.BuildAttributesStep | shared/src/main/kotlin/com/egm/stellio/shared/model/NgsiLdEntity.kt:358-364 | one member: a kept member that is refused gives its own error before the later members are looked at; otherwise the result is decided by the later members |
| NgsiLdEntity.BuildAttributesFirstError | shared/src/main/kotlin/com/egm/stellio/shared/model/NgsiLdEntity.kt:358-364 | `map` stops at the first kept member that is refused: the error is that member's, whatever the later members hold |
| NgsiLdEntity.BuildAttributesSucceeds | shared/src/main/kotlin/com/egm/stellio/shared/model/NgsiLdEntity.kt:358-364 | when no kept member is refused, every one is built |
| NgsiLdEntity.AttributesOfTypeFirstError | shared/src/main/kotlin/com/egm/stellio/shared/model/NgsiLdEntity.kt:349-365 | once every member is an array and classifies, the error is that of the first member of the type that is refused |
| NgsiLdEntity.AttributesOfTypeFilterError | shared/src/main/kotlin/com/egm/stellio/shared/model/NgsiLdEntity.kt:355-358 | a member whose first instance cannot be classified is refused before any attribute is built |
| NgsiLdEntity.InstancesCheck | shared/src/main/kotlin/com/egm/stellio/shared/model/NgsiLdEntity.kt:94-96 | passes exactly when there is at most one default instance, datasetIds are distinct and the short name is supported; the default-instance check is reported first, then the duplicate check, then the name check (also lines 115-116, 379-391) |
| NgsiLdEntity.ParseAttribute | shared/src/main/kotlin/com/egm/stellio/shared/model/NgsiLdEntity.kt:108-119 | a parsed attribute keeps its kind, its name and one instance per entry, and is valid; instances of another type are refused before any instance is parsed (also lines 133-144, 158-169) |
| NgsiLdEntity.ParseInstances | shared/src/main/kotlin/com/egm/stellio/shared/model/NgsiLdEntity.kt:111-113 | one parsed instance per entry from position i on, each of the attribute's kind and valid, each with the datasetId of its entry |
| NgsiLdEntity.PropertyInstanceReads | shared/src/main/kotlin/com/egm/stellio/shared/model/NgsiLdEntity.kt:207-216 | a parsed Property instance holds the observedAt read from it and exactly the nested Relationships and Properties, and all its other members classify |
| NgsiLdEntity.RelationshipInstanceReads | shared/src/main/kotlin/com/egm/stellio/shared/model/NgsiLdEntity.kt:235-243 | a parsed Relationship instance holds the observedAt read from it and exactly the nested Relationships and Properties, and all its other members classify |
| NgsiLdEntity.GeoPropertyInstanceReads | shared/src/main/kotlin/com/egm/stellio/shared/model/NgsiLdEntity.kt:262-275 | a parsed GeoProperty instance holds the observedAt read from it and exactly the nested Relationships and Properties, and all its other members classify |
| NgsiLdEntity.PropertyInstanceWithoutValue | shared/src/main/kotlin/com/egm/stellio/shared/model/NgsiLdEntity.kt:204-205 | a Property instance without hasValue is refused as an instance without a value |
| NgsiLdEntity.PropertyInstanceValue | shared/src/main/kotlin/com/egm/stellio/shared/model/NgsiLdEntity.kt:204-207 | a parsed Property instance holds the value and the unitCode read from it |
| NgsiLdEntity.RelationshipInstanceObject | shared/src/main/kotlin/com/egm/stellio/shared/model/NgsiLdEntity.kt:234 | a relationship object that cannot be extracted fails the instance with the same error; a parsed instance holds the extracted object |
| NgsiLdEntity.GeoPropertyInstanceGeometry | shared/src/main/kotlin/com/egm/stellio/shared/model/NgsiLdEntity.kt:265-268 | a parsed GeoProperty instance holds the geometry type and coordinates read from it |
| NgsiLdEntity.ParseAttributeChecks | shared/src/main/kotlin/com/egm/stellio/shared/model/NgsiLdEntity.kt:115-118 | once the instances are parsed, a failing instance check is the attribute's error and a passing one yields the attribute (also lines 140-143, 165-168) |
| NgsiLdEntity.DatasetIdsFromAt | shared/src/main/kotlin/com/egm/stellio/shared/model/NgsiLdEntity.kt:111-113 | each parsed instance carries the datasetId of its own entry |
| NgsiLdEntity.ParseEntity | shared/src/main/kotlin/com/egm/stellio/shared/model/NgsiLdEntity.kt:50-69 | no @id and no @type are each refused with their message; a parsed entity is valid, keeps the contexts, the @id and the type, and names exactly the non-core members of each type, with none left unclassified |
| NgsiLdEntity.ParseEntityAttributeErrors | shared/src/main/kotlin/com/egm/stellio/shared/model/NgsiLdEntity.kt:62-64 | the attributes are built Relationships first, then Properties, then GeoProperties, and the first group refused gives the entity's error |
| NgsiLdEntity.EntityAttributesCounted | shared/src/main/kotlin/com/egm/stellio/shared/model/NgsiLdEntity.kt:65-66 | the size comparison of the source holds exactly when some non-core member is left unclassified |
| NgsiLdEntity.ParseEntityRefusals | shared/src/main/kotlin/com/egm/stellio/shared/model/NgsiLdEntity.kt:58-59 | a type whose short name has unsupported characters is refused, and so is an entity with an unclassified attribute (also lines 65-66) |
| NgsiLdEntity.Attributes | shared/src/main/kotlin/com/egm/stellio/shared/model/NgsiLdEntity.kt:72 | all attributes of the entity, each valid when the entity is |
| NgsiLdEntity.GetLocation | shared/src/main/kotlin/com/egm/stellio/shared/model/NgsiLdEntity.kt:87-88 | a GeoProperty of the entity named location, and none exactly when there is no such GeoProperty |
| NgsiLdEntity.FindNamed | shared/src/main/kotlin/com/egm/stellio/shared/model/NgsiLdEntity.kt:88 | `find`: the first attribute with the name, and none exactly when there is no such attribute |
| NgsiLdEntity.KindOfClassifies | shared/src/main/kotlin/com/egm/stellio/shared/model/NgsiLdEntity.kt:393-404 | the kind is Property when the first instance is a Property, else Relationship, else GeoProperty, in that order, and unknown otherwise |
| NgsiLdEntity.ParseMember | shared/src/main/kotlin/com/egm/stellio/shared/model/NgsiLdEntity.kt:393-404 | a parsed member keeps its name, is valid and has the kind its first instance shows; an unknown kind is refused with "Unrecognized type for" the key |
| NgsiLdEntity.ParseToNgsiLdAttributes | shared/src/main/kotlin/com/egm/stellio/shared/model/NgsiLdEntity.kt:393-404 | every member becomes one attribute of its kind, in order; the first failing member fixes the error |
| NgsiLdEntity.AttributeLinkedIdsSound | shared/src/main/kotlin/com/egm/stellio/shared/model/NgsiLdEntity.kt:122-123 | an attribute links to u exactly when one of its instances does (also lines 147-148, 172-173) |
| NgsiLdEntity.InstanceLinkedIdsSound | shared/src/main/kotlin/com/egm/stellio/shared/model/NgsiLdEntity.kt:221-222 | an instance links to u exactly when it is a Relationship with object u or one of its nested Relationships links to u; nested Properties are not followed (also lines 248-249, 335-336) |
| NgsiLdEntity.ListLinkedIds | shared/src/main/kotlin/com/egm/stellio/shared/model/NgsiLdEntity.kt:79-85 | the ids linked from a list of attributes are exactly those some attribute of the list links to |
| NgsiLdEntity.EntityLinkedIds | shared/src/main/kotlin/com/egm/stellio/shared/model/NgsiLdEntity.kt:78-85 | the ids linked from the entity, Properties then Relationships then GeoProperties, are exactly those some attribute of the entity links to |
| JsonLdUtils.ForString | shared/src/main/kotlin/com/egm/stellio/shared/util/JsonLdUtils.kt:52-60 | the attribute type whose value is the key, and none exactly when the key is not one of Property, GeoProperty, Relationship |
| JsonLdUtils.ForStringRoundTrip | shared/src/main/kotlin/com/egm/stellio/shared/util/JsonLdUtils.kt:52-60 | looking up the value of any attribute type gives that type back |
| JsonLdUtils.AfterLastIsLastSegment | shared/src/main/kotlin/com/egm/stellio/shared/util/JsonLdUtils.kt:542-547 | `substringAfterLast` returns a part with no separator in it, the whole string when there is no separator, and otherwise the part right after the last separator |
| JsonLdUtils.AfterLastIsSuffix | shared/src/main/kotlin/com/egm/stellio/shared/util/JsonLdUtils.kt:542-547 | `substringAfterLast` returns a suffix of its input |
| JsonLdUtils.ShortTypeIsLastSegment | shared/src/main/kotlin/com/egm/stellio/shared/util/JsonLdUtils.kt:542-547 | the short name of an expanded name contains neither a slash nor a hash |
| JsonLdUtils.ShortTypeIsSuffix | shared/src/main/kotlin/com/egm/stellio/shared/util/JsonLdUtils.kt:542-547 | the short name of an expanded name is a suffix of it |
| JsonLdUtils.ShortTypeOfPlainName | shared/src/main/kotlin/com/egm/stellio/shared/util/JsonLdUtils.kt:542-547 | a name with neither a slash nor a hash is its own short name |
| JsonLdUtils.ShortTypeOfTerm | shared/src/main/kotlin/com/egm/stellio/shared/util/JsonLdUtils.kt:542-547 | the short name of `namespace/term` is the term |
| JsonLdUtils.ShortTypeOfHashTerm | shared/src/main/kotlin/com/egm/stellio/shared/util/JsonLdUtils.kt:542-547 | the short name of `namespace/vocab#term` is the term |
| JsonLdUtils.PropertyValueCases | shared/src/main/kotlin/com/egm/stellio/shared/util/JsonLdUtils.kt:262-305 | an absent key reads as null; a non-array fails the cast; a single value object reads as its string; a single date-time object reads as that date-time; any other number of entries reads as a list of their values, one per entry |
| JsonLdUtils.DatasetIdValue | shared/src/main/kotlin/com/egm/stellio/shared/util/JsonLdUtils.kt:288-292 | a datasetId expanded as `[{"@id": d}]` reads back as the string d |
| JsonLdUtils.PropertyValueAsDateTime | shared/src/main/kotlin/com/egm/stellio/shared/util/JsonLdUtils.kt:307-308 | succeeds exactly when the property read succeeds, and returns a date-time exactly when the property value is one |
| JsonLdUtils.PropertyValueAsString | shared/src/main/kotlin/com/egm/stellio/shared/util/JsonLdUtils.kt:310-311 | succeeds exactly when the property read succeeds, and returns a string exactly when the property value is a string |
| JsonLdUtils.FindInstance | shared/src/main/kotlin/com/egm/stellio/shared/util/JsonLdUtils.kt:321-333 | the first instance that matches the datasetId (the default instance when there is none), after only non-matching ones; none exactly when no instance matches |
| JsonLdUtils.FindInstanceFound | shared/src/main/kotlin/com/egm/stellio/shared/util/JsonLdUtils.kt:321-333 | `find` finds an instance that is there: the first matching instance, after instances that all do not match, is returned |
| JsonLdUtils.AttributeFromExpandedFragment | shared/src/main/kotlin/com/egm/stellio/shared/util/JsonLdUtils.kt:313-334 | null when the attribute is absent; a value that is not an array fails `asJsonArray()`; an array gives exactly what `find` over its instances gives; a found instance is an object with no datasetId when none is asked for, or with the datasetId asked for |
| JsonLdUtils.Drop | shared/src/main/kotlin/com/egm/stellio/shared/util/JsonLdUtils.kt:424 | `filter { it != x }`: removes every occurrence of x and keeps every other element |
| JsonLdUtils.AllContexts | shared/src/main/kotlin/com/egm/stellio/shared/util/JsonLdUtils.kt:419-428 | the core context alone for no context; the core context exactly once and last when it was listed or cannot be resolved; the other contexts unchanged in order; the input as is when the core context is embedded in a listed one |
| JsonLdUtils.Compact | shared/src/main/kotlin/com/egm/stellio/shared/util/JsonLdUtils.kt:414-441 | for plain JSON the result has no @context; for JSON-LD its @context is the array of all contexts; every other key is what the compactor gives under the full context document |
| JsonLdUtils.AddContextsToEntity | shared/src/main/kotlin/com/egm/stellio/shared/util/JsonLdUtils.kt:216-220 | the element unchanged for plain JSON; otherwise the element with @context set to the contexts and every other key kept |
| JsonLdUtils.ExtractContextCases | shared/src/main/kotlin/com/egm/stellio/shared/util/JsonLdUtils.kt:222-233 | no @context gives the empty list; a string gives a one-element list; an array gives one context per entry, in order, and never fails |
| JsonLdUtils.ExtractContextStrings | shared/src/main/kotlin/com/egm/stellio/shared/util/JsonLdUtils.kt:222-233 | an array of strings gives exactly those strings, in order |
| JsonLdUtils.RemoveContextFromInput | shared/src/main/kotlin/com/egm/stellio/shared/util/JsonLdUtils.kt:235-241 | the @context key is gone and every other key is kept; an input without @context is returned unchanged |
| JsonLdUtils.FilterEntityOnAttributes | shared/src/main/kotlin/com/egm/stellio/shared/util/JsonLdUtils.kt:472-488 | no included attribute keeps the input whole; otherwise exactly the members whose key is mandatory for the form or included are kept |
| JsonLdUtils.ExtractRelationshipObject | shared/src/main/kotlin/com/egm/stellio/shared/util/JsonLdUtils.kt:490-513 | succeeds with u exactly when the first hasObject entry is an object whose @id is the string u; each of the four failures gives its own message, and a hasObject that is not an array fails the cast |
| JsonLdUtils.RelationshipObjectExamples | shared/src/main/kotlin/com/egm/stellio/shared/util/JsonLdUtils.kt:490-513 | a well-formed relationship yields its target, and a string entry is reported as an invalid object type |
| JsonLdUtils.PolygonMembersSelect | shared/src/main/kotlin/com/egm/stellio/shared/util/JsonLdUtils.kt:516-520 | the selected members are exactly the members that are compacted Polygon GeoProperties, and the selection reads every member |
| JsonLdUtils.ApplyReplacesAt | shared/src/main/kotlin/com/egm/stellio/shared/util/JsonLdUtils.kt:521-539 | after a successful pass every selected key holds its rebuilt Polygon shape |
| JsonLdUtils.ApplyLeavesOthers | shared/src/main/kotlin/com/egm/stellio/shared/util/JsonLdUtils.kt:521-539 | a key that was not selected keeps its value |
| JsonLdUtils.CompactedEntityMap.ReconstructPolygonCoordinates | shared/src/main/kotlin/com/egm/stellio/shared/util/JsonLdUtils.kt:515-539 | the map after the call, and the outcome, are those of the reconstruction function on the old map |
| JsonLdUtils.ReconstructedPolygonsKeys | shared/src/main/kotlin/com/egm/stellio/shared/util/JsonLdUtils.kt:515-539 | a successful reconstruction keeps the map's keys in order |
| JsonLdUtils.ReconstructedPolygonAt | shared/src/main/kotlin/com/egm/stellio/shared/util/JsonLdUtils.kt:515-539 | in a map with distinct keys, a Polygon GeoProperty is replaced by its rebuilt shape and every other member keeps its value |
| EntityAttributeService.RetargetRelationship | entity-service/src/main/kotlin/com/egm/stellio/entity/service/EntityAttributeService.kt:258-273 | true exactly when the object can be extracted and the relationship exists, and then only its target changes; otherwise false and nothing changes |
| EntityAttributeService.UpdateRelationshipOfAttribute | entity-service/src/main/kotlin/com/egm/stellio/entity/service/EntityAttributeService.kt:231-247 | the relationship's values are merged with the new ones and its target is moved as the retarget does; only the subject's attributes change and nothing is created |
| EntityAttributeService.UpdatePropertyOfAttribute | entity-service/src/main/kotlin/com/egm/stellio/entity/service/EntityAttributeService.kt:249-256 | the property's values are merged with the new ones and nothing else changes |
| EntityAttributeService.NestedAttributeValueAsWritten | entity-service/src/main/kotlin/com/egm/stellio/entity/service/EntityAttributeService.kt:181 | `asJsonObject()` on the expanded nested value, which is an array, always fails the cast |
| EntityAttributeService.NestedAttributeValue | entity-service/src/main/kotlin/com/egm/stellio/entity/service/EntityAttributeService.kt:181 | the nested value read as its first instance, with all its instances kept; a one-instance array yields that instance |
| EntityAttributeService.NestedStep | entity-service/src/main/kotlin/com/egm/stellio/entity/service/EntityAttributeService.kt:180-227 | one nested attribute changes only the attribute's subject and creates only under that subject (the branches are stated in NestedRelationshipUpdated, NestedPropertyUpdated and CreateNested) |
| EntityAttributeService.CreateNested | entity-service/src/main/kotlin/com/egm/stellio/entity/service/EntityAttributeService.kt:212-226 | a missing nested attribute that is neither a Relationship nor a Property gives false and changes nothing |
| EntityAttributeService.CreateOfKind | entity-service/src/main/kotlin/com/egm/stellio/entity/service/EntityAttributeService.kt:213-225 | creation succeeds exactly when the nested attribute parses, and then records exactly one creation under the subject |
| EntityAttributeService.NestedUpdates | entity-service/src/main/kotlin/com/egm/stellio/entity/service/EntityAttributeService.kt:179-228 | one pass over the nested attributes keeping a running conjunction; all nested results are computed, under the subject only |
| EntityAttributeService.NestedAnswers | entity-service/src/main/kotlin/com/egm/stellio/entity/service/EntityAttributeService.kt:179-228 | the `map`: one answer per nested attribute, in order, each step on the store the previous one left; the first exception stops it |
| EntityAttributeService.NestedUpdatesAnswers | entity-service/src/main/kotlin/com/egm/stellio/entity/service/EntityAttributeService.kt:179-228 | the running conjunction is `all { it }` over the `map`: the same store and exception, and true exactly when every answer is true |
| EntityAttributeService.NonCoreMembers | entity-service/src/main/kotlin/com/egm/stellio/entity/service/EntityAttributeService.kt:174-179 | exactly the members outside the relationship or the property core list, chosen by the attribute's variant |
| EntityAttributeService.AttributesOfAttribute | entity-service/src/main/kotlin/com/egm/stellio/entity/service/EntityAttributeService.kt:169-229 | changes only the attribute's own nested attributes; with no non-core member it is true and changes nothing |
| EntityAttributeService.AttributesOfAttributeAll | entity-service/src/main/kotlin/com/egm/stellio/entity/service/EntityAttributeService.kt:169-228 | `partialUpdateAttributesOfAttribute` answers true exactly when every attribute of attribute answered true, and raises the first exception among them |
| EntityAttributeService.EntityRelationshipUpdate | entity-service/src/main/kotlin/com/egm/stellio/entity/service/EntityAttributeService.kt:100-136 | a relationship update never touches modifiedAt |
| EntityAttributeService.EntityPropertyUpdate | entity-service/src/main/kotlin/com/egm/stellio/entity/service/EntityAttributeService.kt:138-167 | a property update never touches modifiedAt |
| EntityAttributeService.InstanceUpdate | entity-service/src/main/kotlin/com/egm/stellio/entity/service/EntityAttributeService.kt:52-86 | one instance update never touches modifiedAt |
| EntityAttributeService.InstancesUpdate | entity-service/src/main/kotlin/com/egm/stellio/entity/service/EntityAttributeService.kt:52-87 | exactly one result per instance, after the earlier ones, and modifiedAt untouched |
| EntityAttributeService.AnyFailed | entity-service/src/main/kotlin/com/egm/stellio/entity/service/EntityAttributeService.kt:90 | true exactly when some result is FAILED |
| EntityAttributeService.AnySuccessful | entity-service/src/main/kotlin/com/egm/stellio/entity/service/EntityAttributeService.kt:94 | true exactly when some result was successfully updated |
| EntityAttributeService.UnknownInstanceIgnored | entity-service/src/main/kotlin/com/egm/stellio/entity/service/EntityAttributeService.kt:80-85 | an instance found in neither index is IGNORED with the "Unknown attribute" reason and nothing changes |
| EntityAttributeService.RelationshipIndexFirst | entity-service/src/main/kotlin/com/egm/stellio/entity/service/EntityAttributeService.kt:55-67 | an instance found in the relationship index goes to the relationship update, whatever the property index holds |
| EntityAttributeService.EntityRelationshipOutcome | entity-service/src/main/kotlin/com/egm/stellio/entity/service/EntityAttributeService.kt:112-135 | the result names the expanded type and the datasetId, is UPDATED exactly when the nested update gives true, and is otherwise FAILED with its reason |
| EntityAttributeService.EntityPropertyOutcome | entity-service/src/main/kotlin/com/egm/stellio/entity/service/EntityAttributeService.kt:150-166 | the result names the property and the datasetId, is UPDATED exactly when the nested update gives true, and is otherwise FAILED with its reason |
| EntityAttributeService.PartialUpdateFirstEntryOnly | entity-service/src/main/kotlin/com/egm/stellio/entity/service/EntityAttributeService.kt:48 | only the first entry of the payload is processed |
| EntityAttributeService.PartialUpdateOutcome | entity-service/src/main/kotlin/com/egm/stellio/entity/service/EntityAttributeService.kt:48-97 | a FAILED result raises the internal error; any error, that one or an exception from an instance, rolls the store back to where it started (`@Transactional`, line 42, and the comment at line 89); a success has one outcome per instance and touches modifiedAt once exactly when something was updated |
| EntityAttributeService.NestedAttributeCastAsWritten | entity-service/src/main/kotlin/com/egm/stellio/entity/service/EntityAttributeService.kt:181 | as written, the first nested attribute, an array, makes the whole nested update fail with the cast error and change nothing |
| EntityAttributeService.NestedPropertyUpdated | entity-service/src/main/kotlin/com/egm/stellio/entity/service/EntityAttributeService.kt:199-210 | with the evident reading, an existing nested property is updated with the instance's values and the result is true |
| EntityAttributeService.NestedRelationshipUpdated | entity-service/src/main/kotlin/com/egm/stellio/entity/service/EntityAttributeService.kt:183-198 | with the evident reading, an existing nested relationship takes the merged values and is re-pointed to the extracted object, and the result is true |
| EntityAttributeService.NestedAttributeExample | entity-service/src/main/kotlin/com/egm/stellio/entity/service/EntityAttributeService.kt:181 | a concrete relationship with a nested property: the cast error as written, true once the first instance is read |
| EntityAttributeService.EntityGraph.UpdateRelationshipTargetOfAttribute | entity-service/src/main/kotlin/com/egm/stellio/entity/service/EntityAttributeService.kt:258-273 | the result and the new graph are those of the retarget function on the old graph |
| EntityAttributeService.EntityGraph.PartialUpdateRelationshipOfAttribute | entity-service/src/main/kotlin/com/egm/stellio/entity/service/EntityAttributeService.kt:231-247 | always true, whatever the retarget gave; the new graph is the merged relationship |
| EntityAttributeService.EntityGraph.PartialUpdatePropertyOfAttribute | entity-service/src/main/kotlin/com/egm/stellio/entity/service/EntityAttributeService.kt:249-256 | always true; the new graph is the merged property |
| EntityAttributeService.EntityGraph.UpdateAttributeOfAttribute | entity-service/src/main/kotlin/com/egm/stellio/entity/service/EntityAttributeService.kt:180-227 | the result and the new graph are those of one nested step, whose relationship and property branches NestedRelationshipUpdated and NestedPropertyUpdated state |
| EntityAttributeService.EntityGraph.CreateAttributeOfAttribute | entity-service/src/main/kotlin/com/egm/stellio/entity/service/EntityAttributeService.kt:212-226 | the result and the new graph are those of creating the missing nested attribute |
| EntityAttributeService.EntityGraph.PartialUpdateAttributesOfAttribute | entity-service/src/main/kotlin/com/egm/stellio/entity/service/EntityAttributeService.kt:169-229 | the result and the new graph are those of `partialUpdateAttributesOfAttribute`, whose `all { it }` AttributesOfAttributeAll states |
| EntityAttributeService.EntityGraph.PartialUpdateEntityRelationship | entity-service/src/main/kotlin/com/egm/stellio/entity/service/EntityAttributeService.kt:100-136 | the result and the new graph are those of the relationship update function |
| EntityAttributeService.EntityGraph.PartialUpdateEntityProperty | entity-service/src/main/kotlin/com/egm/stellio/entity/service/EntityAttributeService.kt:138-167 | the result and the new graph are those of the property update function |
| EntityAttributeService.EntityGraph.UpdateInstance | entity-service/src/main/kotlin/com/egm/stellio/entity/service/EntityAttributeService.kt:53-86 | the result and the new graph are those of one instance update |
| EntityAttributeService.EntityGraph.Restore | entity-service/src/main/kotlin/com/egm/stellio/entity/service/EntityAttributeService.kt:42 | the transaction rollback: the graph becomes the saved store |
| EntityAttributeService.EntityGraph.PartialUpdateEntityAttribute | entity-service/src/main/kotlin/com/egm/stellio/entity/service/EntityAttributeService.kt:42-98 | the result and the new graph are those of the partial update function, whose outcome lemmas state the rules; on an error the graph is restored to the one it started from |
| TemporalEntityService.IndexOf | search-service/src/main/kotlin/com/egm/stellio/search/service/TemporalEntityService.kt:113-115 | the position of the group with that name, or none exactly when no group has it |
| TemporalEntityService.GroupedMeaning | search-service/src/main/kotlin/com/egm/stellio/search/service/TemporalEntityService.kt:112-116 | `groupBy`: one group per distinct name, the names being exactly those of the input, each group holding that name's values in input order |
| TemporalEntityService.InOwnGroup | search-service/src/main/kotlin/com/egm/stellio/search/service/TemporalEntityService.kt:112-116 | every input value lands in the group of its own name |
| TemporalEntityService.FilteredAbsent | search-service/src/main/kotlin/com/egm/stellio/search/service/TemporalEntityService.kt:112-116 | a name that does not occur has no values |
| TemporalEntityService.SimplifiedPairs | search-service/src/main/kotlin/com/egm/stellio/search/service/TemporalEntityService.kt:96-99 | succeeds exactly when every instance is simplified, with one pair per instance in order |
| TemporalEntityService.SimplifiedAttribute | search-service/src/main/kotlin/com/egm/stellio/search/service/TemporalEntityService.kt:86-101 | succeeds exactly when every instance is simplified; otherwise the cast error |
| TemporalEntityService.SimplifiedAttributeShape | search-service/src/main/kotlin/com/egm/stellio/search/service/TemporalEntityService.kt:87-100 | "type" is the attribute type; "datasetId" is present exactly when there is one; the list key is "values" for a Property and "objects" otherwise; there is one pair per instance in order and no other key |
| TemporalEntityService.SimplifiedRepresentation | search-service/src/main/kotlin/com/egm/stellio/search/service/TemporalEntityService.kt:83-102 | one simplified attribute per input attribute, same keys, same order |
| TemporalEntityService.FullInstance | search-service/src/main/kotlin/com/egm/stellio/search/service/TemporalEntityService.kt:66-69 | a full instance becomes its payload read as an array; a simplified one fails the cast |
| TemporalEntityService.FullValue | search-service/src/main/kotlin/com/egm/stellio/search/service/TemporalEntityService.kt:65-71 | always an array, with one element per instance in order; it succeeds exactly when every instance does |
| TemporalEntityService.FullNamed | search-service/src/main/kotlin/com/egm/stellio/search/service/TemporalEntityService.kt:63-71 | the keys are compacted first (`mapKeys`), so a group whose compacted name a later group shares is overwritten and never read; the result succeeds exactly when every group that is not overwritten has a readable full value, and then each such group holds the array of its flattened instances |
| TemporalEntityService.ViewNamed | search-service/src/main/kotlin/com/egm/stellio/search/service/TemporalEntityService.kt:54-72 | both views name each attribute name once, in order of first appearance; the full view compacts the names before it reads the values |
| TemporalEntityService.CompactKeys | search-service/src/main/kotlin/com/egm/stellio/search/service/TemporalEntityService.kt:57 | `mapKeys` with `compactTerm`: the keys are exactly the compacted names, each once (also lines 64) |
| TemporalEntityService.CompactKeysHas | search-service/src/main/kotlin/com/egm/stellio/search/service/TemporalEntityService.kt:57 | a key is present exactly when it is the compacted form of some name (also lines 64) |
| TemporalEntityService.CompactKeysLast | search-service/src/main/kotlin/com/egm/stellio/search/service/TemporalEntityService.kt:57 | `mapKeys` keeps the last entry: when no later name compacts to the same key, the key holds that name's value (also lines 64) |
| TemporalEntityService.PutAllGetLast | search-service/src/main/kotlin/com/egm/stellio/search/service/TemporalEntityService.kt:57 | putting the members of a map in order leaves under a key the value of its last member (also lines 64) |
| TemporalEntityService.ShadowedNames | search-service/src/main/kotlin/com/egm/stellio/search/service/TemporalEntityService.kt:63-64 | a group is overwritten by `mapKeys` exactly when its name is not the last to compact to its key |
| TemporalEntityService.TemporalAttributes | search-service/src/main/kotlin/com/egm/stellio/search/service/TemporalEntityService.kt:48-73 | the keys are exactly the compacted attribute names, each once |
| TemporalEntityService.TemporalEntity | search-service/src/main/kotlin/com/egm/stellio/search/service/TemporalEntityService.kt:28-46 | fails with NoSuchElementException exactly when there is no attribute (`keys.first()`), and otherwise succeeds when the attributes do |
| TemporalEntityService.TemporalEntityShape | search-service/src/main/kotlin/com/egm/stellio/search/service/TemporalEntityService.kt:42-45 | "id" is the entity id and "type" the compacted type of the first attribute, unless an attribute overrides them; every attribute entry is in the entity |
| TemporalEntityService.TemporalEntities | search-service/src/main/kotlin/com/egm/stellio/search/service/TemporalEntityService.kt:19-26 | exactly one entity per query-result pair, in the same order |
| TemporalEntityService.SimplifiedViewValue | search-service/src/main/kotlin/com/egm/stellio/search/service/TemporalEntityService.kt:54-61 | in the simplified view an attribute name that no later name compacts onto holds the simplified value of its groups (also lines 128-140) |
| TemporalEntityService.FullViewValue | search-service/src/main/kotlin/com/egm/stellio/search/service/TemporalEntityService.kt:62-71 | in the full view an attribute name that no later name compacts onto holds the array of its flattened instances, in input order (also lines 109-121) |
| TemporalEntityService.FullViewReadsKept | search-service/src/main/kotlin/com/egm/stellio/search/service/TemporalEntityService.kt:62-71 | the full view fails exactly when the values of some name that is last for its compacted key cannot be read as arrays; overwritten groups are never read |
| EntityEventService.ComposeTopicName | entity-service/src/main/kotlin/com/egm/stellio/entity/service/EntityEventService.kt:34-43 | a topic exactly when "cim.entity." followed by the compacted type passes topic validation, and then that name (also lines 58-59) |
| EntityEventService.Published | entity-service/src/main/kotlin/com/egm/stellio/entity/service/EntityEventService.kt:46-56 | nothing is sent exactly when the topic is invalid; otherwise exactly one message on that topic, keyed by the entity id |
| EntityEventService.AllPublishedSameTopic | entity-service/src/main/kotlin/com/egm/stellio/entity/service/EntityEventService.kt:46-56 | events sharing their contexts are all sent on one topic, one message per event in order, or none at all when the topic is invalid (also lines 68-108) |
| EntityEventService.AttributeEventShape | entity-service/src/main/kotlin/com/egm/stellio/entity/service/EntityEventService.kt:68-173 | a missing instance is the `!!` failure; an event names the entity, the compacted attribute and the datasetId; append gives an append event exactly for APPENDED and a replace event otherwise; update always gives a replace event, partial update always an update event |
| EntityEventService.EventsUntilFailure | entity-service/src/main/kotlin/com/egm/stellio/entity/service/EntityEventService.kt:68-108 | the `forEach` stops at the first failure, keeping the events before it; events are sent only when the entity type can be read |
| EntityEventService.AppendMessagesPerDetail | entity-service/src/main/kotlin/com/egm/stellio/entity/service/EntityEventService.kt:61-109 | after a full pass the append publisher sends one message per updated detail on the entity's topic, an append event exactly for APPENDED, nothing for a not-updated entry |
| EntityEventService.UpdateAndPartialUpdateMessages | entity-service/src/main/kotlin/com/egm/stellio/entity/service/EntityEventService.kt:111-174 | after a full pass the update publisher sends one replace event and the partial-update publisher one update event per detail |
| EntityEventService.MissingInstanceFails | entity-service/src/main/kotlin/com/egm/stellio/entity/service/EntityEventService.kt:70-75 | a first detail whose instance is not in the fragment fails the publication before anything is sent (also lines 84) |
| EntityEventService.PublishedFromMessages | entity-service/src/main/kotlin/com/egm/stellio/entity/service/EntityEventService.kt:68-108 | publishing one event at a time appends exactly the messages of the whole list |
| EntityEventService.EventPublisher.PublishEntityEvent | entity-service/src/main/kotlin/com/egm/stellio/entity/service/EntityEventService.kt:45-56 | true exactly when the topic is valid; the sent messages grow by exactly what the topic allows |
| EntityEventService.EventPublisher.PublishAttributeEvents | entity-service/src/main/kotlin/com/egm/stellio/entity/service/EntityEventService.kt:68-173 | the outcome and the messages appended are those of the attribute-messages function |
| EntityEventService.EventPublisher.PublishAppendEntityAttributesEvents | entity-service/src/main/kotlin/com/egm/stellio/entity/service/EntityEventService.kt:61-109 | only the updated details of the append result are published, as the append publisher |
| EntityEventService.EventPublisher.PublishUpdateEntityAttributesEvents | entity-service/src/main/kotlin/com/egm/stellio/entity/service/EntityEventService.kt:111-142 | only the updated details of the update result are published, as the update publisher |
| EntityEventService.EventPublisher.PublishPartialUpdateEntityAttributesEvents | entity-service/src/main/kotlin/com/egm/stellio/entity/service/EntityEventService.kt:144-174 | the given details are published as the partial-update publisher |
| EntityOperationHandler.BatchOperationResult.AddErrors | entity-service/src/main/kotlin/com/egm/stellio/entity/web/EntityOperationHandler.kt:57-61 | `errors.addAll`: the errors grow by exactly the new ones, at the end, and the successes are unchanged |
| EntityOperationHandler.BatchOperationResult.constructor | entity-service/src/main/kotlin/com/egm/stellio/entity/web/EntityOperationHandler.kt:55 | the accumulator starts as the given batch result |
| EntityOperationHandler.BatchOperationResult.SuccessfulEntitiesIds | entity-service/src/main/kotlin/com/egm/stellio/entity/web/EntityOperationHandler.kt:63 | the ids of the successes |
| EntityOperationHandler.Partition | entity-service/src/main/kotlin/com/egm/stellio/entity/web/EntityOperationHandler.kt:125-126 | `partition`: every element lands in exactly one side, the first side holding those that satisfy the test |
| EntityOperationHandler.PartitionFilters | entity-service/src/main/kotlin/com/egm/stellio/entity/web/EntityOperationHandler.kt:125-126 | `partition` keeps order and multiplicity: its two sides are the filter by the test and the filter by its negation |
| EntityOperationHandler.PartitionPermutes | entity-service/src/main/kotlin/com/egm/stellio/entity/web/EntityOperationHandler.kt:125-126 | the two sides together are a permutation of the input |
| EntityOperationHandler.WithLinkContext | entity-service/src/main/kotlin/com/egm/stellio/entity/web/EntityOperationHandler.kt:219-222 | `putIfAbsent`: an entity with an @context keeps it; otherwise @context becomes the one-element list of the Link context; every other key is kept |
| EntityOperationHandler.ToNgsiLdEntities | entity-service/src/main/kotlin/com/egm/stellio/entity/web/EntityOperationHandler.kt:231 | succeeds exactly when every expanded entity parses, keeping one parsed entity per expanded one |
| EntityOperationHandler.ExtractAndParseBatchOfEntities | entity-service/src/main/kotlin/com/egm/stellio/entity/web/EntityOperationHandler.kt:205-232 | with the JSON-LD content type any entity without @context is a bad request; without it and without a Link context it is the `!!` failure; the kept payloads are the raw ones or those with the Link context added, and there is one expanded and one parsed entity per payload |
| EntityOperationHandler.LinkContextOnlyWhereMissing | entity-service/src/main/kotlin/com/egm/stellio/entity/web/EntityOperationHandler.kt:216-223 | the Link context is added only where @context is absent |
| EntityOperationHandler.EntityPayloadById | entity-service/src/main/kotlin/com/egm/stellio/entity/web/EntityOperationHandler.kt:83-87 | `first`: a payload with that id, and NoSuchElementException exactly when there is none |
| EntityOperationHandler.EntityPayloadByIdFirst | entity-service/src/main/kotlin/com/egm/stellio/entity/web/EntityOperationHandler.kt:83-87 | `first`: the payload found is the earliest one with that id |
| EntityOperationHandler.PayloadEvent | entity-service/src/main/kotlin/com/egm/stellio/entity/web/EntityOperationHandler.kt:64-75 | an event for the entity's id and type, a create event for create and a replace event for replace, carrying the @context of the entity's own payload; a missing payload is a failure, and a found one always gives an event |
| EntityOperationHandler.EntitiesWithIds | entity-service/src/main/kotlin/com/egm/stellio/entity/web/EntityOperationHandler.kt:64 | `filter`: exactly the entities whose id is among the successful ids |
| EntityOperationHandler.EntitiesWithIdsInOrder | entity-service/src/main/kotlin/com/egm/stellio/entity/web/EntityOperationHandler.kt:64 | `filter` keeps order and multiplicity: it distributes over concatenation and keeps a single entity exactly when its id succeeded |
| EntityOperationHandler.SuccessEventsOfSuccesses | entity-service/src/main/kotlin/com/egm/stellio/entity/web/EntityOperationHandler.kt:64-75 | every event built is for an entity that succeeded |
| EntityOperationHandler.DeleteEvent | entity-service/src/main/kotlin/com/egm/stellio/entity/web/EntityOperationHandler.kt:190-197 | a deleted id carries its stored contexts and its first type; an id that was not to be deleted is the `!!` failure and an entity without a type is the index failure |
| EntityOperationHandler.BuiltUntilFailure | entity-service/src/main/kotlin/com/egm/stellio/entity/web/EntityOperationHandler.kt:65-75 | the `forEach` stops at the first event it cannot build, keeping those before it |
| EntityOperationHandler.SentFromUntilFailure | entity-service/src/main/kotlin/com/egm/stellio/entity/web/EntityOperationHandler.kt:65-75 | sending event by event appends the messages of the events built before the first failure |
| EntityOperationHandler.AllSentPerEvent | entity-service/src/main/kotlin/com/egm/stellio/entity/web/EntityOperationHandler.kt:65-75 | at most one message per event, and exactly one, keyed by the entity id, when every topic is valid |
| EntityOperationHandler.JsonLdEntityById | entity-service/src/main/kotlin/com/egm/stellio/entity/web/EntityOperationHandler.kt:256 | `find`: an expanded entity with that id |
| EntityOperationHandler.UpdateEventsFrom | entity-service/src/main/kotlin/com/egm/stellio/entity/web/EntityOperationHandler.kt:251-265 | the update events only append to what was sent |
| EntityOperationHandler.UpdateEventsFirst | entity-service/src/main/kotlin/com/egm/stellio/entity/web/EntityOperationHandler.kt:255-264 | the first success publishes its append events, then the others follow unless that fails |
| EntityOperationHandler.CreateStatus | entity-service/src/main/kotlin/com/egm/stellio/entity/web/EntityOperationHandler.kt:77-80 | CREATED with the successful ids exactly when there is no error, else MULTI_STATUS with the whole result |
| EntityOperationHandler.UpsertStatus | entity-service/src/main/kotlin/com/egm/stellio/entity/web/EntityOperationHandler.kt:159-164 | CREATED with the new ids exactly when there is no error and something is new, NO_CONTENT when there is no error and nothing new, else MULTI_STATUS |
| EntityOperationHandler.DeleteStatus | entity-service/src/main/kotlin/com/egm/stellio/entity/web/EntityOperationHandler.kt:199-202 | NO_CONTENT exactly when there is no error, else MULTI_STATUS |
| EntityOperationHandler.CreateForbidden | entity-service/src/main/kotlin/com/egm/stellio/entity/web/EntityOperationHandler.kt:46-47 | a user who may not create gets AccessDenied and nothing is sent |
| EntityOperationHandler.CreateBatchErrors | entity-service/src/main/kotlin/com/egm/stellio/entity/web/EntityOperationHandler.kt:54-61 | only new entities reach `create`; its successes are kept; its errors come first, then one "Entity already exists" per existing entity |
| EntityOperationHandler.CreateAnswer | entity-service/src/main/kotlin/com/egm/stellio/entity/web/EntityOperationHandler.kt:45-80 | a create that answers has passed the create right and the @context check; the answer is CREATED with the successful ids exactly when creation had no error and nothing existed, else MULTI_STATUS |
| EntityOperationHandler.CreateContextRefused | entity-service/src/main/kotlin/com/egm/stellio/entity/web/EntityOperationHandler.kt:45-50 | after the create right, a body whose @context does not suit its content type is refused with that error, and nothing is sent |
| EntityOperationHandler.NewEntitiesResult | entity-service/src/main/kotlin/com/egm/stellio/entity/web/EntityOperationHandler.kt:107-115 | nothing new gives an empty result; a user who may create has the new entities created; otherwise each new entity gets "User forbidden to create entities" |
| EntityOperationHandler.UpsertStoredEntities | entity-service/src/main/kotlin/com/egm/stellio/entity/web/EntityOperationHandler.kt:119-137 | the authorised entities go to `update` when options is "update" and to `replace` otherwise; every unauthorised one gets "User forbidden to modify entity" after the update errors |
| EntityOperationHandler.UpsertAnswer | entity-service/src/main/kotlin/com/egm/stellio/entity/web/EntityOperationHandler.kt:139-164 | the status follows the merged errors and the new ids; the merged result is the create successes then the update successes, and the same for the errors |
| EntityOperationHandler.DeleteRefusals | entity-service/src/main/kotlin/com/egm/stellio/entity/web/EntityOperationHandler.kt:172-188 | exactly the stored ids the user may administer are deleted; an unknown id gets "Entity does not exist"; a stored one the user may not administer gets "User forbidden to delete entity" |
| EntityOperationHandler.DeleteAnswer | entity-service/src/main/kotlin/com/egm/stellio/entity/web/EntityOperationHandler.kt:199-202 | NO_CONTENT exactly when there is no error, which means every id was stored and administrable |
| EntityOperationHandler.PublishOutgoing | entity-service/src/main/kotlin/com/egm/stellio/entity/web/EntityOperationHandler.kt:65-75 | the outcome and the messages sent are those of sending the built events in order |
| EntityOperationHandler.PublishUpdateEvents | entity-service/src/main/kotlin/com/egm/stellio/entity/web/EntityOperationHandler.kt:251-265 | the outcome and the messages sent are those of the update-events function |
| EntityOperationHandler.Create | entity-service/src/main/kotlin/com/egm/stellio/entity/web/EntityOperationHandler.kt:40-81 | the answer and the messages sent are those of the create function, the @context check included, whose lemmas state the rules |
| EntityOperationHandler.PrepareUpsert | entity-service/src/main/kotlin/com/egm/stellio/entity/web/EntityOperationHandler.kt:98-142 | the plan is the upsert planning function, which checks the @context before anything else |
| EntityOperationHandler.PublishUpsertEvents | entity-service/src/main/kotlin/com/egm/stellio/entity/web/EntityOperationHandler.kt:144-157 | the outcome and the messages sent are those of the upsert-events function: create events for created entities, then update or replace events |
| EntityOperationHandler.Upsert | entity-service/src/main/kotlin/com/egm/stellio/entity/web/EntityOperationHandler.kt:92-165 | the answer and the messages sent are those of the upsert function |
| EntityOperationHandler.UpsertContextRefused | entity-service/src/main/kotlin/com/egm/stellio/entity/web/EntityOperationHandler.kt:98-100 | a body whose @context does not suit its content type is refused with that error before anything else, and nothing is sent |
| EntityOperationHandler.Delete | entity-service/src/main/kotlin/com/egm/stellio/entity/web/EntityOperationHandler.kt:167-203 | the answer and the messages sent are those of the delete function |
| Neo4jService.TempEntity | src/main/kotlin/com/egm/datahub/context/registry/service/Neo4jService.kt:627-631 | the placeholder entity is stored under its id with its one type and the contexts; no attribute changes |
| Neo4jService.FirstIsMap | src/main/kotlin/com/egm/datahub/context/registry/service/Neo4jService.kt:153 | `it[0] is Map`: fails exactly on a value that is not a non-empty list, otherwise tells whether the first element is an object |
| Neo4jService.MapValued | src/main/kotlin/com/egm/datahub/context/registry/service/Neo4jService.kt:152-154 | `filterValues`: fails exactly when some value has no first element; otherwise keeps exactly the members whose first element is an object |
| Neo4jService.MapValuedFilter | src/main/kotlin/com/egm/datahub/context/registry/service/Neo4jService.kt:152-154 | on success the members kept are exactly the filter of the input by "first element is an object", in order |
| Neo4jService.Expanded | src/main/kotlin/com/egm/datahub/context/registry/service/Neo4jService.kt:155-157 | `mapValues(expandValueAsMap)`: one entry per member, same key, holding the expanded value |
| Neo4jService.PropertyEntries | src/main/kotlin/com/egm/datahub/context/registry/service/Neo4jService.kt:158-161 | keeps exactly the entries that are not core members and are typed Property |
| Neo4jService.PropertyEntriesFilter | src/main/kotlin/com/egm/datahub/context/registry/service/Neo4jService.kt:158-161 | the entries kept are exactly the filter of the input by "not a core member and typed Property", in order |
| Neo4jService.CreateLocationPropertyStep | src/main/kotlin/com/egm/datahub/context/registry/service/Neo4jService.kt:232-249 | a geometry other than Point stores nothing and answers 0; only the entity's location may change |
| Neo4jService.UpdateLocationPropertyOfEntityStep | src/main/kotlin/com/egm/datahub/context/registry/service/Neo4jService.kt:575-590 | succeeds when the geometry is a Point with coordinates, and then the entity's location becomes that Point and nothing else changes; another geometry is "Unsupported geometry type : …"; a failure changes nothing |
| Neo4jService.CreateEntityStep | src/main/kotlin/com/egm/datahub/context/registry/service/Neo4jService.kt:53-98 | `@Transactional`: a failing creation leaves the store as it was |
| Neo4jService.NewPropertyRecord | src/main/kotlin/com/egm/datahub/context/registry/service/Neo4jService.kt:497-499 | the value is `hasValue` if present, else the short-hand `@value`, whose absence is the `!!` NullPointerException; the unit code and observation date are those of the payload |
| Neo4jService.UpdatePropertyValuesStep | src/main/kotlin/com/egm/datahub/context/registry/service/Neo4jService.kt:496-505 | fails exactly when the payload has no value, changing nothing; otherwise the property at that slot becomes the record read from the payload and nothing else changes |
| Neo4jService.Repointed | src/main/kotlin/com/egm/datahub/context/registry/service/Neo4jService.kt:530-534 | the re-pointed relationship keeps its type, targets the new entity and takes the payload's observation date |
| Neo4jService.UpdateRelationshipValuesStep | src/main/kotlin/com/egm/datahub/context/registry/service/Neo4jService.kt:520-537 | succeeds exactly when the target entity exists, otherwise "Target entity … does not exist, create it first" and nothing changes; on success the relationship at that slot is re-pointed to the target with the new observation date, and nothing else changes |
| Neo4jService.UpdateNestedProperty | src/main/kotlin/com/egm/datahub/context/registry/service/Neo4jService.kt:550-553 | a missing nested property is "Property … does not exist" and nothing changes; it succeeds exactly when the property exists and the payload has a value, and then that property becomes the record read from the payload; only the subject's attributes change |
| Neo4jService.UpdateNestedProperties | src/main/kotlin/com/egm/datahub/context/registry/service/Neo4jService.kt:550-554 | only the attributes of the subject change, no node is added or removed |
| Neo4jService.UpdatePropertiesOfAttributeStep | src/main/kotlin/com/egm/datahub/context/registry/service/Neo4jService.kt:539-555 | only the attributes of the subject change, no node is added or removed |
| Neo4jService.UpdateNestedPropertiesUntouched | src/main/kotlin/com/egm/datahub/context/registry/service/Neo4jService.kt:550-554 | a nested property the payload does not name keeps its value |
| Neo4jService.UpdateNestedPropertiesWritten | src/main/kotlin/com/egm/datahub/context/registry/service/Neo4jService.kt:550-554 | on success each nested property of the payload existed and holds the record read from its last entry |
| Neo4jService.UpdatePropertiesOfAttributeWritten | src/main/kotlin/com/egm/datahub/context/registry/service/Neo4jService.kt:539-555 | on success every nested Property entry the filters keep existed and holds the record read from its payload (the last one for a repeated key) |
| Neo4jService.UpdateNestedRelationship | src/main/kotlin/com/egm/datahub/context/registry/service/Neo4jService.kt:558-568 | an entry whose first value is not a Relationship map changes nothing; a Relationship map succeeds exactly when the relationship exists and its object is an existing entity, and then it is re-pointed there; only the subject's attributes change |
| Neo4jService.UpdateNestedRelationships | src/main/kotlin/com/egm/datahub/context/registry/service/Neo4jService.kt:558-572 | only the attributes of the subject change, no node is added or removed |
| Neo4jService.UpdateRelationshipsOfAttributeStep | src/main/kotlin/com/egm/datahub/context/registry/service/Neo4jService.kt:557-573 | only the attributes of the subject change, no node is added or removed |
| Neo4jService.UpdateNestedRelationshipsUntouched | src/main/kotlin/com/egm/datahub/context/registry/service/Neo4jService.kt:558-572 | a nested relationship no Relationship entry names keeps its value |
| Neo4jService.UpdateNestedRelationshipsWritten | src/main/kotlin/com/egm/datahub/context/registry/service/Neo4jService.kt:558-572 | on success the relationship named by the last Relationship entry of its type existed and is re-pointed to that entry's object, an existing entity |
| Neo4jService.UpdatePropertyOfEntityStep | src/main/kotlin/com/egm/datahub/context/registry/service/Neo4jService.kt:488-494 | a payload without a value fails and changes nothing; on success the property holds the record read from the payload, every property and relationship outside it and its attributes of attribute is as it was, and no node is added or removed |
| Neo4jService.UpdateRelationshipOfEntityStep | src/main/kotlin/com/egm/datahub/context/registry/service/Neo4jService.kt:507-518 | a missing target is the "Target entity … does not exist" bad request and changes nothing; on success the relationship is re-pointed with the new observation date, everything outside it and its attributes of attribute is as it was, and no node is added or removed |
| Neo4jService.TryUpdateStep | src/main/kotlin/com/egm/datahub/context/registry/service/Neo4jService.kt:458-479 | no node is added or removed |
| Neo4jService.UpdateAttributeStep | src/main/kotlin/com/egm/datahub/context/registry/service/Neo4jService.kt:456-483 | no node is added or removed |
| Neo4jService.UpdateExistingListed | src/main/kotlin/com/egm/datahub/context/registry/service/Neo4jService.kt:458-478 | an attribute is listed as updated under its short name exactly when the update of an existing one went through; then its Property holds the payload's record, its Relationship is re-pointed to an existing object, or its GeoProperty location is the payload's Point |
| Neo4jService.UpdateAttributeNames | src/main/kotlin/com/egm/datahub/context/registry/service/Neo4jService.kt:456-483 | one attribute adds at most one entry to each list, under its short name, and keeps the earlier entries |
| Neo4jService.UpdateAll | src/main/kotlin/com/egm/datahub/context/registry/service/Neo4jService.kt:455-484 | no node is added or removed |
| Neo4jService.UpdateAllAppend | src/main/kotlin/com/egm/datahub/context/registry/service/Neo4jService.kt:455-484 | `forEach` in order: updating `a + b` is updating `a`, then `b` from the graph and lists it left, unless `a` raised |
| Neo4jService.ShortNames | src/main/kotlin/com/egm/datahub/context/registry/service/Neo4jService.kt:456 | one short name per attribute, in order |
| Neo4jService.UpdateAllNames | src/main/kotlin/com/egm/datahub/context/registry/service/Neo4jService.kt:455-484 | the lists so far stay as prefixes and every added name is the short name of an attribute of the payload |
| Neo4jService.UpdateEntityAttributesStep | src/main/kotlin/com/egm/datahub/context/registry/service/Neo4jService.kt:448-486 | a partial update adds or removes no node |
| Neo4jService.UpdateEntityAttributesNames | src/main/kotlin/com/egm/datahub/context/registry/service/Neo4jService.kt:448-486 | a missing entity is the `get()` NoSuchElementException and changes nothing; on success every listed name is the short name of an attribute of the payload |
| Neo4jService.LegacyGraph.constructor | src/main/kotlin/com/egm/datahub/context/registry/service/Neo4jService.kt:43-50 | the graph starts as the given store |
| Neo4jService.LegacyGraph.CreateTempEntityInBatch | src/main/kotlin/com/egm/datahub/context/registry/service/Neo4jService.kt:627-631 | the new state is the store with the placeholder entity |
| Neo4jService.LegacyGraph.DeleteEntity | src/main/kotlin/com/egm/datahub/context/registry/service/Neo4jService.kt:592-594 | the new state is the store without the entity and what hangs from it |
| Neo4jService.LegacyGraph.CreateNestedProperty | src/main/kotlin/com/egm/datahub/context/registry/service/Neo4jService.kt:162-177 | result and new state are those of creating one nested Property |
| Neo4jService.LegacyGraph.CreateAttributeProperties | src/main/kotlin/com/egm/datahub/context/registry/service/Neo4jService.kt:151-178 | result and new state are those of `createAttributeProperties` |
| Neo4jService.LegacyGraph.CreateNestedRelationship | src/main/kotlin/com/egm/datahub/context/registry/service/Neo4jService.kt:182-228 | result and new state are those of creating one nested Relationship |
| Neo4jService.LegacyGraph.CreateAttributeRelationships | src/main/kotlin/com/egm/datahub/context/registry/service/Neo4jService.kt:180-230 | result and new state are those of `createAttributeRelationships` |
| Neo4jService.LegacyGraph.CreateEntityProperty | src/main/kotlin/com/egm/datahub/context/registry/service/Neo4jService.kt:100-121 | result and new state are those of `createEntityProperty` |
| Neo4jService.LegacyGraph.CreateEntityRelationship | src/main/kotlin/com/egm/datahub/context/registry/service/Neo4jService.kt:129-149 | result and new state are those of `createEntityRelationship` |
| Neo4jService.LegacyGraph.CreateLocationProperty | src/main/kotlin/com/egm/datahub/context/registry/service/Neo4jService.kt:232-249 | result and new state are those of `createLocationProperty` |
| Neo4jService.LegacyGraph.Restore | src/main/kotlin/com/egm/datahub/context/registry/service/Neo4jService.kt:53 | the transaction rollback: the state becomes the saved store |
| Neo4jService.LegacyGraph.CreateRelationshipOfEntry | src/main/kotlin/com/egm/datahub/context/registry/service/Neo4jService.kt:70-79 | result and new state are those of linking one Relationship, its target required to exist |
| Neo4jService.LegacyGraph.CreatePropertyOfEntry | src/main/kotlin/com/egm/datahub/context/registry/service/Neo4jService.kt:83-85 | result and new state are those of creating one typed Property |
| Neo4jService.LegacyGraph.CreateLocationOfEntry | src/main/kotlin/com/egm/datahub/context/registry/service/Neo4jService.kt:89-91 | result and new state are those of creating one GeoProperty |
| Neo4jService.LegacyGraph.CreateRelationshipsOfEntity | src/main/kotlin/com/egm/datahub/context/registry/service/Neo4jService.kt:68-79 | the loop's result and new state are those of the relationship phase, stopping at the first failure |
| Neo4jService.LegacyGraph.CreatePropertiesOfEntity | src/main/kotlin/com/egm/datahub/context/registry/service/Neo4jService.kt:81-85 | the loop's result and new state are those of the property phase |
| Neo4jService.LegacyGraph.CreateLocationsOfEntity | src/main/kotlin/com/egm/datahub/context/registry/service/Neo4jService.kt:87-91 | the loop's result and new state are those of the geo-property phase |
| Neo4jService.LegacyGraph.CreateAttributes | src/main/kotlin/com/egm/datahub/context/registry/service/Neo4jService.kt:68-91 | the three phases, in that order |
| Neo4jService.LegacyGraph.CreateEntity | src/main/kotlin/com/egm/datahub/context/registry/service/Neo4jService.kt:53-98 | result and new state are those of `createEntity`, rolled back on failure |
| Neo4jService.LegacyGraph.UpdateLocationPropertyOfEntity | src/main/kotlin/com/egm/datahub/context/registry/service/Neo4jService.kt:575-590 | result and new state are those of `updateLocationPropertyOfEntity` |
| Neo4jService.LegacyGraph.LinkRelationship | src/main/kotlin/com/egm/datahub/context/registry/service/Neo4jService.kt:379-388 | result and new state are those of linking a Relationship while appending |
| Neo4jService.LegacyGraph.AppendRelationship | src/main/kotlin/com/egm/datahub/context/registry/service/Neo4jService.kt:376-406 | result and new state are those of the Relationship branch of the append |
| Neo4jService.LegacyGraph.DeleteAttribute | src/main/kotlin/com/egm/datahub/context/registry/service/Neo4jService.kt:393 | the new state is the store without that relationship or property and what hangs from it |
| Neo4jService.LegacyGraph.AppendProperty | src/main/kotlin/com/egm/datahub/context/registry/service/Neo4jService.kt:407-418 | result and new state are those of the Property branch of the append |
| Neo4jService.LegacyGraph.AppendGeoProperty | src/main/kotlin/com/egm/datahub/context/registry/service/Neo4jService.kt:419-429 | result and new state are those of the GeoProperty branch of the append |
| Neo4jService.LegacyGraph.AppendAttribute | src/main/kotlin/com/egm/datahub/context/registry/service/Neo4jService.kt:371-432 | result and new state are those of appending one attribute |
| Neo4jService.LegacyGraph.AppendEntityAttributes | src/main/kotlin/com/egm/datahub/context/registry/service/Neo4jService.kt:369-440 | result and new state are those of `appendEntityAttributes` |
| Neo4jService.LegacyGraph.UpdatePropertyValues | src/main/kotlin/com/egm/datahub/context/registry/service/Neo4jService.kt:496-505 | result and new state are those of `updatePropertyValues`: the slot holds the record read from the payload (UpdatePropertyValuesStep) |
| Neo4jService.LegacyGraph.UpdateRelationshipValues | src/main/kotlin/com/egm/datahub/context/registry/service/Neo4jService.kt:520-537 | result and new state are those of `updateRelationshipValues`: the relationship re-pointed to an existing target (UpdateRelationshipValuesStep) |
| Neo4jService.LegacyGraph.UpdatePropertiesOfAttribute | src/main/kotlin/com/egm/datahub/context/registry/service/Neo4jService.kt:539-555 | result and new state are those of `updatePropertiesOfAttribute`, whose written values UpdatePropertiesOfAttributeWritten states |
| Neo4jService.LegacyGraph.UpdateRelationshipsOfAttribute | src/main/kotlin/com/egm/datahub/context/registry/service/Neo4jService.kt:557-573 | result and new state are those of `updateRelationshipsOfAttribute`, whose re-pointed relationships UpdateNestedRelationshipsWritten states |
| Neo4jService.LegacyGraph.UpdatePropertyOfEntity | src/main/kotlin/com/egm/datahub/context/registry/service/Neo4jService.kt:488-494 | result and new state are those of `updatePropertyOfEntity`: the property written, nothing outside it changed (UpdatePropertyOfEntityStep) |
| Neo4jService.LegacyGraph.UpdateRelationshipOfEntity | src/main/kotlin/com/egm/datahub/context/registry/service/Neo4jService.kt:507-518 | result and new state are those of `updateRelationshipOfEntity`: the relationship re-pointed, nothing outside it changed (UpdateRelationshipOfEntityStep) |
| Neo4jService.LegacyGraph.TryUpdate | src/main/kotlin/com/egm/datahub/context/registry/service/Neo4jService.kt:458-479 | result and new state are those of one attempted update |
| Neo4jService.LegacyGraph.UpdateAttribute | src/main/kotlin/com/egm/datahub/context/registry/service/Neo4jService.kt:456-483 | result and new state are those of one attribute of the partial update, bad requests caught; UpdateExistingListed states what is written and listed |
| Neo4jService.LegacyGraph.UpdateEntityAttributes | src/main/kotlin/com/egm/datahub/context/registry/service/Neo4jService.kt:448-486 | result and new state are those of `updateEntityAttributes`; UpdateAllAppend, UpdateAllNames and UpdateEntityAttributesNames state the walk and the lists |
| Neo4jService.LegacyGraph.CreateBatchEntity | src/main/kotlin/com/egm/datahub/context/registry/service/Neo4jService.kt:610-622 | result and new state are those of creating one entity of a batch |
| Neo4jService.LegacyGraph.CreateBatchOfEntities | src/main/kotlin/com/egm/datahub/context/registry/service/Neo4jService.kt:605-625 | result and new state are those of `createBatchOfEntities` |
| Neo4jService.LegacyGraph.ProcessBatchOfEntities | src/main/kotlin/com/egm/datahub/context/registry/service/Neo4jService.kt:596-603 | result and new state are those of `processBatchOfEntities` |
| Neo4jService.CreateNestedPropertiesFrame | src/main/kotlin/com/egm/datahub/context/registry/service/Neo4jService.kt:151-178 | nested properties are created only under their subject; nothing else in the store changes |
| Neo4jService.CreateNestedRelationshipFrame | src/main/kotlin/com/egm/datahub/context/registry/service/Neo4jService.kt:182-228 | a nested relationship changes only its subject's relationships; entities are only added, and only in a batch |
| Neo4jService.CreateNestedRelationshipsFrame | src/main/kotlin/com/egm/datahub/context/registry/service/Neo4jService.kt:180-230 | the same for all nested relationships of an attribute |
| Neo4jService.CreatedPropertyStored | src/main/kotlin/com/egm/datahub/context/registry/service/Neo4jService.kt:100-121 | a missing value is "Key … not found in" and changes nothing; otherwise the property is stored with its value, unit code and observation time |
| Neo4jService.CreatedRelationshipStored | src/main/kotlin/com/egm/datahub/context/registry/service/Neo4jService.kt:129-149 | the relationship is stored under its type name with its name, observation time and target; no entity changes |
| Neo4jService.CreateRelationshipOfEntryKeeps | src/main/kotlin/com/egm/datahub/context/registry/service/Neo4jService.kt:70-79 | linking one relationship adds no entity |
| Neo4jService.CreatePropertyOfEntryKeeps | src/main/kotlin/com/egm/datahub/context/registry/service/Neo4jService.kt:83-85 | creating one property adds no entity |
| Neo4jService.LinkPhaseKeepsEntities | src/main/kotlin/com/egm/datahub/context/registry/service/Neo4jService.kt:68-79 | the relationship phase adds no entity |
| Neo4jService.PropertyPhaseKeepsEntities | src/main/kotlin/com/egm/datahub/context/registry/service/Neo4jService.kt:81-85 | the property phase adds no entity |
| Neo4jService.LocationPhaseKeepsEntities | src/main/kotlin/com/egm/datahub/context/registry/service/Neo4jService.kt:87-91 | the geo-property phase adds no entity |
| Neo4jService.CreateEachKeepsEntities | src/main/kotlin/com/egm/datahub/context/registry/service/Neo4jService.kt:68-91 | a `forEach` of steps that add no entity adds none |
| Neo4jService.CreateEachFailsAt | src/main/kotlin/com/egm/datahub/context/registry/service/Neo4jService.kt:68-91 | a `forEach` with an entry that always fails fails |
| Neo4jService.CreateEntityStoresRecord | src/main/kotlin/com/egm/datahub/context/registry/service/Neo4jService.kt:56-59 | a created entity is stored under its id with its types and contexts |
| Neo4jService.CreateAttributesKeepEntities | src/main/kotlin/com/egm/datahub/context/registry/service/Neo4jService.kt:68-91 | creating the attributes adds no entity |
| Neo4jService.CreateEntityTargetMustExist | src/main/kotlin/com/egm/datahub/context/registry/service/Neo4jService.kt:72-76 | a relationship to a missing entity other than itself makes the creation fail and leaves the store as it was |
| Neo4jService.AppendWithoutType | src/main/kotlin/com/egm/datahub/context/registry/service/Neo4jService.kt:372-373 | an attribute without @type is "@type not found in" and changes nothing |
| Neo4jService.AppendUnknownType | src/main/kotlin/com/egm/datahub/context/registry/service/Neo4jService.kt:430-432 | another type is not appended, with reason "Unknown attribute type …", and changes nothing |
| Neo4jService.AppendDispatch | src/main/kotlin/com/egm/datahub/context/registry/service/Neo4jService.kt:374-429 | the attribute goes to the Relationship, Property or GeoProperty branch by its type |
| Neo4jService.AppendPropertyCases | src/main/kotlin/com/egm/datahub/context/registry/service/Neo4jService.kt:407-418 | an existing property with overwrite disallowed is kept and reported; otherwise a missing entity is the `get()` failure, a missing value a bad request, and success stores the value |
| Neo4jService.LinkRelationshipCases | src/main/kotlin/com/egm/datahub/context/registry/service/Neo4jService.kt:379-388 | in a batch a missing target not among the valid entities is a bad request; a valid one gets a placeholder; success links the relationship to the object id |
| Neo4jService.AppendRelationshipCases | src/main/kotlin/com/egm/datahub/context/registry/service/Neo4jService.kt:376-406 | no relationship of that short type name: link it; one, overwrite disallowed: ignored with the reason; otherwise the old one is deleted first |
| Neo4jService.AppendGeoPropertyCases | src/main/kotlin/com/egm/datahub/context/registry/service/Neo4jService.kt:419-429 | kept when present and overwrite is disallowed; a new non-Point geometry stores nothing; an existing one is "Unsupported geometry type"; a Point stores its coordinates |
| Neo4jService.CollectPartition | src/main/kotlin/com/egm/datahub/context/registry/service/Neo4jService.kt:436-437 | the `it.third!!` succeeds exactly when every not-appended status has a reason, and then every key is in exactly one of the two lists |
| Neo4jService.LinkRelationshipKeyed | src/main/kotlin/com/egm/datahub/context/registry/service/Neo4jService.kt:379-388 | a status of the link carries the attribute key and a reason when not appended |
| Neo4jService.AppendRelationshipKeyed | src/main/kotlin/com/egm/datahub/context/registry/service/Neo4jService.kt:376-406 | the same for the Relationship branch |
| Neo4jService.AppendAttributeKeyed | src/main/kotlin/com/egm/datahub/context/registry/service/Neo4jService.kt:371-432 | the same for every attribute |
| Neo4jService.AppendAllStatuses | src/main/kotlin/com/egm/datahub/context/registry/service/Neo4jService.kt:370-434 | the statuses list exactly the attribute keys, in order, each with a reason when not appended |
| Neo4jService.AppendAllFailsAt | src/main/kotlin/com/egm/datahub/context/registry/service/Neo4jService.kt:370-434 | an attribute that always fails makes the whole map fail |
| Neo4jService.AppendPartition | src/main/kotlin/com/egm/datahub/context/registry/service/Neo4jService.kt:369-440 | on success every attribute key is either updated or not updated, exactly once |
| Neo4jService.AppendStopsWithoutType | src/main/kotlin/com/egm/datahub/context/registry/service/Neo4jService.kt:372-373 | any attribute without @type makes the whole append fail |
| Neo4jService.UpdateOnlyExisting | src/main/kotlin/com/egm/datahub/context/registry/service/Neo4jService.kt:459-479 | a missing Relationship, Property or GeoProperty is reported with its reason and changes nothing; another type is in neither list; no @type is a null dereference |
| Neo4jService.UpdateRelationshipMissingTarget | src/main/kotlin/com/egm/datahub/context/registry/service/Neo4jService.kt:461-466 | an existing relationship retargeted to a missing entity is caught as not updated with the target message, and nothing changes |
| Neo4jService.NestedRelationshipMustExist | src/main/kotlin/com/egm/datahub/context/registry/service/Neo4jService.kt:563-565 | a missing nested relationship is "Relationship … does not exist" and nothing changes |
| Neo4jService.UpdateAttributeGrows | src/main/kotlin/com/egm/datahub/context/registry/service/Neo4jService.kt:457-483 | an attribute raising only bad requests adds at most one entry to the lists and removes none |
| Neo4jService.UpdateAllContinues | src/main/kotlin/com/egm/datahub/context/registry/service/Neo4jService.kt:455-484 | when no attribute escapes the catch the update succeeds and the lists only grow, by at most one entry per attribute |
| Neo4jService.EntityDeletedRemovesAll | src/main/kotlin/com/egm/datahub/context/registry/service/Neo4jService.kt:592-594 | the entity, its location and its attributes are gone; every other entity and attribute is kept |
| Neo4jService.ErrorIdsAppend | src/main/kotlin/com/egm/datahub/context/registry/service/Neo4jService.kt:621 | error ids distribute over concatenation |
| Neo4jService.LandsCounted | src/main/kotlin/com/egm/datahub/context/registry/service/Neo4jService.kt:616-622 | an entity that lands as a success or as one error adds its urn once |
| Neo4jService.CreateBatchEntityLands | src/main/kotlin/com/egm/datahub/context/registry/service/Neo4jService.kt:609-622 | each batch entity is a success or exactly one error; a failed one leaves nothing of itself in the store |
| Neo4jService.CreateBatchEntitiesPartition | src/main/kotlin/com/egm/datahub/context/registry/service/Neo4jService.kt:609-623 | the loop adds each urn exactly once, to the successes or to the errors |
| Neo4jService.BatchOfEntitiesPartition | src/main/kotlin/com/egm/datahub/context/registry/service/Neo4jService.kt:605-625 | every urn of the batch is a success or an error, exactly once |
| Neo4jService.AlreadyExistsReport | src/main/kotlin/com/egm/datahub/context/registry/service/Neo4jService.kt:598-601 | one "Entity already exists" per existing entity, in order |
| Neo4jService.AlreadyExistsReportCons | src/main/kotlin/com/egm/datahub/context/registry/service/Neo4jService.kt:598-601 | the report of a list is the first entity's error followed by the rest's |
| Neo4jService.ExistingErrorsOk | src/main/kotlin/com/egm/datahub/context/registry/service/Neo4jService.kt:599 | the `as String` succeeds exactly when every existing entity's @id is text, null or absent (`getOrElse` gives "" for the last two) |
| Neo4jService.ExistingErrorsReport | src/main/kotlin/com/egm/datahub/context/registry/service/Neo4jService.kt:598-601 | the existing entities' errors follow the creation errors |
| Neo4jService.ProcessBatchReport | src/main/kotlin/com/egm/datahub/context/registry/service/Neo4jService.kt:596-603 | the creation's successes and store are kept, its errors come first, then one per existing entity; every urn is counted once |
| NgsiLdParserService.ExpandObjToMap | src/main/kotlin/com/egm/datahub/context/registry/service/NgsiLdParserService.kt:325-331 | an object is its own members, a string s the one-member map s to s, anything else the empty map |
| NgsiLdParserService.HasAttributesKeys | src/main/kotlin/com/egm/datahub/context/registry/service/NgsiLdParserService.kt:320-323 | a node "has attributes" exactly when it has one key, or two keys that are type and value |
| NgsiLdParserService.AttributeClassification | src/main/kotlin/com/egm/datahub/context/registry/service/NgsiLdParserService.kt:219-236 | at most one of Property, Relationship, GeoProperty holds; none of them is an attribute; the empty map is one; otherwise an attribute is a node that has attributes |
| NgsiLdParserService.ExpandedScalars | src/main/kotlin/com/egm/datahub/context/registry/service/NgsiLdParserService.kt:325-331 | a scalar expands to a map of no attribute type that counts as an attribute, and a string to the one key it names |
| NgsiLdParserService.FirstNamespaceAt | src/main/kotlin/com/egm/datahub/context/registry/service/NgsiLdParserService.kt:333-338 | the namespace is that of the first list, in mapping order, that holds the label |
| NgsiLdParserService.FirstNamespaceDefault | src/main/kotlin/com/egm/datahub/context/registry/service/NgsiLdParserService.kt:340-342 | a label in no list falls back to ngsild |
| NgsiLdParserService.LabelNamespace | src/main/kotlin/com/egm/datahub/context/registry/service/NgsiLdParserService.kt:37-41 | diat labels map to diat, ngsild labels to ngsild, example labels to example, anything else to ngsild |
| NgsiLdParserService.NamespacesDisjoint | src/main/kotlin/com/egm/datahub/context/registry/service/NgsiLdParserService.kt:37-41 | no label is in two namespace lists, so the lookup order does not matter |
| NgsiLdParserService.BuildInsertNode | src/main/kotlin/com/egm/datahub/context/registry/service/NgsiLdParserService.kt:271-288 | without a predicate or an object: one entity statement, no relationship statement; modifiedAt becomes now, createdAt is set only when absent, every other attribute, the label, the namespace and the uri are kept |
| NgsiLdParserService.BuildInsertEdge | src/main/kotlin/com/egm/datahub/context/registry/service/NgsiLdParserService.kt:289-302 | with both: one relationship statement, no entity statement, and the subject is unchanged |
| NgsiLdParserService.Entity.constructor | src/main/kotlin/com/egm/datahub/context/registry/service/NgsiLdParserService.kt:20-22 | the node has the label, a copy of the initial attributes and the namespace |
| NgsiLdParserService.BuildInsert | src/main/kotlin/com/egm/datahub/context/registry/service/NgsiLdParserService.kt:270-303 | the statements and the subject's new attributes are those of `buildInsert` |
| NgsiLdParserService.GetAttributes | src/main/kotlin/com/egm/datahub/context/registry/service/NgsiLdParserService.kt:238-260 | no kept attribute is type, @context or id, and none is added |
| NgsiLdParserService.GetAttributesMembers | src/main/kotlin/com/egm/datahub/context/registry/service/NgsiLdParserService.kt:238-260 | succeeds exactly when every kept entry's value can be flattened; the result then holds exactly the entries other than type, @context and id whose value holds attributes, each with its flattened value |
| NgsiLdParserService.StringAttributeKept | src/main/kotlin/com/egm/datahub/context/registry/service/NgsiLdParserService.kt:240-246 | a string attribute that is not type, @context or id is kept as it is |
| NgsiLdParserService.Split | src/main/kotlin/com/egm/datahub/context/registry/service/NgsiLdParserService.kt:116 | `split` returns at least one part |
| NgsiLdParserService.RelationshipWithoutObjectSkipped | src/main/kotlin/com/egm/datahub/context/registry/service/NgsiLdParserService.kt:110-112 | a Relationship without an object is skipped: nothing is emitted and no uuid drawn |
| NgsiLdParserService.RelationshipNeverDescends | src/main/kotlin/com/egm/datahub/context/registry/service/NgsiLdParserService.kt:157-166 | a Relationship with an object never "has attributes", so the recursion under it is never taken |
| NgsiLdParserService.OnlyMapsDescend | src/main/kotlin/com/egm/datahub/context/registry/service/NgsiLdParserService.kt:96-209 | an item whose value is not an object emits nothing |
| NgsiLdParserService.PlainPropertyNotMaterialized | src/main/kotlin/com/egm/datahub/context/registry/service/NgsiLdParserService.kt:173-175 | a Property with just type and value stays in its parent node and emits nothing |
| NgsiLdParserService.NestedPropertyMaterialized | src/main/kotlin/com/egm/datahub/context/registry/service/NgsiLdParserService.kt:176-207 | any other Property draws one uuid, links the node to urn:ns:key:uuid by ngsild__hasObject, then descends into it under that urn |
| NgsiLdParserService.TransformNodeExtends | src/main/kotlin/com/egm/datahub/context/registry/service/NgsiLdParserService.kt:67-217 | the traversal only appends statements and draws uuids |
| NgsiLdParserService.TransformItemsExtends | src/main/kotlin/com/egm/datahub/context/registry/service/NgsiLdParserService.kt:96-210 | the same for the loop over a node's items |
| NgsiLdParserService.RelationshipLinksExtend | src/main/kotlin/com/egm/datahub/context/registry/service/NgsiLdParserService.kt:103-167 | the same for a relationship's statements |
| NgsiLdParserService.PropertyLinkExtends | src/main/kotlin/com/egm/datahub/context/registry/service/NgsiLdParserService.kt:179-198 | the same for a materialized property's link |
| NgsiLdParserService.TransformItemExtends | src/main/kotlin/com/egm/datahub/context/registry/service/NgsiLdParserService.kt:98-209 | the same for one item |
| NgsiLdParserService.ParseEntityMergesRootLast | src/main/kotlin/com/egm/datahub/context/registry/service/NgsiLdParserService.kt:52-65 | a parsed entity's urn is its id, and the last entity statement is the MERGE of the root node |
| NgsiLdParserService.RootUriIsId | src/main/kotlin/com/egm/datahub/context/registry/service/NgsiLdParserService.kt:77-86 | the root node's uri is the entity's id |
| NgsiLdParserService.CypherBuilder.constructor | src/main/kotlin/com/egm/datahub/context/registry/service/NgsiLdParserService.kt:56-61 | the traversal starts with no statements and no uuid drawn |
| NgsiLdParserService.CypherBuilder.Add | src/main/kotlin/com/egm/datahub/context/registry/service/NgsiLdParserService.kt:127-128 | the first statement of each list is appended to its accumulator |
| NgsiLdParserService.CypherBuilder.NextUuid | src/main/kotlin/com/egm/datahub/context/registry/service/NgsiLdParserService.kt:153-154 | the next uuid of the source, and one more drawn |
| NgsiLdParserService.CypherBuilder.LinkRelationship | src/main/kotlin/com/egm/datahub/context/registry/service/NgsiLdParserService.kt:103-156 | the node is unchanged; the statements and uuids are those of a relationship's links, nothing when it is skipped |
| NgsiLdParserService.CypherBuilder.LinkObject | src/main/kotlin/com/egm/datahub/context/registry/service/NgsiLdParserService.kt:114-150 | the node is unchanged; the statements are those of linking the node to the object and merging the object |
| NgsiLdParserService.CypherBuilder.MaterializeProperty | src/main/kotlin/com/egm/datahub/context/registry/service/NgsiLdParserService.kt:179-198 | the node is unchanged; the statements, the uuid and the urn are those of the materialized property |
| NgsiLdParserService.CypherBuilder.TransformItem | src/main/kotlin/com/egm/datahub/context/registry/service/NgsiLdParserService.kt:98-209 | the node is unchanged; the traversal reaches the state of one item's specification, or its failure |
| NgsiLdParserService.CypherBuilder.TransformItems | src/main/kotlin/com/egm/datahub/context/registry/service/NgsiLdParserService.kt:96-210 | the same for the loop over the items |
| NgsiLdParserService.CypherBuilder.TransformNode | src/main/kotlin/com/egm/datahub/context/registry/service/NgsiLdParserService.kt:67-217 | the statements emitted and the uuids drawn are those of `transformNgsiLdToCypher` |
| NgsiLdParserService.ParseEntity | src/main/kotlin/com/egm/datahub/context/registry/service/NgsiLdParserService.kt:52-65 | the result is that of parsing the payload and traversing it from the root |
| NgsiLdParserService.FindUri | src/main/kotlin/com/egm/datahub/context/registry/service/NgsiLdParserService.kt:364 | `find`: a property keyed uri when there is one, none exactly when no property has that key |
| NgsiLdParserService.GetPutAll | src/main/kotlin/com/egm/datahub/context/registry/service/NgsiLdParserService.kt:375-378 | `plus`: a key of the added map wins over the same key before |
| NgsiLdParserService.PropertyEntriesGet | src/main/kotlin/com/egm/datahub/context/registry/service/NgsiLdParserService.kt:366-373 | every property but uri becomes a Property of its last value |
| NgsiLdParserService.QueryResultFails | src/main/kotlin/com/egm/datahub/context/registry/service/NgsiLdParserService.kt:363-377 | the transformation fails exactly when there is no node, no uri property or no label |
| NgsiLdParserService.QueryResultShape | src/main/kotlin/com/egm/datahub/context/registry/service/NgsiLdParserService.kt:375-378 | @context is the three contexts; every other property is a Property of its value; id is the uri and type the first label |
| NgsiLdParserService.UpdateQueryAsWrittenIgnoresPayload | src/main/kotlin/com/egm/datahub/context/registry/service/NgsiLdParserService.kt:305-318 | as written, the payload string is the one key of its own map, so a query is produced only when the attribute name equals the whole payload |
| NgsiLdParserService.UpdateQueryAsWrittenDropsAttribute | src/main/kotlin/com/egm/datahub/context/registry/service/NgsiLdParserService.kt:305-318 | a payload naming the attribute gets no query as written, but does once the payload is read as a map |
| NgsiLdParserService.UpdateQueryOfPayload | src/main/kotlin/com/egm/datahub/context/registry/service/NgsiLdParserService.kt:305-318 | read as a map, a query is produced exactly when the payload holds the attribute with a non-null value, and the uri is always returned |
| NgsiLdParserService.UpdatedAttributesSet | src/main/kotlin/com/egm/datahub/context/registry/service/NgsiLdParserService.kt:311 | the merged attributes hold the uri, the timestamp as modifiedAt and the attribute's value |

## Left out

- JSON-LD expansion, compaction, term compaction, `expandJsonLdKey` and the `containsCoreContext` probe: these are the W3C JSON-LD 1.1 processor (sections 5.1 and 6.1 of its Processing Algorithms and API) and its document loader cache. They are function parameters (ports), not modelled.
- Persistence: the Neo4j, entity, property, relationship and attribute repositories are abstract maps. Their Cypher queries are not modelled. `getFullEntityById`, `searchEntities` and `exists` in the legacy Neo4jService, and the stored-entity reads of the handler, are ports.
- `Neo4jService.updateEntityAttribute` and `updateEntityLastMeasure`: the first is a single repository call. The second serves the observation pipeline, and its branches depend only on repository query results. Neither is modelled.
- The `EntityEvent` that the legacy `createEntity` publishes through Spring's application event publisher: an I/O side effect outside the graph. It is not modelled.
- Kafka sends, `@Async`, coroutines and `Mono` in the handler, and the observation event listener: only the order of the messages sent is kept, as the `sent` sequence.
- The authorization service: an oracle over the user and the entity ids. Only its queries are modelled.
- Create, CreateAnswer: `createAdminLinks` (EntityOperationHandler.kt:63) writes the admin rights of the user on the created entities into the authorization service, whose state is not part of this model; the call and its effect are left out.
- PrepareUpsert, Upsert: the same `createAdminLinks` call for the entities the upsert created (EntityOperationHandler.kt:117) is left out, for the same reason.
- ExtractContextFromInput, PayloadEvent: Kotlin's unchecked cast carries an @context array entry that is not a string, such as an inline context object, into the event as that value; the model carries it as its rendered JSON text. Events are sent for such entities as in the code.
- ParseEntity, GetDatasetId: `toUri()` on the entity's @id and on an instance's datasetId (NgsiLdEntity.kt:53, 414) is modelled as keeping the string unchanged; URI syntax checking is not modelled.
- Date and time parsing, and the int vs BigDecimal distinction of `getPropertyValueFromObject`: values are carried as JSON values with their literal text, never interpreted.
- Double coordinates and `toWktFormat`'s rendering of numbers: coordinates are opaque JSON numbers; the WKT text is not modelled.
- `isTemporalAttribute` in the search service has no branching of its own and is not modelled.
- Kafka's `Topic.validate`: an abstract predicate.
- Java's Unicode `Character.isLetterOrDigit`: approximated by ASCII letters and digits in the name checks.
- Gson and the regular expression of `formatAttributes`: a rendering function passed in `Env`, like Gson's `fromJson`.
- The UUID source and the clock of the Cypher translator are `Env` parameters. One timestamp is used for a whole traversal, where the code reads the clock at each `buildInsert`.
- `NgsiLdParserService.QueryResultToNgsiLd`: the node's numeric id is only logged and is not modelled. A query result whose "n" is not a NodeModel cannot be represented; a missing one is the cast failure.
- Error messages that interpolate a serialized JSON value, a Kotlin object or a class name keep only their fixed text.
- Attribute.kt (an interface), the build files and the test fixtures have no behaviour to model.
- EntityAttributeService: creating a missing attribute of an attribute is delegated to the entity service, which is not part of this model. The store logs each such call, and its boolean answer is a port.
- The Kotlin declarations of UpdateResult, UpdateAttributeResult, BatchOperationResult and the NodeModel of the registry are not part of this model; they are modelled as the code uses them.
- The registry's `NgsiLdParsingUtils` (expandValueAsMap, getRelationshipObjectId, getPropertyValueFromMap, isAttributeOfType, toRelationshipTypeName, extractShortTypeFromExpanded) is not part of this model. Its functions are `Ports` of `Neo4jService`.
- UpdatePropertyValuesStep, NewPropertyRecord, Neo4jService.LegacyGraph.UpdatePropertyValues: `Property.updateValues` (Neo4jService.kt:502) is not part of this model. The stored value, unit code and observation date are all replaced by those read from the payload, so an absent unitCode or observedAt clears the stored one; if `updateValues` keeps an old value when it is given null, the model does not capture that.
- UpdateAll, UpdateEntityAttributesStep, Neo4jService.LegacyGraph.UpdateEntityAttributes: what is written is stated per attribute (UpdateExistingListed); the walk over the payload is stated by its order (UpdateAllAppend) and by the names it lists (UpdateAllNames). There is no single closed statement of the final graph after a whole payload, whose attributes may write over each other.
- ParseGeoPropertyInstance, ParseEntity: use the corrected GeoValue of "## Findings". The model refuses a LineString or any other unsupported geometry with NotImplemented, where the code as written throws IllegalArgumentException (GeoValueAsWritten).
- AttributesOfAttribute, EntityRelationshipUpdate, EntityPropertyUpdate, PartialUpdate, EntityGraph.UpdateAttributeOfAttribute, EntityGraph.PartialUpdateAttributesOfAttribute, EntityGraph.PartialUpdateEntityRelationship, EntityGraph.PartialUpdateEntityProperty, EntityGraph.PartialUpdateEntityAttribute: use the corrected NestedAttributeValue of "## Findings". As written, every nested attribute fails the `asJsonObject()` cast (NestedAttributeValueAsWritten), so the code never updates an attribute of an attribute.
- NgsiLdToUpdateQuery: is the corrected reading of "## Findings", where the payload is parsed as a JSON map. The code as written looks the attribute up in the one-member map built from the whole payload string (NgsiLdToUpdateQueryAsWritten).
- ExtractAttributeInstance: is the corrected reading of "## Findings", where the datasetId's text is compared. The code as written fails the `as String?` cast for every present datasetId (ExtractAttributeInstanceAsWritten).
- FullNamed, TemporalAttributes: when several groups fail, the model reports the error of the first failing group that is not overwritten, in group order. The code as written reads each key's last group in the order of that key's first group. The two can report different errors only when two such groups fail with different exceptions.

## Findings

| source | as written | input that shows it | evidently intended | confidence | as-written member | corrected member |
|---|---|---|---|---|---|---|
| shared/src/main/kotlin/com/egm/stellio/shared/model/NgsiLdEntity.kt:266-268 | `GeoPropertyType.valueOf` runs on the geometry type before `extractCoordinates`, so any geometry other than Point or Polygon throws IllegalArgumentException | a GeoProperty whose geometry type is LineString | `extractCoordinates` refuses the geometry with NotImplemented (lines 315-318) | not executed | NgsiLdEntity.GeoValueAsWritten, NgsiLdEntity.UnsupportedGeometryOrder | NgsiLdEntity.GeoValue |
| entity-service/src/main/kotlin/com/egm/stellio/entity/service/EntityAttributeService.kt:181 | `asJsonObject()` is applied to the expanded value of a nested attribute, which is always a JSON array | a relationship instance carrying one nested Property | the nested attribute is read as its first instance, and the nested property is updated | not executed | EntityAttributeService.NestedAttributeValueAsWritten, EntityAttributeService.NestedAttributeCastAsWritten, EntityAttributeService.NestedAttributeExample | EntityAttributeService.NestedAttributeValue, EntityAttributeService.NestedPropertyUpdated |
| src/main/kotlin/com/egm/datahub/context/registry/service/NgsiLdParserService.kt:305-318 | the payload `String` is given to `expandObjToMap`, which maps a string s to the one-member map s to s, so the attribute is found only when its name is the whole payload | payload `{"name":"Bob"}`, attribute `name` | the payload is parsed as a JSON map and the attribute is looked up in it | not executed | NgsiLdParserService.NgsiLdToUpdateQueryAsWritten, NgsiLdParserService.UpdateQueryAsWrittenDropsAttribute | NgsiLdParserService.NgsiLdToUpdateQuery, NgsiLdParserService.UpdateQueryOfPayload |
| shared/src/main/kotlin/com/egm/stellio/shared/model/JsonLdEntity.kt:52 | `it["datasetId"] as String?` casts the instance's datasetId, a JSON value, to a String, which fails for any present datasetId | an attribute with one instance whose datasetId is set, looked up by that datasetId | the datasetId's text is compared with the one asked for | not executed | JsonLdEntity.ExtractAttributeInstanceAsWritten, JsonLdEntity.ExtractAttributeInstanceDatasetIdCast | JsonLdEntity.ExtractAttributeInstance |

## Where the code departs from the documented design

The model follows the code in each of these cases.

- `getLinkedEntitiesIds`: the documented behaviour traverses nested attributes of every kind. Each instance class overrides it with a traversal of its nested Relationships only (NgsiLdEntity.kt:221-222, 248-249, 335-336).
- A partial update that retargets a relationship to a missing entity is documented as refused. The code discards the boolean returned by `updateRelationshipTargetOfAttribute`, so the instance is still UPDATED (EntityAttributeService.kt:238-247).
- The attribute name check of an NgsiLdAttribute is in the superclass initializer. That runs only when the factory calls the constructor, after its instance, default-instance and datasetId checks (NgsiLdEntity.kt:94-96, 108-118).
- The legacy append tests for an existing relationship under the type name of the attribute's short name (Neo4jService.kt:377-378). The update path uses the type name of the full key (line 462).
