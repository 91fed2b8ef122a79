/** The JSON-LD helpers shared by every service of the broker: NGSI-LD terms,
    reading values out of expanded fragments, choosing the @context list a
    compaction uses, filtering an entity on attribute names, extracting the
    object of a Relationship and reshaping compacted Polygon GeoProperties.

    The JSON-LD processor itself (expansion, compaction, term compaction and
    the probe telling whether a context list embeds the core context) is not
    part of this model; the operations that call it take it as a parameter. */
module JsonLdUtils {
  import opened Wrappers
  import opened Json

  const NGSILD_CORE_CONTEXT := "https://uri.etsi.org/ngsi-ld/v1/ngsi-ld-core-context-v1.3.jsonld"

  const NGSILD_PROPERTY_TYPE := "https://uri.etsi.org/ngsi-ld/Property"
  const NGSILD_PROPERTY_VALUE := "https://uri.etsi.org/ngsi-ld/hasValue"
  const NGSILD_GEOPROPERTY_TYPE := "https://uri.etsi.org/ngsi-ld/GeoProperty"
  const NGSILD_GEOPROPERTY_VALUE := "https://uri.etsi.org/ngsi-ld/hasValue"
  const NGSILD_RELATIONSHIP_TYPE := "https://uri.etsi.org/ngsi-ld/Relationship"
  const NGSILD_RELATIONSHIP_HAS_OBJECT := "https://uri.etsi.org/ngsi-ld/hasObject"

  const JSONLD_ID := "@id"
  const JSONLD_TYPE := "@type"
  const JSONLD_VALUE_KW := "@value"
  const JSONLD_CONTEXT := "@context"
  const JSONLD_EXPANDED_ENTITY_MANDATORY_FIELDS: set<string> := {JSONLD_ID, JSONLD_TYPE, JSONLD_CONTEXT}
  const JSONLD_COMPACTED_ENTITY_MANDATORY_FIELDS: set<string> := {"id", "type", JSONLD_CONTEXT}

  const NGSILD_CREATED_AT_PROPERTY := "https://uri.etsi.org/ngsi-ld/createdAt"
  const NGSILD_MODIFIED_AT_PROPERTY := "https://uri.etsi.org/ngsi-ld/modifiedAt"
  const NGSILD_OBSERVED_AT_PROPERTY := "https://uri.etsi.org/ngsi-ld/observedAt"
  const NGSILD_UNIT_CODE_PROPERTY := "https://uri.etsi.org/ngsi-ld/unitCode"
  const NGSILD_LOCATION_PROPERTY := "https://uri.etsi.org/ngsi-ld/location"
  const NGSILD_COORDINATES_PROPERTY := "https://purl.org/geojson/vocab#coordinates"
  const NGSILD_POINT_PROPERTY := "https://purl.org/geojson/vocab#Point"
  const NGSILD_POLYGON_PROPERTY := "https://purl.org/geojson/vocab#Polygon"
  const NGSILD_DATASET_ID_PROPERTY := "https://uri.etsi.org/ngsi-ld/datasetId"

  const NGSILD_DATE_TIME_TYPE := "https://uri.etsi.org/ngsi-ld/DateTime"
  const NGSILD_DATE_TYPE := "https://uri.etsi.org/ngsi-ld/Date"
  const NGSILD_TIME_TYPE := "https://uri.etsi.org/ngsi-ld/Time"

  /** The media types the broker distinguishes. */
  datatype MediaType = ApplicationJson | JsonLd | OtherMediaType(name: string)

  // ---------------------------------------------------------------------
  // NGSI-LD attribute types in compacted form

  datatype NgsiLdAttributeType = PROPERTY | GEOPROPERTY | RELATIONSHIP {
    function Value(): string {
      match this
      case PROPERTY => "Property"
      case GEOPROPERTY => "GeoProperty"
      case RELATIONSHIP => "Relationship"
    }
  }

  /** `NgsiLdAttributeType.forString`: the first enum entry, in declaration
      order, whose value is `key`. */
  function ForString(key: string): (r: Option<NgsiLdAttributeType>)
    ensures r.Some? ==> r.value.Value() == key
    ensures r.None? <==> key !in {"Property", "GeoProperty", "Relationship"}
  {
    if key == PROPERTY.Value() then Some(PROPERTY)
    else if key == GEOPROPERTY.Value() then Some(GEOPROPERTY)
    else if key == RELATIONSHIP.Value() then Some(RELATIONSHIP)
    else None
  }

  lemma ForStringRoundTrip(t: NgsiLdAttributeType)
    ensures ForString(t.Value()) == Some(t)
  {
  }

  /** `JsonObject.typeOfAttribute()`: reads the compacted "type" member, which
      must be present and a string. */
  function TypeOfAttribute(ms: Members): Result<Option<NgsiLdAttributeType>> {
    var t :- Present(Get(ms, "type"));
    var s :- AsString(t);
    Ok(ForString(s))
  }

  // ---------------------------------------------------------------------
  // Short names

  /** `substringAfterLast(c)`: the part of `s` after the last `c`, or all of
      `s` when it holds no `c`. */
  function AfterLast(s: string, c: char): string {
    if s == [] then s
    else if s[|s| - 1] == c then []
    else AfterLast(s[..|s| - 1], c) + [s[|s| - 1]]
  }

  /** What `substringAfterLast` returns: free of `c`, all of `s` when `s`
      holds no `c`, and otherwise preceded by a `c`. */
  lemma {:induction false} AfterLastIsLastSegment(s: string, c: char)
    ensures c !in AfterLast(s, c)
    ensures c !in s ==> AfterLast(s, c) == s
    ensures c in s ==> |AfterLast(s, c)| < |s| && s[|s| - |AfterLast(s, c)| - 1] == c
    decreases |s|
  {
    if s != [] && s[|s| - 1] != c {
      var init := s[..|s| - 1];
      AfterLastIsLastSegment(init, c);
      AfterLastIsSuffix(init, c);
      assert s == init + [s[|s| - 1]];
    }
  }

  /** `substringAfterLast` returns a suffix of `s`. */
  lemma {:induction false} AfterLastIsSuffix(s: string, c: char)
    ensures |AfterLast(s, c)| <= |s| && AfterLast(s, c) == s[|s| - |AfterLast(s, c)|..]
    decreases |s|
  {
    if s != [] && s[|s| - 1] != c {
      var init := s[..|s| - 1];
      AfterLastIsSuffix(init, c);
      assert s == init + [s[|s| - 1]];
    }
  }

  /** `extractShortTypeFromExpanded`: the last segment of an expanded term,
      after its last '/' and then after its last '#'. */
  function ShortType(expanded: string): string {
    AfterLast(AfterLast(expanded, '/'), '#')
  }

  /** The short type holds neither '/' nor '#'. */
  lemma ShortTypeIsLastSegment(expanded: string)
    ensures '/' !in ShortType(expanded) && '#' !in ShortType(expanded)
  {
    var afterSlash := AfterLast(expanded, '/');
    AfterLastIsLastSegment(expanded, '/');
    AfterLastIsLastSegment(afterSlash, '#');
    AfterLastIsSuffix(afterSlash, '#');
    assert forall x :: x in ShortType(expanded) ==> x in afterSlash;
  }

  /** The short type is a suffix of the expanded term. */
  lemma ShortTypeIsSuffix(expanded: string)
    ensures |ShortType(expanded)| <= |expanded|
    ensures ShortType(expanded) == expanded[|expanded| - |ShortType(expanded)|..]
  {
    var afterSlash := AfterLast(expanded, '/');
    AfterLastIsSuffix(expanded, '/');
    AfterLastIsSuffix(afterSlash, '#');
    SuffixOfSuffix(expanded, afterSlash, ShortType(expanded));
  }

  /** A term holding neither '/' nor '#' is its own short type. */
  lemma ShortTypeOfPlainName(expanded: string)
    requires '/' !in expanded && '#' !in expanded
    ensures ShortType(expanded) == expanded
  {
    AfterLastIsLastSegment(expanded, '/');
    AfterLastIsLastSegment(expanded, '#');
  }

  lemma SuffixOfSuffix(a: string, b: string, c: string)
    requires |b| <= |a| && b == a[|a| - |b|..]
    requires |c| <= |b| && c == b[|b| - |c|..]
    ensures c == a[|a| - |c|..]
  {
    assert forall i :: 0 <= i < |c| ==> c[i] == b[|b| - |c| + i] == a[|a| - |c| + i];
  }

  lemma {:induction false} AfterLastOfSuffix(prefix: string, c: char, term: string)
    requires c !in term
    ensures AfterLast(prefix + [c] + term, c) == term
    decreases |term|
  {
    var s := prefix + [c] + term;
    if term != [] {
      var shorter := term[..|term| - 1];
      assert s[..|s| - 1] == prefix + [c] + shorter;
      AfterLastOfSuffix(prefix, c, shorter);
      assert term == shorter + [term[|term| - 1]];
    }
  }

  /** The short name of a term in a '/'-namespace is the term itself. */
  lemma ShortTypeOfTerm(namespace: string, term: string)
    requires '/' !in term && '#' !in term
    ensures ShortType(namespace + "/" + term) == term
  {
    AfterLastOfSuffix(namespace, '/', term);
    AfterLastIsLastSegment(term, '#');
  }

  /** The short name of a term in a '#'-namespace whose last '/' comes before the '#'. */
  lemma ShortTypeOfHashTerm(namespace: string, vocab: string, term: string)
    requires '/' !in vocab && '#' !in vocab && '/' !in term && '#' !in term
    ensures ShortType(namespace + "/" + vocab + "#" + term) == term
  {
    assert namespace + "/" + vocab + "#" + term == namespace + "/" + (vocab + "#" + term);
    AfterLastOfSuffix(namespace, '/', vocab + "#" + term);
    AfterLastOfSuffix(vocab, '#', term);
  }

  // ---------------------------------------------------------------------
  // Reading values out of an expanded attribute instance

  datatype TemporalKind = DateTime | Date | Time

  /** What `getPropertyValueFromObject` returns, by the Kotlin type it has. */
  datatype PropValue =
    | Text(s: string)                       // a String
    | Number(text: string)                  // an Int or a BigDecimal
    | Temporal(kind: TemporalKind, lexical: string) // a ZonedDateTime, LocalDate or LocalTime
    | TypedValue(v: Json)                   // the @value of a value object with another @type, kept as JSON
    | ObjectValue(entry: Members)           // a nested object, kept as is
    | ValueList(items: seq<Option<Json>>)   // the @value of each entry of a multi-valued member

  function TemporalKindOf(t: string): Option<TemporalKind> {
    if t == NGSILD_DATE_TIME_TYPE then Some(DateTime)
    else if t == NGSILD_DATE_TYPE then Some(Date)
    else if t == NGSILD_TIME_TYPE then Some(Time)
    else None
  }

  /** `getPropertyValueFromObject`: the value held under `key` in an expanded
      instance, or none when `key` is absent. */
  function PropertyValueFromObject(value: Members, key: string): Result<Option<PropValue>> {
    match Get(value, key)
    case None => Ok(None)
    case Some(v) =>
      var list :- AsArray(v);
      if |list| == 1 then
        var entry :- AsObject(list[0]);
        SingleEntryValue(entry)
      else
        Ok(Some(ValueList(seq(|list|, i requires 0 <= i < |list| =>
          if list[i].JObj? then Get(list[i].members, JSONLD_VALUE_KW) else None))))
  }

  function SingleEntryValue(entry: Members): Result<Option<PropValue>> {
    var valueType := Get(entry, JSONLD_TYPE);
    var value := Get(entry, JSONLD_VALUE_KW);
    if valueType.Some? && valueType.value.JStr? then
      var kind := TemporalKindOf(valueType.value.s);
      if kind.Some? then
        // parse(null) when the @value is not a string
        if value.Some? && value.value.JStr? then Ok(Some(Temporal(kind.value, value.value.s)))
        else Err(Crash("NullPointerException"))
      else if value.Some? then Ok(Some(TypedValue(value.value)))
      else Ok(None)
    else if value.Some? then
      match value.value
      case JStr(s) => Ok(Some(Text(s)))
      case JNum(n) => Ok(Some(Number(n)))
      case _ => Ok(Some(Text(Render(value.value))))
    else if HasKey(entry, JSONLD_ID) then
      var id :- AsString(Get(entry, JSONLD_ID).value);
      Ok(Some(Text(id)))
    else Ok(Some(ObjectValue(entry)))
  }

  /** `getPropertyValueAsDateTime`: the value when it is a date-time. */
  function PropertyValueAsDateTime(values: Members, key: string): (r: Result<Option<string>>)
    ensures r.Ok? <==> PropertyValueFromObject(values, key).Ok?
    ensures forall t :: r == Ok(Some(t)) <==> PropertyValueFromObject(values, key) == Ok(Some(Temporal(DateTime, t)))
  {
    var v :- PropertyValueFromObject(values, key);
    Ok(if v.Some? && v.value.Temporal? && v.value.kind == DateTime then Some(v.value.lexical) else None)
  }

  /** `getPropertyValueAsString`: the value when it is a string. */
  function PropertyValueAsString(values: Members, key: string): (r: Result<Option<string>>)
    ensures r.Ok? <==> PropertyValueFromObject(values, key).Ok?
    ensures forall t :: r == Ok(Some(t)) <==> PropertyValueFromObject(values, key) == Ok(Some(Text(t)))
  {
    var v :- PropertyValueFromObject(values, key);
    Ok(if v.Some? && v.value.Text? then Some(v.value.s) else None)
  }

  /** The cases of `getPropertyValueFromObject`: an absent key reads as none,
      a value that is not an array fails the `asJsonArray` cast, a single
      value object `[{"@value": s}]` reads as the string `s`, a single
      date-time value object as that date-time, and any other number of
      entries as the list of their `@value`s, one per entry. */
  lemma PropertyValueCases(value: Members, key: string)
    ensures !HasKey(value, key) ==> PropertyValueFromObject(value, key) == Ok(None)
    ensures HasKey(value, key) && !Get(value, key).value.JArr? ==>
              PropertyValueFromObject(value, key) == Err(Crash("ClassCastException"))
    ensures forall s :: Get(value, key) == Some(JArr([JObj([Member(JSONLD_VALUE_KW, JStr(s))])])) ==>
              PropertyValueFromObject(value, key) == Ok(Some(Text(s)))
    ensures forall s :: Get(value, key) == Some(JArr([JObj([Member(JSONLD_TYPE, JStr(NGSILD_DATE_TIME_TYPE)),
                                                             Member(JSONLD_VALUE_KW, JStr(s))])])) ==>
              PropertyValueFromObject(value, key) == Ok(Some(Temporal(DateTime, s)))
    ensures forall es: seq<Json> :: Get(value, key) == Some(JArr(es)) && |es| != 1 ==>
              var r := PropertyValueFromObject(value, key);
              r.Ok? && r.value.Some? && r.value.value.ValueList? && |r.value.value.items| == |es|
  {
    PropertyValueAbsentOrScalar(value, key);
    forall s | Get(value, key) == Some(JArr([JObj([Member(JSONLD_VALUE_KW, JStr(s))])]))
      ensures PropertyValueFromObject(value, key) == Ok(Some(Text(s)))
    {
      PropertyValueText(value, key, s);
    }
    forall s | Get(value, key) == Some(JArr([JObj([Member(JSONLD_TYPE, JStr(NGSILD_DATE_TIME_TYPE)),
                                                  Member(JSONLD_VALUE_KW, JStr(s))])]))
      ensures PropertyValueFromObject(value, key) == Ok(Some(Temporal(DateTime, s)))
    {
      PropertyValueDateTime(value, key, s);
    }
    forall es: seq<Json> | Get(value, key) == Some(JArr(es)) && |es| != 1
      ensures var r := PropertyValueFromObject(value, key);
        r.Ok? && r.value.Some? && r.value.value.ValueList? && |r.value.value.items| == |es|
    {
      PropertyValueList(value, key, es);
    }
  }

  lemma PropertyValueAbsentOrScalar(value: Members, key: string)
    ensures !HasKey(value, key) ==> PropertyValueFromObject(value, key) == Ok(None)
    ensures HasKey(value, key) && !Get(value, key).value.JArr? ==>
              PropertyValueFromObject(value, key) == Err(Crash("ClassCastException"))
  {
  }

  lemma PropertyValueText(value: Members, key: string, s: string)
    requires Get(value, key) == Some(JArr([JObj([Member(JSONLD_VALUE_KW, JStr(s))])]))
    ensures PropertyValueFromObject(value, key) == Ok(Some(Text(s)))
  {
    var entry := [Member(JSONLD_VALUE_KW, JStr(s))];
    assert Get(entry, JSONLD_TYPE) == None;
    assert Get(entry, JSONLD_VALUE_KW) == Some(JStr(s));
  }

  lemma PropertyValueDateTime(value: Members, key: string, s: string)
    requires Get(value, key) == Some(JArr([JObj([Member(JSONLD_TYPE, JStr(NGSILD_DATE_TIME_TYPE)),
                                                 Member(JSONLD_VALUE_KW, JStr(s))])]))
    ensures PropertyValueFromObject(value, key) == Ok(Some(Temporal(DateTime, s)))
  {
    var entry := [Member(JSONLD_TYPE, JStr(NGSILD_DATE_TIME_TYPE)), Member(JSONLD_VALUE_KW, JStr(s))];
    assert Get(entry, JSONLD_TYPE) == Some(JStr(NGSILD_DATE_TIME_TYPE));
    assert Get(entry, JSONLD_VALUE_KW) == Some(JStr(s));
  }

  lemma PropertyValueList(value: Members, key: string, es: seq<Json>)
    requires Get(value, key) == Some(JArr(es)) && |es| != 1
    ensures var r := PropertyValueFromObject(value, key);
      r.Ok? && r.value.Some? && r.value.value.ValueList? && |r.value.value.items| == |es|
  {
  }

  /** A datasetId, expanded as `[{"@id": d}]`, reads back as the string `d`. */
  lemma DatasetIdValue(d: string)
    ensures PropertyValueFromObject([Member(NGSILD_DATASET_ID_PROPERTY, JArr([JObj([Member(JSONLD_ID, JStr(d))])]))],
                                    NGSILD_DATASET_ID_PROPERTY) == Ok(Some(Text(d)))
  {
    var entry := [Member(JSONLD_ID, JStr(d))];
    assert Get(entry, JSONLD_TYPE) == None;
    assert Get(entry, JSONLD_VALUE_KW) == None;
    assert Get(entry, JSONLD_ID) == Some(JStr(d));
  }

  // ---------------------------------------------------------------------
  // getAttributeFromExpandedFragment

  /** Whether an instance of an expanded attribute is the one of `datasetId`
      (the default instance when `datasetId` is none). */
  function InstanceMatches(instance: Json, datasetId: Option<string>): Result<bool> {
    if !instance.JObj? then Ok(false)
    else if datasetId.None? then Ok(!HasKey(instance.members, NGSILD_DATASET_ID_PROPERTY))
    else
      var v :- PropertyValueFromObject(instance.members, NGSILD_DATASET_ID_PROPERTY);
      Ok(v == Some(Text(datasetId.value)))
  }

  /** `find` over the instances with `InstanceMatches`. */
  function FindInstance(instances: seq<Json>, datasetId: Option<string>): (r: Result<Option<Json>>)
    ensures r.Ok? && r.value.Some? ==>
      exists i :: 0 <= i < |instances| && instances[i] == r.value.value &&
        InstanceMatches(instances[i], datasetId) == Ok(true) &&
        forall j :: 0 <= j < i ==> InstanceMatches(instances[j], datasetId) == Ok(false)
    ensures r == Ok(None) <==> forall i :: 0 <= i < |instances| ==> InstanceMatches(instances[i], datasetId) == Ok(false)
  {
    if instances == [] then Ok(None)
    else
      var here :- InstanceMatches(instances[0], datasetId);
      if here then Ok(Some(instances[0]))
      else
        var rest := FindInstance(instances[1..], datasetId);
        TailIndex(instances);
        rest
  }

  /** `find` finds an instance that is there: the first matching instance,
      after instances that all do not match, is the one returned. */
  lemma {:induction false} FindInstanceFound(instances: seq<Json>, datasetId: Option<string>, i: nat)
    requires i < |instances| && InstanceMatches(instances[i], datasetId) == Ok(true)
    requires forall j :: 0 <= j < i ==> InstanceMatches(instances[j], datasetId) == Ok(false)
    ensures FindInstance(instances, datasetId) == Ok(Some(instances[i]))
    decreases i
  {
    if i > 0 {
      TailIndex(instances);
      FindInstanceFound(instances[1..], datasetId, i - 1);
    }
  }

  /** `getAttributeFromExpandedFragment`: the instance of attribute `name`
      whose datasetId is `datasetId`. */
  function AttributeFromExpandedFragment(fragment: Members, name: string, datasetId: Option<string>): (r: Result<Option<Json>>)
    ensures !HasKey(fragment, name) ==> r == Ok(None)
    ensures HasKey(fragment, name) && !Get(fragment, name).value.JArr? ==> r == Err(Crash("ClassCastException"))
    ensures HasKey(fragment, name) && Get(fragment, name).value.JArr? ==>
      r == FindInstance(Get(fragment, name).value.elems, datasetId)
    ensures r.Ok? && r.value.Some? ==>
      r.value.value.JObj? && Get(fragment, name).Some? && Get(fragment, name).value.JArr? &&
      r.value.value in Get(fragment, name).value.elems &&
      (datasetId.None? ==> !HasKey(r.value.value.members, NGSILD_DATASET_ID_PROPERTY)) &&
      (datasetId.Some? ==>
         PropertyValueFromObject(r.value.value.members, NGSILD_DATASET_ID_PROPERTY) == Ok(Some(Text(datasetId.value))))
  {
    if !HasKey(fragment, name) then Ok(None)
    else
      var instances :- AsArray(Get(fragment, name).value);
      FindInstance(instances, datasetId)
  }

  // ---------------------------------------------------------------------
  // The @context list of a compaction

  function Count(s: seq<string>, x: string): nat {
    if s == [] then 0 else (if s[0] == x then 1 else 0) + Count(s[1..], x)
  }

  /** `filter { it != x }` */
  function Drop(s: seq<string>, x: string): (r: seq<string>)
    ensures x !in r
    ensures forall y :: y != x ==> (y in r <==> y in s)
    ensures Count(r, x) == 0
  {
    if s == [] then [] else if s[0] == x then Drop(s[1..], x) else [s[0]] + Drop(s[1..], x)
  }

  lemma {:induction false} CountAppend(s: seq<string>, t: seq<string>, x: string)
    ensures Count(s + t, x) == Count(s, x) + Count(t, x)
  {
    if s == [] {
      assert s + t == t;
    } else {
      assert (s + t)[0] == s[0] && (s + t)[1..] == s[1..] + t;
      CountAppend(s[1..], t, x);
    }
  }

  lemma {:induction false} DropAppend(s: seq<string>, t: seq<string>, x: string)
    ensures Drop(s + t, x) == Drop(s, x) + Drop(t, x)
  {
    if s == [] {
      assert s + t == t;
    } else {
      assert (s + t)[0] == s[0] && (s + t)[1..] == s[1..] + t;
      DropAppend(s[1..], t, x);
    }
  }

  lemma {:induction false} CountAbsent(s: seq<string>, x: string)
    requires x !in s
    ensures Count(s, x) == 0 && Drop(s, x) == s
  {
    if s != [] {
      CountAbsent(s[1..], x);
    }
  }

  /** The context list `compact` hands to the processor: the core context is
      added when missing, or moved to the end when present, unless the
      contexts already embed it. */
  function AllContexts(contexts: seq<string>, containsCoreContext: seq<string> -> bool): (r: seq<string>)
    ensures contexts == [] ==> r == [NGSILD_CORE_CONTEXT]
    ensures NGSILD_CORE_CONTEXT in contexts || !containsCoreContext(contexts) ==>
      |r| > 0 && r[|r| - 1] == NGSILD_CORE_CONTEXT && Count(r, NGSILD_CORE_CONTEXT) == 1
    ensures Drop(r, NGSILD_CORE_CONTEXT) == Drop(contexts, NGSILD_CORE_CONTEXT)
    ensures NGSILD_CORE_CONTEXT !in contexts && containsCoreContext(contexts) && contexts != [] ==> r == contexts
  {
    var core := NGSILD_CORE_CONTEXT;
    if contexts == [] then [core]
    else if core in contexts then
      var r := Drop(contexts, core) + [core];
      CountAppend(Drop(contexts, core), [core], core);
      DropAppend(Drop(contexts, core), [core], core);
      CountAbsent(Drop(contexts, core), core);
      r
    else if containsCoreContext(contexts) then contexts
    else
      CountAbsent(contexts, core);
      CountAppend(contexts, [core], core);
      DropAppend(contexts, [core], core);
      contexts + [core]
  }

  /** `createContextDocument`: the core context is appended when asked and
      not resolved by the given contexts. */
  function ContextDocument(contexts: seq<string>, addCoreContextIfMissing: bool,
                           containsCoreContext: seq<string> -> bool): (r: seq<string>)
    ensures addCoreContextIfMissing && !containsCoreContext(contexts) ==> r == contexts + [NGSILD_CORE_CONTEXT]
    ensures !addCoreContextIfMissing || containsCoreContext(contexts) ==> r == contexts
  {
    if addCoreContextIfMissing && !containsCoreContext(contexts) then contexts + [NGSILD_CORE_CONTEXT] else contexts
  }

  /** `compact`: the processor compacts the entity against the chosen
      contexts; the result never carries the processor's own @context and,
      except for plain JSON, carries the chosen contexts instead. */
  function Compact(properties: Members, contexts: seq<string>, mediaType: MediaType,
                   compactor: (Members, seq<string>) -> Members,
                   containsCoreContext: seq<string> -> bool): (r: Members)
    ensures mediaType == ApplicationJson ==> !HasKey(r, JSONLD_CONTEXT)
    ensures mediaType != ApplicationJson ==>
      Get(r, JSONLD_CONTEXT) == Some(ContextArray(AllContexts(contexts, containsCoreContext)))
    ensures forall k :: k != JSONLD_CONTEXT ==>
      Get(r, k) == Get(compactor(properties, ContextDocument(AllContexts(contexts, containsCoreContext), true, containsCoreContext)), k)
  {
    var allContexts := AllContexts(contexts, containsCoreContext);
    var compacted := compactor(properties, ContextDocument(allContexts, true, containsCoreContext));
    var withoutContext := Without(compacted, {JSONLD_CONTEXT});
    if mediaType == ApplicationJson then withoutContext
    else Put(withoutContext, JSONLD_CONTEXT, ContextArray(allContexts))
  }

  /** `compactFragment`: the processor compacts a fragment against the
      contexts, the core context added when they do not resolve it. */
  function CompactFragment(value: Members, contexts: seq<string>, compactor: (Members, seq<string>) -> Members,
                           containsCoreContext: seq<string> -> bool): Members {
    compactor(value, ContextDocument(contexts, true, containsCoreContext))
  }

  /** `compactAndSerializeFragment`: the compacted fragment without its
      @context, serialized. */
  function CompactAndSerializeFragment(value: Members, contexts: seq<string>, compactor: (Members, seq<string>) -> Members,
                                       containsCoreContext: seq<string> -> bool): string {
    Render(JObj(Without(CompactFragment(value, contexts, compactor, containsCoreContext), {JSONLD_CONTEXT})))
  }

  /** `compactAndSerialize`: the compacted entity, serialized. */
  function CompactAndSerialize(properties: Members, contexts: seq<string>, mediaType: MediaType,
                               compactor: (Members, seq<string>) -> Members,
                               containsCoreContext: seq<string> -> bool): string {
    Render(JObj(Compact(properties, contexts, mediaType, compactor, containsCoreContext)))
  }

  function ContextArray(contexts: seq<string>): Json {
    JArr(seq(|contexts|, i requires 0 <= i < |contexts| => JStr(contexts[i])))
  }

  /** `addContextsToEntity`: plain JSON carries no @context; otherwise the
      @context member is set to the contexts. */
  function AddContextsToEntity(element: Members, contexts: seq<string>, mediaType: MediaType): (r: Members)
    ensures mediaType == ApplicationJson ==> r == element
    ensures mediaType != ApplicationJson ==>
      Get(r, JSONLD_CONTEXT) == Some(ContextArray(contexts)) &&
      forall k :: k != JSONLD_CONTEXT ==> Get(r, k) == Get(element, k)
  {
    if mediaType == ApplicationJson then element else Put(element, JSONLD_CONTEXT, ContextArray(contexts))
  }

  /** `extractContextFromInput`, on the parsed input: no @context gives no
      contexts, a list gives its entries as they are (the cast to
      `List<String>` is unchecked, so nothing fails), a string gives itself,
      anything else gives none. */
  function ExtractContextFromInput(parsedInput: Members): (r: seq<string>)
  {
    match Get(parsedInput, JSONLD_CONTEXT)
    case None => []
    case Some(JArr(es)) => seq(|es|, i requires 0 <= i < |es| => ContextEntry(es[i]))
    case Some(JStr(s)) => [s]
    case Some(_) => []
  }

  /** One entry of an @context list: a string is itself, any other value is
      carried as its JSON text. */
  function ContextEntry(j: Json): string {
    if j.JStr? then j.s else Render(j)
  }

  /** The contexts read from the input, case by case, and every entry of a
      list kept in its place. */
  lemma ExtractContextCases(parsedInput: Members)
    ensures !HasKey(parsedInput, JSONLD_CONTEXT) ==> ExtractContextFromInput(parsedInput) == []
    ensures forall s :: Get(parsedInput, JSONLD_CONTEXT) == Some(JStr(s)) ==> ExtractContextFromInput(parsedInput) == [s]
    ensures forall es: seq<Json> :: Get(parsedInput, JSONLD_CONTEXT) == Some(JArr(es)) ==>
      |ExtractContextFromInput(parsedInput)| == |es| &&
      forall i :: 0 <= i < |es| ==> ExtractContextFromInput(parsedInput)[i] == ContextEntry(es[i])
    ensures (Get(parsedInput, JSONLD_CONTEXT).Some? && !Get(parsedInput, JSONLD_CONTEXT).value.JArr? &&
      !Get(parsedInput, JSONLD_CONTEXT).value.JStr?) ==> ExtractContextFromInput(parsedInput) == []
  {
  }

  /** A list of strings round-trips: its entries are exactly the contexts. */
  lemma ExtractContextStrings(parsedInput: Members, es: seq<Json>)
    requires Get(parsedInput, JSONLD_CONTEXT) == Some(JArr(es))
    requires forall i :: 0 <= i < |es| ==> es[i].JStr?
    ensures |ExtractContextFromInput(parsedInput)| == |es|
    ensures forall i :: 0 <= i < |es| ==> es[i] == JStr(ExtractContextFromInput(parsedInput)[i])
  {
  }

  /** `removeContextFromInput`, on the parsed input. */
  function RemoveContextFromInput(parsedInput: Members): (r: Members)
    ensures !HasKey(r, JSONLD_CONTEXT)
    ensures forall k :: k != JSONLD_CONTEXT ==> Get(r, k) == Get(parsedInput, k)
    ensures !HasKey(parsedInput, JSONLD_CONTEXT) ==> r == parsedInput
  {
    if HasKey(parsedInput, JSONLD_CONTEXT) then Without(parsedInput, {JSONLD_CONTEXT})
    else parsedInput
  }

  // ---------------------------------------------------------------------
  // filterEntityOnAttributes

  /** `filterEntityOnAttributes`: no requested attributes keeps the entity as
      is; otherwise only the mandatory members and the requested attributes
      remain, in their original order. Shared by the expanded and compacted
      variants, which differ in their mandatory fields. */
  function FilterEntityOnAttributes(input: Members, includedAttributes: set<string>, isExpandedForm: bool): (r: Members)
    ensures includedAttributes == {} ==> r == input
    ensures includedAttributes != {} ==>
      var mandatory := if isExpandedForm then JSONLD_EXPANDED_ENTITY_MANDATORY_FIELDS else JSONLD_COMPACTED_ENTITY_MANDATORY_FIELDS;
      (forall m :: m in r <==> m in input && (m.key in mandatory || m.key in includedAttributes)) &&
      (forall k :: Get(r, k) == if k in mandatory || k in includedAttributes then Get(input, k) else None)
  {
    if includedAttributes == {} then input
    else
      var mandatoryFields := if isExpandedForm then JSONLD_EXPANDED_ENTITY_MANDATORY_FIELDS else JSONLD_COMPACTED_ENTITY_MANDATORY_FIELDS;
      Only(input, mandatoryFields + includedAttributes)
  }

  // ---------------------------------------------------------------------
  // extractRelationshipObject

  function HasObjectStep(name: string, values: Members): Result<Json> {
    if !HasKey(values, NGSILD_RELATIONSHIP_HAS_OBJECT) then
      Err(BadRequestData("Relationship " + name + " does not have an object field"))
    else Ok(Get(values, NGSILD_RELATIONSHIP_HAS_OBJECT).value)
  }

  function FirstObjectStep(name: string, hasObject: Json): Result<Json> {
    var objects :- AsArray(hasObject);
    if objects == [] then Err(BadRequestData("Relationship " + name + " is empty"))
    else Ok(objects[0])
  }

  function ObjectIdStep(name: string, first: Json): Result<Json> {
    if !first.JObj? then Err(BadRequestData("Relationship " + name + " has an invalid object type"))
    else if !HasKey(first.members, JSONLD_ID) then Err(BadRequestData("Relationship " + name + " has an invalid or no object id"))
    else Ok(Get(first.members, JSONLD_ID).value)
  }

  function ObjectUriStep(name: string, id: Json): Result<string> {
    if !id.JStr? then Err(BadRequestData("Relationship " + name + " has an invalid object id type"))
    else Ok(id.s)
  }

  /** A flat statement of the instances `extractRelationshipObject` accepts:
      the first entry of hasObject is an object whose @id is the string `u`. */
  ghost predicate HasObjectUri(values: Members, u: string) {
    var hasObject := Get(values, NGSILD_RELATIONSHIP_HAS_OBJECT);
    hasObject.Some? && hasObject.value.JArr? && |hasObject.value.elems| > 0 &&
    hasObject.value.elems[0].JObj? && Get(hasObject.value.elems[0].members, JSONLD_ID) == Some(JStr(u))
  }

  /** `extractRelationshipObject`: the object URI of a Relationship instance,
      through four checks whose first failure names the error. */
  function ExtractRelationshipObject(name: string, values: Members): (r: Result<string>)
    ensures forall u :: r == Ok(u) <==> HasObjectUri(values, u)
    ensures !HasKey(values, NGSILD_RELATIONSHIP_HAS_OBJECT) ==>
      r == Err(BadRequestData("Relationship " + name + " does not have an object field"))
    ensures Get(values, NGSILD_RELATIONSHIP_HAS_OBJECT) == Some(JArr([])) ==>
      r == Err(BadRequestData("Relationship " + name + " is empty"))
    ensures var hasObject := Get(values, NGSILD_RELATIONSHIP_HAS_OBJECT);
      hasObject.Some? && hasObject.value.JArr? && |hasObject.value.elems| > 0 ==>
      var first := hasObject.value.elems[0];
      (!first.JObj? ==> r == Err(BadRequestData("Relationship " + name + " has an invalid object type"))) &&
      (first.JObj? && !HasKey(first.members, JSONLD_ID) ==>
         r == Err(BadRequestData("Relationship " + name + " has an invalid or no object id"))) &&
      (first.JObj? && HasKey(first.members, JSONLD_ID) && !Get(first.members, JSONLD_ID).value.JStr? ==>
         r == Err(BadRequestData("Relationship " + name + " has an invalid object id type")))
    ensures Get(values, NGSILD_RELATIONSHIP_HAS_OBJECT).Some? && !Get(values, NGSILD_RELATIONSHIP_HAS_OBJECT).value.JArr? ==>
      r == Err(Crash("ClassCastException"))
  {
    var hasObject :- HasObjectStep(name, values);
    var first :- FirstObjectStep(name, hasObject);
    var id :- ObjectIdStep(name, first);
    ObjectUriStep(name, id)
  }

  lemma RelationshipObjectExamples(name: string)
    ensures ExtractRelationshipObject(name, [Member(NGSILD_RELATIONSHIP_HAS_OBJECT,
              JArr([JObj([Member(JSONLD_ID, JStr("urn:ngsi-ld:T:1"))])]))]) == Ok("urn:ngsi-ld:T:1")
    ensures ExtractRelationshipObject(name, [Member(NGSILD_RELATIONSHIP_HAS_OBJECT, JArr([JStr("invalid")]))])
              == Err(BadRequestData("Relationship " + name + " has an invalid object type"))
  {
    var target := JObj([Member(JSONLD_ID, JStr("urn:ngsi-ld:T:1"))]);
    assert Get([Member(NGSILD_RELATIONSHIP_HAS_OBJECT, JArr([target]))], NGSILD_RELATIONSHIP_HAS_OBJECT) == Some(JArr([target]));
    assert Get(target.members, JSONLD_ID) == Some(JStr("urn:ngsi-ld:T:1"));
    assert HasObjectUri([Member(NGSILD_RELATIONSHIP_HAS_OBJECT, JArr([target]))], "urn:ngsi-ld:T:1");
    assert Get([Member(NGSILD_RELATIONSHIP_HAS_OBJECT, JArr([JStr("invalid")]))], NGSILD_RELATIONSHIP_HAS_OBJECT)
      == Some(JArr([JStr("invalid")]));
  }

  // ---------------------------------------------------------------------
  // reconstructPolygonCoordinates

  const POLYGON := "Polygon"

  /** The `filterValues` condition: a compacted GeoProperty whose value is a
      Polygon.  Reading "type" of the value fails when the value or its type
      is missing. */
  function IsCompactedPolygon(v: Json): Result<bool> {
    if !v.JObj? then Ok(false)
    else
      var t :- TypeOfAttribute(v.members);
      if t != Some(GEOPROPERTY) then Ok(false)
      else
        var value :- Present(Get(v.members, "value"));
        var valueMembers :- AsObject(value);
        var geometry :- Present(Get(valueMembers, "type"));
        var geometryType :- AsString(geometry);
        Ok(geometryType == POLYGON)
  }

  function PolygonMembers(ms: Members): Result<Members> {
    if ms == [] then Ok([])
    else
      var here :- IsCompactedPolygon(ms[0].value);
      var rest :- PolygonMembers(ms[1..]);
      Ok(if here then [ms[0]] + rest else rest)
  }

  /** The GeoProperty rebuilt from a selected one: the type, and a Polygon
      value holding the same coordinates and nothing else. */
  function PolygonShape(coordinates: Json): Json {
    JObj([Member("type", JStr(GEOPROPERTY.Value())),
          Member("value", JObj([Member("type", JStr(POLYGON)), Member("coordinates", coordinates)]))])
  }

  /** `getJsonArray("coordinates")` of the selected GeoProperty's value; an
      absent array is written as JSON null. */
  function RebuiltPolygon(v: Json): Result<Json> {
    var ms :- AsObject(v);
    var value :- Present(Get(ms, "value"));
    var valueMembers :- AsObject(value);
    match Get(valueMembers, "coordinates")
    case None => Ok(PolygonShape(JNull))
    case Some(JArr(cs)) => Ok(PolygonShape(JArr(cs)))
    case Some(_) => Err(Crash("ClassCastException"))
  }

  /** The `forEach` over the selected members, replacing each in `ms`; a
      failure stops it with the earlier replacements made. */
  function ApplyPolygonReplacements(ms: Members, selected: Members): (Check, Members)
    decreases |selected|
  {
    if selected == [] then (Pass, ms)
    else
      match RebuiltPolygon(selected[0].value)
      case Err(e) => (Fail(e), ms)
      case Ok(shape) => ApplyPolygonReplacements(Replace(ms, selected[0].key, shape), selected[1..])
  }

  function ReconstructedPolygons(ms: Members): (Check, Members) {
    match PolygonMembers(ms)
    case Err(e) => (Fail(e), ms)
    case Ok(selected) => ApplyPolygonReplacements(ms, selected)
  }

  lemma {:induction false} PolygonMembersSelect(ms: Members, selected: Members)
    requires PolygonMembers(ms) == Ok(selected)
    ensures forall m :: m in selected <==> m in ms && IsCompactedPolygon(m.value) == Ok(true)
    ensures forall m :: m in ms ==> IsCompactedPolygon(m.value).Ok?
  {
    if ms != [] {
      var rest :| PolygonMembers(ms[1..]) == Ok(rest);
      PolygonMembersSelect(ms[1..], rest);
      assert ms == [ms[0]] + ms[1..];
    }
  }

  /** No two members share a key, as in a map. */
  ghost predicate DistinctKeys(ms: Members) {
    forall i, j :: 0 <= i < j < |ms| ==> ms[i].key != ms[j].key
  }

  lemma DistinctKeysTail(ms: Members)
    requires ms != [] && DistinctKeys(ms)
    ensures DistinctKeys(ms[1..])
    ensures forall m :: m in ms[1..] ==> m.key != ms[0].key
  {
    forall i, j | 0 <= i < j < |ms[1..]| ensures ms[1..][i].key != ms[1..][j].key {
      assert ms[1..][i] == ms[i + 1] && ms[1..][j] == ms[j + 1];
    }
    forall m | m in ms[1..] ensures m.key != ms[0].key {
      var i :| 0 <= i < |ms[1..]| && ms[1..][i] == m;
      assert ms[i + 1] == m;
    }
  }

  lemma {:induction false} ApplyKeepsKeys(ms: Members, selected: Members)
    ensures Keys(ApplyPolygonReplacements(ms, selected).1) == Keys(ms)
    decreases |selected|
  {
    if selected != [] && RebuiltPolygon(selected[0].value).Ok? {
      ApplyKeepsKeys(Replace(ms, selected[0].key, RebuiltPolygon(selected[0].value).value), selected[1..]);
    }
  }

  lemma {:induction false} ApplyLeavesOthers(ms: Members, selected: Members, k: string)
    requires forall m :: m in selected ==> m.key != k
    ensures Get(ApplyPolygonReplacements(ms, selected).1, k) == Get(ms, k)
    decreases |selected|
  {
    if selected != [] && RebuiltPolygon(selected[0].value).Ok? {
      assert forall m :: m in selected[1..] ==> m in selected;
      ApplyLeavesOthers(Replace(ms, selected[0].key, RebuiltPolygon(selected[0].value).value), selected[1..], k);
    }
  }

  lemma {:induction false} ApplyReplacesAt(ms: Members, selected: Members, i: nat)
    requires ApplyPolygonReplacements(ms, selected).0.Pass?
    requires DistinctKeys(selected)
    requires i < |selected| && HasKey(ms, selected[i].key)
    ensures RebuiltPolygon(selected[i].value).Ok?
    ensures Get(ApplyPolygonReplacements(ms, selected).1, selected[i].key) == Some(RebuiltPolygon(selected[i].value).value)
    decreases |selected|
  {
    var shape := RebuiltPolygon(selected[0].value).value;
    var next := Replace(ms, selected[0].key, shape);
    DistinctKeysTail(selected);
    if i == 0 {
      ApplyLeavesOthers(next, selected[1..], selected[0].key);
    } else {
      assert selected[1..][i - 1] == selected[i];
      assert selected[i] in selected[1..];
      assert Get(next, selected[i].key) == Get(ms, selected[i].key);
      ApplyReplacesAt(next, selected[1..], i - 1);
    }
  }

  lemma {:induction false} PolygonMembersSubset(ms: Members, selected: Members)
    requires PolygonMembers(ms) == Ok(selected)
    ensures forall m :: m in selected ==> m in ms
  {
    if ms != [] {
      var rest :| PolygonMembers(ms[1..]) == Ok(rest);
      PolygonMembersSubset(ms[1..], rest);
    }
  }

  lemma {:induction false} SelectedKeysDistinct(ms: Members, selected: Members)
    requires DistinctKeys(ms)
    requires PolygonMembers(ms) == Ok(selected)
    ensures DistinctKeys(selected)
  {
    if ms != [] {
      DistinctKeysTail(ms);
      var rest: Members :| PolygonMembers(ms[1..]) == Ok(rest);
      SelectedKeysDistinct(ms[1..], rest);
      PolygonMembersSubset(ms[1..], rest);
      assert forall m :: m in rest ==> m.key != ms[0].key;
      if selected != rest {
        assert selected == [ms[0]] + rest;
        forall i, j | 0 <= i < j < |selected| ensures selected[i].key != selected[j].key {
          assert selected[j] == rest[j - 1];
          assert rest[j - 1] in rest;
          if i > 0 {
            assert selected[i] == rest[i - 1];
          }
        }
      }
    }
  }

  lemma {:induction false} UniqueKeyGet(ms: Members, m: Member)
    requires DistinctKeys(ms)
    requires m in ms
    ensures Get(ms, m.key) == Some(m.value)
  {
    if ms[0] != m {
      DistinctKeysTail(ms);
      assert m in ms[1..];
      UniqueKeyGet(ms[1..], m);
    }
  }

  /** A compacted entity as the mutable map `reconstructPolygonCoordinates`
      rewrites in place. */
  class CompactedEntityMap {
    var members: Members

    constructor (ms: Members)
      ensures members == ms
    {
      members := ms;
    }

    /** `reconstructPolygonCoordinates`: every Polygon GeoProperty is replaced
        by its rebuilt shape; a failing selection changes nothing, a failing
        rebuild stops after the replacements already made. */
    method ReconstructPolygonCoordinates() returns (outcome: Check)
      modifies this
      ensures (outcome, members) == ReconstructedPolygons(old(members))
    {
      var selection := PolygonMembers(members);
      if selection.Err? {
        return Fail(selection.error);
      }
      var selected := selection.value;
      ghost var original := members;
      var i := 0;
      while i < |selected|
        invariant 0 <= i <= |selected|
        invariant ApplyPolygonReplacements(members, selected[i..]) == ApplyPolygonReplacements(original, selected)
      {
        assert selected[i..][1..] == selected[i + 1..];
        var shape := RebuiltPolygon(selected[i].value);
        if shape.Err? {
          return Fail(shape.error);
        }
        members := Replace(members, selected[i].key, shape.value);
        i := i + 1;
      }
      return Pass;
    }
  }

  /** A successful reconstruction keeps the entity's keys and tells, for
      every member of the entity, whether it was selected. */
  lemma ReconstructedPolygonsKeys(ms: Members)
    requires ReconstructedPolygons(ms).0.Pass?
    ensures Keys(ReconstructedPolygons(ms).1) == Keys(ms)
    ensures forall m :: m in ms ==> IsCompactedPolygon(m.value).Ok?
  {
    var selected := PolygonMembers(ms).value;
    PolygonMembersSelect(ms, selected);
    ApplyKeepsKeys(ms, selected);
  }

  /** After a successful reconstruction each Polygon GeoProperty holds its
      rebuilt shape and every other member keeps its value. */
  lemma ReconstructedPolygonAt(ms: Members, m: Member)
    requires DistinctKeys(ms)
    requires ReconstructedPolygons(ms).0.Pass?
    requires m in ms
    ensures IsCompactedPolygon(m.value) == Ok(true) ==>
      RebuiltPolygon(m.value).Ok? && Get(ReconstructedPolygons(ms).1, m.key) == Some(RebuiltPolygon(m.value).value)
    ensures IsCompactedPolygon(m.value) == Ok(false) ==>
      Get(ReconstructedPolygons(ms).1, m.key) == Some(m.value)
  {
    var selected := PolygonMembers(ms).value;
    PolygonMembersSelect(ms, selected);
    SelectedKeysDistinct(ms, selected);
    UniqueKeyGet(ms, m);
    if IsCompactedPolygon(m.value) == Ok(true) {
      var i :| 0 <= i < |selected| && selected[i] == m;
      ApplyReplacesAt(ms, selected, i);
    } else if IsCompactedPolygon(m.value) == Ok(false) {
      forall m' | m' in selected ensures m'.key != m.key {
        if m'.key == m.key {
          UniqueKeyGet(ms, m');
        }
      }
      ApplyLeavesOthers(ms, selected, m.key);
    }
  }
}
