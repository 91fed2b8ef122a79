/** The batch entity operations of the entity service: create, upsert and
    delete a batch of entities.

    Each operation splits the batch by existence and by authorization,
    hands the accepted entities to the entity operation service, adds an
    error for every refused one, publishes one event per successful entity
    and chooses the response status.  The entity operation service, the
    authorization service and the JSON-LD expansion are ports; the event
    publisher is the class of the event service. */
module EntityOperationHandler {
  import opened Wrappers
  import opened Json
  import opened JsonLdUtils
  import opened UpdateResults
  import J = JsonLdEntity
  import N = NgsiLdEntity
  import E = EntityEventService

  // ---------------------------------------------------------------------
  // Batch results

  /** `BatchEntitySuccess`: an entity the service handled, with the outcome
      of its attributes for an update. */
  datatype BatchEntitySuccess = BatchEntitySuccess(entityId: string, updateResult: Option<UpdateResult>)

  /** `BatchEntityError`: an entity refused, with its reasons. */
  datatype BatchEntityError = BatchEntityError(entityId: string, error: seq<string>)

  /** The value of a `BatchOperationResult`. */
  datatype BatchResult = BatchResult(success: seq<BatchEntitySuccess>, errors: seq<BatchEntityError>)

  const ENTITY_ALREADY_EXISTS := "Entity already exists"
  const USER_FORBIDDEN_TO_CREATE := "User forbidden to create entities"
  const USER_FORBIDDEN_TO_MODIFY := "User forbidden to modify entity"
  const ENTITY_DOES_NOT_EXIST := "Entity does not exist"
  const USER_FORBIDDEN_TO_DELETE := "User forbidden to delete entity"
  const MISSING_CONTEXT :=
    "One or more entities do not contain an @context and the request Content-Type is application/ld+json"

  /** `getSuccessfulEntitiesIds`: the ids of the successes, in order. */
  function SuccessfulIds(success: seq<BatchEntitySuccess>): (r: seq<string>)
    ensures |r| == |success| && forall i :: 0 <= i < |success| ==> r[i] == success[i].entityId
  {
    seq(|success|, i requires 0 <= i < |success| => success[i].entityId)
  }

  /** One error with a single reason per id, in the order of the ids. */
  function ErrorsFor(ids: seq<string>, reason: string): (r: seq<BatchEntityError>)
    ensures |r| == |ids| && forall i :: 0 <= i < |ids| ==> r[i] == BatchEntityError(ids[i], [reason])
  {
    seq(|ids|, i requires 0 <= i < |ids| => BatchEntityError(ids[i], [reason]))
  }

  /** The mutable `BatchOperationResult`, whose error list grows in place. */
  class BatchOperationResult {
    var success: seq<BatchEntitySuccess>
    var errors: seq<BatchEntityError>

    function Value(): BatchResult
      reads this
    {
      BatchResult(success, errors)
    }

    constructor (initial: BatchResult)
      ensures Value() == initial
    {
      success := initial.success;
      errors := initial.errors;
    }

    /** `errors.addAll` */
    method AddErrors(more: seq<BatchEntityError>)
      modifies this
      ensures success == old(success) && errors == old(errors) + more
    {
      errors := errors + more;
    }

    function SuccessfulEntitiesIds(): (r: seq<string>)
      reads this
      ensures r == SuccessfulIds(success)
    {
      SuccessfulIds(success)
    }
  }

  // ---------------------------------------------------------------------
  // Collaborators

  /** The core properties of an entity read before it is deleted. */
  datatype CoreEntity = CoreEntity(types: seq<string>, contexts: seq<string>)

  datatype Ports = Ports(
    /** `checkContext` on the request's content type and body: whether the
        body's @context agrees with the content type */
    checkContext: (MediaType, seq<Members>) -> Check,
    /** whether an entity with this id is stored (the two existence splits) */
    stored: string -> bool,
    /** `userCanCreateEntities` */
    userCanCreateEntities: string -> bool,
    /** `filterEntitiesUserCanUpdate(ids, user)` */
    filterEntitiesUserCanUpdate: (seq<string>, string) -> seq<string>,
    /** whether the user may administer an entity (`splitEntitiesByUserCanAdmin`) */
    userCanAdmin: (string, string) -> bool,
    /** the entity operation service's create, update, replace and delete */
    create: seq<N.NgsiLdEntity> -> BatchResult,
    update: seq<N.NgsiLdEntity> -> BatchResult,
    replace: seq<N.NgsiLdEntity> -> BatchResult,
    delete: set<string> -> BatchResult,
    /** `getEntityCoreProperties` of the entity with this id */
    coreProperties: string -> CoreEntity,
    /** `getFullEntityById(id, true)` */
    fullEntity: string -> Option<J.JsonLdEntity>,
    /** `expandJsonLdEntity`, with the Link contexts when they are given */
    expandEntity: (Members, Option<seq<string>>) -> J.JsonLdEntity,
    /** the collaborators of the event publisher */
    events: E.Ports)

  // ---------------------------------------------------------------------
  // Splitting a batch

  /** `partition`: the elements that satisfy `p` and those that do not, each
      in their original order. */
  function Partition<T(!new)>(s: seq<T>, p: T -> bool): (r: (seq<T>, seq<T>))
    ensures |r.0| + |r.1| == |s|
    ensures forall x :: x in r.0 <==> x in s && p(x)
    ensures forall x :: x in r.1 <==> x in s && !p(x)
    decreases |s|
  {
    if s == [] then ([], [])
    else
      var rest := Partition(s[1..], p);
      assert forall x :: x in s <==> x == s[0] || x in s[1..];
      if p(s[0]) then ([s[0]] + rest.0, rest.1) else (rest.0, [s[0]] + rest.1)
  }

  /** The halves are the two filters of `s`: the elements that satisfy `p`
      and those that do not, each in its order and with its repetitions. */
  lemma {:induction false} PartitionFilters<T(!new)>(s: seq<T>, p: T -> bool)
    ensures Partition(s, p).0 == Filter(s, p)
    ensures Partition(s, p).1 == Filter(s, x => !p(x))
    decreases |s|
  {
    if s != [] {
      PartitionFilters(s[1..], p);
    }
  }

  /** Together the halves hold every element as often as `s` does. */
  lemma {:induction false} PartitionPermutes<T(!new)>(s: seq<T>, p: T -> bool)
    ensures multiset(Partition(s, p).0) + multiset(Partition(s, p).1) == multiset(s)
    decreases |s|
  {
    if s != [] {
      PartitionPermutes(s[1..], p);
      assert s == [s[0]] + s[1..];
    }
  }

  function Ids(entities: seq<N.NgsiLdEntity>): (r: seq<string>)
    ensures |r| == |entities| && forall i :: 0 <= i < |entities| ==> r[i] == entities[i].id
  {
    seq(|entities|, i requires 0 <= i < |entities| => entities[i].id)
  }

  /** `splitEntitiesByExistence`: the stored entities, then the new ones. */
  function SplitByExistence(ports: Ports, entities: seq<N.NgsiLdEntity>): (seq<N.NgsiLdEntity>, seq<N.NgsiLdEntity>) {
    Partition(entities, (e: N.NgsiLdEntity) => ports.stored(e.id))
  }

  /** `partition { authorizedIds.contains(it.id) }` */
  function SplitByIds(entities: seq<N.NgsiLdEntity>, authorizedIds: seq<string>): (seq<N.NgsiLdEntity>, seq<N.NgsiLdEntity>) {
    Partition(entities, (e: N.NgsiLdEntity) => e.id in authorizedIds)
  }

  // ---------------------------------------------------------------------
  // Parsing a batch

  /** The three views of a parsed batch: the raw entities with their
      @context, their expansion, and the validated entities. */
  datatype Parsed = Parsed(extracted: seq<Members>, jsonLd: seq<J.JsonLdEntity>, entities: seq<N.NgsiLdEntity>)

  /** `putIfAbsent(@context, listOf(context))`: a missing or null @context is
      set to the one-element list of the Link context (null when there is
      none); any other @context is kept. */
  function WithLinkContext(raw: Members, context: Option<string>): (r: Members)
    ensures Get(raw, JSONLD_CONTEXT).Some? && Get(raw, JSONLD_CONTEXT) != Some(JNull) ==> r == raw
    ensures Get(raw, JSONLD_CONTEXT).None? || Get(raw, JSONLD_CONTEXT) == Some(JNull) ==>
      Get(r, JSONLD_CONTEXT) == Some(JArr([if context.Some? then JStr(context.value) else JNull]))
    ensures forall k :: k != JSONLD_CONTEXT ==> Get(r, k) == Get(raw, k)
  {
    match Get(raw, JSONLD_CONTEXT)
    case Some(v) => if v == JNull then Put(raw, JSONLD_CONTEXT, JArr([LinkValue(context)])) else raw
    case None => Put(raw, JSONLD_CONTEXT, JArr([LinkValue(context)]))
  }

  function LinkValue(context: Option<string>): Json {
    if context.Some? then JStr(context.value) else JNull
  }

  function WithLinkContexts(raws: seq<Members>, context: Option<string>): (r: seq<Members>)
    ensures |r| == |raws| && forall i :: 0 <= i < |raws| ==> r[i] == WithLinkContext(raws[i], context)
  {
    seq(|raws|, i requires 0 <= i < |raws| => WithLinkContext(raws[i], context))
  }

  function ExpandAll(ports: Ports, raws: seq<Members>, contexts: Option<seq<string>>): (r: seq<J.JsonLdEntity>)
    ensures |r| == |raws| && forall i :: 0 <= i < |raws| ==> r[i] == ports.expandEntity(raws[i], contexts)
  {
    seq(|raws|, i requires 0 <= i < |raws| => ports.expandEntity(raws[i], contexts))
  }

  /** `map { it.toNgsiLdEntity() }`: the first invalid entity fails the
      batch. */
  function ToNgsiLdEntities(entities: seq<J.JsonLdEntity>): (r: Result<seq<N.NgsiLdEntity>>)
    ensures r.Ok? <==> forall i :: 0 <= i < |entities| ==> N.ToNgsiLdEntity(entities[i]).Ok?
    ensures r.Ok? ==> |r.value| == |entities| && forall i :: 0 <= i < |entities| ==> N.ToNgsiLdEntity(entities[i]) == Ok(r.value[i])
  {
    AllOk(MapAll(entities, N.ToNgsiLdEntity))
  }

  predicate AllHaveContext(raws: seq<Members>) {
    forall i :: 0 <= i < |raws| ==> HasKey(raws[i], JSONLD_CONTEXT)
  }

  /** `extractAndParseBatchOfEntities`: a JSON-LD request must give every
      entity its @context; otherwise the Link context is added where it is
      missing and the entities are expanded against it. */
  function ExtractAndParseBatchOfEntities(ports: Ports, raws: seq<Members>, context: Option<string>,
                                          contentType: MediaType): (r: Result<Parsed>)
    ensures contentType == JsonLd && !AllHaveContext(raws) ==> r == Err(BadRequestData(MISSING_CONTEXT))
    ensures contentType != JsonLd && context.None? ==> r == Err(Crash("NullPointerException"))
    ensures r.Ok? ==> r.value.extracted == (if contentType == JsonLd then raws else WithLinkContexts(raws, context))
    ensures r.Ok? ==> |r.value.jsonLd| == |raws| && |r.value.entities| == |raws|
  {
    if contentType == JsonLd && !AllHaveContext(raws) then Err(BadRequestData(MISSING_CONTEXT))
    else if contentType == JsonLd then
      var jsonLd := ExpandAll(ports, raws, None);
      var entities :- ToNgsiLdEntities(jsonLd);
      Ok(Parsed(raws, jsonLd, entities))
    else
      var extracted := WithLinkContexts(raws, context);
      var link :- Required(context);
      var jsonLd := ExpandAll(ports, extracted, Some([link]));
      var entities :- ToNgsiLdEntities(jsonLd);
      Ok(Parsed(extracted, jsonLd, entities))
  }

  function Required<T>(o: Option<T>): (r: Result<T>)
    ensures o.Some? ==> r == Ok(o.value)
    ensures o.None? ==> r == Err(Crash("NullPointerException"))
  {
    if o.Some? then Ok(o.value) else Err(Crash("NullPointerException"))
  }

  /** With the Link context, the entities that have their own @context keep
      it and the others get the Link context. */
  lemma LinkContextOnlyWhereMissing(ports: Ports, raws: seq<Members>, context: string, contentType: MediaType, i: nat)
    requires contentType != JsonLd && i < |raws|
    requires ExtractAndParseBatchOfEntities(ports, raws, Some(context), contentType).Ok?
    ensures var e := ExtractAndParseBatchOfEntities(ports, raws, Some(context), contentType).value.extracted[i];
      (Get(raws[i], JSONLD_CONTEXT).Some? && Get(raws[i], JSONLD_CONTEXT) != Some(JNull) ==> e == raws[i]) &&
      (Get(raws[i], JSONLD_CONTEXT).None? ==> Get(e, JSONLD_CONTEXT) == Some(JArr([JStr(context)])))
  {
  }

  // ---------------------------------------------------------------------
  // Events of whole entities

  /** An event and the entity type whose channel it goes to. */
  datatype Outgoing = Outgoing(event: E.EntityEvent, entityType: string)

  /** `extractEntityPayloadById`: the first raw entity whose "id" is the
      id; there is none where `first` throws. */
  function EntityPayloadById(extracted: seq<Members>, id: string): (r: Result<Members>)
    ensures r.Ok? ==> r.value in extracted && Get(r.value, "id") == Some(JStr(id))
    ensures r.Err? <==> forall m :: m in extracted ==> Get(m, "id") != Some(JStr(id))
    ensures r.Err? ==> r == Err(Crash("NoSuchElementException"))
    decreases |extracted|
  {
    if extracted == [] then Err(Crash("NoSuchElementException"))
    else if Get(extracted[0], "id") == Some(JStr(id)) then Ok(extracted[0])
    else
      assert forall m :: m in extracted <==> m == extracted[0] || m in extracted[1..];
      EntityPayloadById(extracted[1..], id)
  }

  /** The payload found is the first match: the one at the first index whose
      "id" is the id. */
  lemma {:induction false} EntityPayloadByIdFirst(extracted: seq<Members>, id: string, i: nat)
    requires i < |extracted| && Get(extracted[i], "id") == Some(JStr(id))
    requires forall j :: 0 <= j < i ==> Get(extracted[j], "id") != Some(JStr(id))
    ensures EntityPayloadById(extracted, id) == Ok(extracted[i])
    decreases i
  {
    if i > 0 {
      assert Get(extracted[0], "id") != Some(JStr(id));
      forall j | 0 <= j < i - 1 ensures Get(extracted[1..][j], "id") != Some(JStr(id)) {
        assert extracted[1..][j] == extracted[j + 1];
      }
      assert extracted[1..][i - 1] == extracted[i];
      EntityPayloadByIdFirst(extracted[1..], id, i - 1);
    }
  }

  datatype PayloadEventKind = CreateKind | ReplaceKind

  /** The create or replace event of an entity: its raw payload without
      @context, and the contexts that payload declared. */
  function PayloadEvent(kind: PayloadEventKind, extracted: seq<Members>, e: N.NgsiLdEntity): (r: Result<Outgoing>)
    ensures r.Ok? ==> r.value.entityType == e.entityType && r.value.event.entityId == e.id
    ensures r.Ok? ==> (kind == CreateKind <==> r.value.event.EntityCreateEvent?) &&
                      (kind == ReplaceKind <==> r.value.event.EntityReplaceEvent?)
    ensures EntityPayloadById(extracted, e.id).Err? ==> r == Err(Crash("NoSuchElementException"))
    ensures EntityPayloadById(extracted, e.id).Ok? ==>
      r.Ok? && r.value.event.contexts == ExtractContextFromInput(EntityPayloadById(extracted, e.id).value)
  {
    var payload :- EntityPayloadById(extracted, e.id);
    var contexts := ExtractContextFromInput(payload);
    var operation := Render(JObj(RemoveContextFromInput(payload)));
    match kind
    case CreateKind => Ok(Outgoing(E.EntityCreateEvent(e.id, operation, contexts), e.entityType))
    case ReplaceKind => Ok(Outgoing(E.EntityReplaceEvent(e.id, operation, contexts), e.entityType))
  }

  /** `filter { it.id in ids }`: the parsed entities that succeeded. */
  function EntitiesWithIds(entities: seq<N.NgsiLdEntity>, ids: seq<string>): (r: seq<N.NgsiLdEntity>)
    ensures forall e :: e in r <==> e in entities && e.id in ids
  {
    Partition(entities, (e: N.NgsiLdEntity) => e.id in ids).0
  }

  /** The selection keeps the order and the repetitions of the entities:
      selecting from `a + b` is selecting from `a`, then from `b`, and a
      single entity is kept exactly when its id is one of the ids. */
  lemma EntitiesWithIdsInOrder(a: seq<N.NgsiLdEntity>, b: seq<N.NgsiLdEntity>, e: N.NgsiLdEntity, ids: seq<string>)
    ensures EntitiesWithIds(a + b, ids) == EntitiesWithIds(a, ids) + EntitiesWithIds(b, ids)
    ensures EntitiesWithIds([e], ids) == if e.id in ids then [e] else []
  {
    var keep := (e: N.NgsiLdEntity) => e.id in ids;
    PartitionFilters(a + b, keep);
    PartitionFilters(a, keep);
    PartitionFilters(b, keep);
    PartitionFilters([e], keep);
    FilterAppend(a, b, keep);
    assert [e][1..] == [];
  }

  function PayloadEvents(kind: PayloadEventKind, extracted: seq<Members>, selected: seq<N.NgsiLdEntity>): (r: seq<Result<Outgoing>>)
    ensures |r| == |selected| && forall i :: 0 <= i < |selected| ==> r[i] == PayloadEvent(kind, extracted, selected[i])
  {
    seq(|selected|, i requires 0 <= i < |selected| => PayloadEvent(kind, extracted, selected[i]))
  }

  /** The events of the successful entities, one per entity, in the order
      of the batch. */
  function SuccessEvents(kind: PayloadEventKind, parsed: Parsed, success: seq<BatchEntitySuccess>): seq<Result<Outgoing>> {
    PayloadEvents(kind, parsed.extracted, EntitiesWithIds(parsed.entities, SuccessfulIds(success)))
  }

  /** Each event of a successful-entities list names an entity that is in
      the batch and succeeded, and goes on that entity's channel. */
  lemma SuccessEventsOfSuccesses(kind: PayloadEventKind, parsed: Parsed, success: seq<BatchEntitySuccess>, i: nat)
    requires i < |SuccessEvents(kind, parsed, success)|
    requires SuccessEvents(kind, parsed, success)[i].Ok?
    ensures var o := SuccessEvents(kind, parsed, success)[i].value;
      exists e :: e in parsed.entities && e.id in SuccessfulIds(success) &&
        o.event.entityId == e.id && o.entityType == e.entityType
  {
    var selected := EntitiesWithIds(parsed.entities, SuccessfulIds(success));
    assert selected[i] in selected;
  }

  /** The delete event of a deleted entity, from its core properties read
      before the delete: an id outside those read fails on `!!`, an entity
      without a type on `type[0]`. */
  function DeleteEvent(ports: Ports, toDelete: set<string>, id: string): (r: Result<Outgoing>)
    ensures id !in toDelete ==> r == Err(Crash("NullPointerException"))
    ensures id in toDelete && ports.coreProperties(id).types == [] ==> r == Err(Crash("IndexOutOfBoundsException"))
    ensures r.Ok? ==> (ports.coreProperties(id).types != [] &&
      r.value == Outgoing(E.EntityDeleteEvent(id, ports.coreProperties(id).contexts), ports.coreProperties(id).types[0]))
  {
    if id !in toDelete then Err(Crash("NullPointerException"))
    else
      var core := ports.coreProperties(id);
      if core.types == [] then Err(Crash("IndexOutOfBoundsException"))
      else Ok(Outgoing(E.EntityDeleteEvent(id, core.contexts), core.types[0]))
  }

  function DeleteEvents(ports: Ports, toDelete: set<string>, success: seq<BatchEntitySuccess>): (r: seq<Result<Outgoing>>)
    ensures |r| == |success| && forall i :: 0 <= i < |success| ==> r[i] == DeleteEvent(ports, toDelete, success[i].entityId)
  {
    seq(|success|, i requires 0 <= i < |success| => DeleteEvent(ports, toDelete, success[i].entityId))
  }

  /** Sending built events in order, after what was sent before, until the
      first one that could not be built. */
  function SentFrom(ports: E.Ports, built: seq<Result<Outgoing>>, sent: seq<E.Message>): (Check, seq<E.Message>)
    decreases |built|
  {
    if built == [] then (Pass, sent)
    else match built[0]
      case Err(e) => (Fail(e), sent)
      case Ok(o) => SentFrom(ports, built[1..], sent + E.Published(ports, o.event, o.entityType))
  }

  /** The events that get built before the first failure. */
  function BuiltUntilFailure(built: seq<Result<Outgoing>>): (r: (Check, seq<Outgoing>))
    ensures |r.1| <= |built| && (r.0.Pass? <==> |r.1| == |built|)
    ensures forall i :: 0 <= i < |r.1| ==> built[i] == Ok(r.1[i])
    ensures r.0.Fail? ==> |r.1| < |built| && built[|r.1|] == Err(r.0.error)
    decreases |built|
  {
    if built == [] then (Pass, [])
    else match built[0]
      case Err(e) => (Fail(e), [])
      case Ok(o) =>
        var rest := BuiltUntilFailure(built[1..]);
        TailIndex(built);
        (rest.0, [o] + rest.1)
  }

  /** The messages of a sequence of events, each on its entity's channel. */
  function AllSent(ports: E.Ports, outgoing: seq<Outgoing>): seq<E.Message>
    decreases |outgoing|
  {
    if outgoing == [] then []
    else E.Published(ports, outgoing[0].event, outgoing[0].entityType) + AllSent(ports, outgoing[1..])
  }

  /** Sending stops at the first event that cannot be built, with its
      failure, and sends exactly the events built before it. */
  lemma {:induction false} SentFromUntilFailure(ports: E.Ports, built: seq<Result<Outgoing>>, sent: seq<E.Message>)
    ensures var u := BuiltUntilFailure(built);
      SentFrom(ports, built, sent) == (u.0, sent + AllSent(ports, u.1))
    decreases |built|
  {
    if built != [] && built[0].Ok? {
      var o := built[0].value;
      var p := E.Published(ports, o.event, o.entityType);
      SentFromUntilFailure(ports, built[1..], sent + p);
      var rest := BuiltUntilFailure(built[1..]);
      var all := [o] + rest.1;
      assert all[0] == o && all[1..] == rest.1;
      assert sent + p + AllSent(ports, rest.1) == sent + (p + AllSent(ports, rest.1));
    } else {
      assert sent + [] == sent;
    }
  }

  /** Building events that all succeed sends, on valid channels, one message
      per event keyed by its entity id; an event on a refused channel is not
      sent. */
  lemma {:induction false} AllSentPerEvent(ports: E.Ports, outgoing: seq<Outgoing>)
    ensures |AllSent(ports, outgoing)| <= |outgoing|
    ensures (forall i :: 0 <= i < |outgoing| ==>
               E.ComposeTopicName(ports, outgoing[i].entityType, outgoing[i].event.contexts).Some?) ==>
            |AllSent(ports, outgoing)| == |outgoing| &&
            (forall i :: 0 <= i < |outgoing| ==>
               AllSent(ports, outgoing)[i].key == outgoing[i].event.entityId && AllSent(ports, outgoing)[i].event == outgoing[i].event)
    decreases |outgoing|
  {
    if outgoing != [] {
      AllSentPerEvent(ports, outgoing[1..]);
      TailIndex(outgoing);
    }
  }

  // ---------------------------------------------------------------------
  // Events of updated attributes (upsert with options=update)

  /** `find { it.id.toUri() == entityId }` over the expanded entities; an
      entity without an id fails when it is read. */
  function JsonLdEntityById(entities: seq<J.JsonLdEntity>, id: string): (r: Result<Option<J.JsonLdEntity>>)
    ensures r.Ok? && r.value.Some? ==> r.value.value in entities && J.Id(r.value.value) == Ok(id)
    decreases |entities|
  {
    if entities == [] then Ok(None)
    else
      var entityId :- J.Id(entities[0]);
      if entityId == id then Ok(Some(entities[0])) else JsonLdEntityById(entities[1..], id)
  }

  /** `publishUpdateEvents`, as a function of the messages sent before: for
      each success, in order, the attribute events of its entity, until the
      first failure. */
  function UpdateEventsFrom(ports: Ports, success: seq<BatchEntitySuccess>, jsonLd: seq<J.JsonLdEntity>,
                            sent: seq<E.Message>): (r: (Check, seq<E.Message>))
    ensures |sent| <= |r.1| && r.1[..|sent|] == sent
    decreases |success|
  {
    if success == [] then (Pass, sent)
    else
      var s := success[0];
      match JsonLdEntityById(jsonLd, s.entityId)
      case Err(e) => (Fail(e), sent)
      case Ok(None) => (Fail(Crash("NullPointerException")), sent)
      case Ok(Some(entity)) =>
        if s.updateResult.None? || ports.fullEntity(s.entityId).None? then (Fail(Crash("NullPointerException")), sent)
        else
          var m := E.AttributeMessages(ports.events, E.Append, s.entityId, entity.properties, s.updateResult.value.updated,
                                       ports.fullEntity(s.entityId).value, entity.contexts);
          if m.0.Fail? then (Fail(m.0.error), sent + m.1)
          else
            var rest := UpdateEventsFrom(ports, success[1..], jsonLd, sent + m.1);
            assert (sent + m.1)[..|sent|] == sent;
            rest
  }

  /** The update events of several successes are the events of the first
      followed by those of the others. */
  lemma UpdateEventsFirst(ports: Ports, success: seq<BatchEntitySuccess>, jsonLd: seq<J.JsonLdEntity>, sent: seq<E.Message>)
    requires success != []
    requires JsonLdEntityById(jsonLd, success[0].entityId).Ok?
    requires JsonLdEntityById(jsonLd, success[0].entityId).value.Some?
    requires success[0].updateResult.Some? && ports.fullEntity(success[0].entityId).Some?
    ensures var entity := JsonLdEntityById(jsonLd, success[0].entityId).value.value;
      var m := E.AttributeMessages(ports.events, E.Append, success[0].entityId, entity.properties,
                                   success[0].updateResult.value.updated, ports.fullEntity(success[0].entityId).value,
                                   entity.contexts);
      UpdateEventsFrom(ports, success, jsonLd, sent) ==
        if m.0.Fail? then (Fail(m.0.error), sent + m.1) else UpdateEventsFrom(ports, success[1..], jsonLd, sent + m.1)
  {
  }

  // ---------------------------------------------------------------------
  // Responses

  datatype Response = Created(ids: seq<string>) | NoContent | MultiStatus(result: BatchResult)

  /** The status of `create`: CREATED with the successful ids when nothing
      failed, else MULTI_STATUS with the whole result. */
  function CreateStatus(batch: BatchResult): (r: Response)
    ensures r.Created? <==> batch.errors == []
    ensures r.Created? ==> r.ids == SuccessfulIds(batch.success)
    ensures r.MultiStatus? <==> batch.errors != []
    ensures r.MultiStatus? ==> r.result == batch
  {
    if batch.errors == [] then Created(SuccessfulIds(batch.success)) else MultiStatus(batch)
  }

  /** The status of `upsert`: CREATED with the new ids, or NO_CONTENT when
      there were none, when nothing failed, else MULTI_STATUS. */
  function UpsertStatus(batch: BatchResult, newIds: seq<string>): (r: Response)
    ensures r.Created? <==> batch.errors == [] && newIds != []
    ensures r.NoContent? <==> batch.errors == [] && newIds == []
    ensures r.MultiStatus? <==> batch.errors != []
    ensures r.Created? ==> r.ids == newIds
    ensures r.MultiStatus? ==> r.result == batch
  {
    if batch.errors == [] && newIds != [] then Created(newIds)
    else if batch.errors == [] then NoContent
    else MultiStatus(batch)
  }

  /** The status of `delete`: NO_CONTENT when nothing failed, else
      MULTI_STATUS. */
  function DeleteStatus(batch: BatchResult): (r: Response)
    ensures r.NoContent? <==> batch.errors == []
    ensures r.MultiStatus? <==> batch.errors != []
    ensures r.MultiStatus? ==> r.result == batch
  {
    if batch.errors == [] then NoContent else MultiStatus(batch)
  }

  // ---------------------------------------------------------------------
  // create

  /** What `create` decides before it publishes: the batch result, the
      response and the events of the successful entities. */
  datatype CreatePlan = CreatePlan(batch: BatchResult, events: seq<Result<Outgoing>>)

  /** The result of the service with the "Entity already exists" errors
      added for the stored entities. */
  function CreateBatch(ports: Ports, entities: seq<N.NgsiLdEntity>): BatchResult {
    var split := SplitByExistence(ports, entities);
    var created := ports.create(split.1);
    BatchResult(created.success, created.errors + ErrorsFor(Ids(split.0), ENTITY_ALREADY_EXISTS))
  }

  function PlanCreate(ports: Ports, userId: string, raws: seq<Members>, context: Option<string>,
                      contentType: MediaType): Result<CreatePlan>
  {
    if !ports.userCanCreateEntities(userId) then Err(AccessDenied(USER_FORBIDDEN_TO_CREATE))
    else
      var _ :- ports.checkContext(contentType, raws);
      var parsed :- ExtractAndParseBatchOfEntities(ports, raws, context, contentType);
      var batch := CreateBatch(ports, parsed.entities);
      Ok(CreatePlan(batch, SuccessEvents(CreateKind, parsed, batch.success)))
  }

  /** `create`: its answer and the messages it sends, after `sent`. */
  function CreateEffects(ports: Ports, userId: string, raws: seq<Members>, context: Option<string>,
                         contentType: MediaType, sent: seq<E.Message>): (Result<Response>, seq<E.Message>)
  {
    match PlanCreate(ports, userId, raws, context, contentType)
    case Err(e) => (Err(e), sent)
    case Ok(plan) =>
      var published := SentFrom(ports.events, plan.events, sent);
      if published.0.Fail? then (Err(published.0.error), published.1)
      else (Ok(CreateStatus(plan.batch)), published.1)
  }

  /** A user without the create right is refused and nothing is sent. */
  lemma CreateForbidden(ports: Ports, userId: string, raws: seq<Members>, context: Option<string>,
                        contentType: MediaType, sent: seq<E.Message>)
    requires !ports.userCanCreateEntities(userId)
    ensures CreateEffects(ports, userId, raws, context, contentType, sent) == (Err(AccessDenied(USER_FORBIDDEN_TO_CREATE)), sent)
  {
  }

  /** A body whose @context does not suit its content type is refused, after
      the create right is checked and before anything is parsed or sent. */
  lemma CreateContextRefused(ports: Ports, userId: string, raws: seq<Members>, context: Option<string>,
                             contentType: MediaType, sent: seq<E.Message>)
    requires ports.userCanCreateEntities(userId) && ports.checkContext(contentType, raws).Fail?
    ensures CreateEffects(ports, userId, raws, context, contentType, sent) == (Err(ports.checkContext(contentType, raws).error), sent)
  {
  }

  /** Only the new entities reach the service, every stored one is reported
      as already existing, and the service's own errors come first. */
  lemma CreateBatchErrors(ports: Ports, entities: seq<N.NgsiLdEntity>)
    ensures var split := SplitByExistence(ports, entities);
      (forall e :: e in split.1 <==> e in entities && !ports.stored(e.id)) &&
      CreateBatch(ports, entities).success == ports.create(split.1).success &&
      |CreateBatch(ports, entities).errors| == |ports.create(split.1).errors| + |split.0| &&
      CreateBatch(ports, entities).errors[..|ports.create(split.1).errors|] == ports.create(split.1).errors &&
      forall e :: e in entities && ports.stored(e.id) ==>
        BatchEntityError(e.id, [ENTITY_ALREADY_EXISTS]) in CreateBatch(ports, entities).errors
  {
    var split := SplitByExistence(ports, entities);
    var created := ports.create(split.1);
    var more := ErrorsFor(Ids(split.0), ENTITY_ALREADY_EXISTS);
    assert (created.errors + more)[..|created.errors|] == created.errors;
    forall e | e in entities && ports.stored(e.id)
      ensures BatchEntityError(e.id, [ENTITY_ALREADY_EXISTS]) in created.errors + more
    {
      var i :| 0 <= i < |split.0| && split.0[i] == e;
      assert more[i] == BatchEntityError(e.id, [ENTITY_ALREADY_EXISTS]);
      assert (created.errors + more)[|created.errors| + i] == more[i];
    }
  }

  /** `create` answers CREATED exactly when neither the service nor the
      existence check refused an entity. */
  lemma CreateAnswer(ports: Ports, userId: string, raws: seq<Members>, context: Option<string>,
                     contentType: MediaType, sent: seq<E.Message>)
    requires CreateEffects(ports, userId, raws, context, contentType, sent).0.Ok?
    ensures var parsed := ExtractAndParseBatchOfEntities(ports, raws, context, contentType).value;
      var split := SplitByExistence(ports, parsed.entities);
      var r := CreateEffects(ports, userId, raws, context, contentType, sent).0.value;
      ports.userCanCreateEntities(userId) &&
      (r.Created? <==> ports.create(split.1).errors == [] && split.0 == []) &&
      (r.Created? ==> r.ids == SuccessfulIds(ports.create(split.1).success)) &&
      (r.MultiStatus? <==> !r.Created?)
  {
  }

  // ---------------------------------------------------------------------
  // upsert

  /** The result of the new entities of an upsert: empty when there are
      none, the service's when the user may create, else one refusal each. */
  function NewEntitiesResult(ports: Ports, userId: string, newEntities: seq<N.NgsiLdEntity>): (r: BatchResult)
    ensures newEntities == [] ==> r == BatchResult([], [])
    ensures newEntities != [] && ports.userCanCreateEntities(userId) ==> r == ports.create(newEntities)
    ensures newEntities != [] && !ports.userCanCreateEntities(userId) ==>
      r.success == [] && |r.errors| == |newEntities| &&
      forall i :: 0 <= i < |newEntities| ==> r.errors[i] == BatchEntityError(newEntities[i].id, [USER_FORBIDDEN_TO_CREATE])
  {
    if newEntities == [] then BatchResult([], [])
    else if ports.userCanCreateEntities(userId) then ports.create(newEntities)
    else BatchResult([], ErrorsFor(Ids(newEntities), USER_FORBIDDEN_TO_CREATE))
  }

  /** The service call for the authorized stored entities. */
  function UpdateOrReplace(ports: Ports, options: Option<string>, authorized: seq<N.NgsiLdEntity>): BatchResult {
    if options == Some("update") then ports.update(authorized) else ports.replace(authorized)
  }

  /** What `upsert` decides before it publishes. */
  datatype UpsertPlan = UpsertPlan(parsed: Parsed, newIds: seq<string>, created: BatchResult, updated: BatchResult)

  /** The result of the authorized stored entities, with one refusal per
      unauthorized one. */
  function UpdateBatch(ports: Ports, userId: string, options: Option<string>, existing: seq<N.NgsiLdEntity>): BatchResult {
    var authorized := SplitByIds(existing, ports.filterEntitiesUserCanUpdate(Ids(existing), userId));
    var result := UpdateOrReplace(ports, options, authorized.0);
    BatchResult(result.success, result.errors + ErrorsFor(Ids(authorized.1), USER_FORBIDDEN_TO_MODIFY))
  }

  function PlanUpsert(ports: Ports, userId: string, raws: seq<Members>, context: Option<string>,
                      contentType: MediaType, options: Option<string>): Result<UpsertPlan>
  {
    var _ :- ports.checkContext(contentType, raws);
    var parsed :- ExtractAndParseBatchOfEntities(ports, raws, context, contentType);
    var split := SplitByExistence(ports, parsed.entities);
    Ok(UpsertPlan(parsed, Ids(split.1), NewEntitiesResult(ports, userId, split.1),
                  UpdateBatch(ports, userId, options, split.0)))
  }

  /** The merged result: the create successes then the update successes,
      and the same for the errors. */
  function Merged(plan: UpsertPlan): BatchResult {
    BatchResult(plan.created.success + plan.updated.success, plan.created.errors + plan.updated.errors)
  }

  /** The events `upsert` publishes for a plan, after `sent`: the create
      events of the created entities, then the attribute events of the
      updated ones (options=update) or the replace events of the replaced
      ones. */
  function UpsertEventsFrom(ports: Ports, plan: UpsertPlan, options: Option<string>, sent: seq<E.Message>): (Check, seq<E.Message>) {
    var first := SentFrom(ports.events, SuccessEvents(CreateKind, plan.parsed, plan.created.success), sent);
    if first.0.Fail? then first
    else if options == Some("update") then UpdateEventsFrom(ports, plan.updated.success, plan.parsed.jsonLd, first.1)
    else SentFrom(ports.events, SuccessEvents(ReplaceKind, plan.parsed, plan.updated.success), first.1)
  }

  /** `upsert`: its answer and the messages it sends, after `sent`. */
  function UpsertEffects(ports: Ports, userId: string, raws: seq<Members>, context: Option<string>,
                         contentType: MediaType, options: Option<string>, sent: seq<E.Message>): (Result<Response>, seq<E.Message>)
  {
    match PlanUpsert(ports, userId, raws, context, contentType, options)
    case Err(e) => (Err(e), sent)
    case Ok(plan) =>
      var published := UpsertEventsFrom(ports, plan, options, sent);
      if published.0.Fail? then (Err(published.0.error), published.1)
      else (Ok(UpsertStatus(Merged(plan), plan.newIds)), published.1)
  }

  /** The stored entities are split by authorization: the authorized ones go
      to update (options=update) or replace, and each other one is refused
      as not modifiable, after the service's own errors. */
  lemma UpsertStoredEntities(ports: Ports, userId: string, options: Option<string>, existing: seq<N.NgsiLdEntity>)
    ensures var authorizedIds := ports.filterEntitiesUserCanUpdate(Ids(existing), userId);
      var authorized := SplitByIds(existing, authorizedIds);
      var result := UpdateOrReplace(ports, options, authorized.0);
      var r := UpdateBatch(ports, userId, options, existing);
      (forall e :: e in authorized.0 <==> e in existing && e.id in authorizedIds) &&
      (options == Some("update") ==> result == ports.update(authorized.0)) &&
      (options != Some("update") ==> result == ports.replace(authorized.0)) &&
      r.success == result.success &&
      r.errors[..|result.errors|] == result.errors &&
      forall e :: e in existing && e.id !in authorizedIds ==> BatchEntityError(e.id, [USER_FORBIDDEN_TO_MODIFY]) in r.errors
  {
    var authorizedIds := ports.filterEntitiesUserCanUpdate(Ids(existing), userId);
    var authorized := SplitByIds(existing, authorizedIds);
    var result := UpdateOrReplace(ports, options, authorized.0);
    var more := ErrorsFor(Ids(authorized.1), USER_FORBIDDEN_TO_MODIFY);
    assert (result.errors + more)[..|result.errors|] == result.errors;
    forall e | e in existing && e.id !in authorizedIds
      ensures BatchEntityError(e.id, [USER_FORBIDDEN_TO_MODIFY]) in result.errors + more
    {
      var i :| 0 <= i < |authorized.1| && authorized.1[i] == e;
      assert more[i] == BatchEntityError(e.id, [USER_FORBIDDEN_TO_MODIFY]);
      assert (result.errors + more)[|result.errors| + i] == more[i];
    }
  }

  /** `upsert` checks the body's @context first: a refusal is the answer and
      nothing is sent. */
  lemma UpsertContextRefused(ports: Ports, userId: string, raws: seq<Members>, context: Option<string>,
                             contentType: MediaType, options: Option<string>, sent: seq<E.Message>)
    requires ports.checkContext(contentType, raws).Fail?
    ensures UpsertEffects(ports, userId, raws, context, contentType, options, sent) ==
      (Err(ports.checkContext(contentType, raws).error), sent)
  {
  }

  /** `upsert` answers CREATED when nothing failed and some entity was new,
      NO_CONTENT when nothing failed and none was, else MULTI_STATUS. */
  lemma UpsertAnswer(ports: Ports, userId: string, raws: seq<Members>, context: Option<string>,
                     contentType: MediaType, options: Option<string>, sent: seq<E.Message>)
    requires UpsertEffects(ports, userId, raws, context, contentType, options, sent).0.Ok?
    ensures var plan := PlanUpsert(ports, userId, raws, context, contentType, options).value;
      var r := UpsertEffects(ports, userId, raws, context, contentType, options, sent).0.value;
      var errors := plan.created.errors + plan.updated.errors;
      (r.Created? <==> errors == [] && plan.newIds != []) &&
      (r.NoContent? <==> errors == [] && plan.newIds == []) &&
      (r.MultiStatus? <==> errors != []) &&
      (r.Created? ==> r.ids == plan.newIds) &&
      (r.MultiStatus? ==> r.result.success == plan.created.success + plan.updated.success && r.result.errors == errors)
  {
  }

  // ---------------------------------------------------------------------
  // delete

  /** What `delete` decides before it publishes. */
  datatype DeletePlan = DeletePlan(toDelete: set<string>, batch: BatchResult)

  function ToSet(ids: seq<string>): (r: set<string>)
    ensures forall x :: x in r <==> x in ids
  {
    set x | x in ids
  }

  function PlanDelete(ports: Ports, userId: string, ids: seq<string>): DeletePlan {
    var existence := Partition(ids, ports.stored);
    var admin := Partition(existence.0, (id: string) => ports.userCanAdmin(userId, id));
    var toDelete := ToSet(admin.0);
    var deleted := ports.delete(toDelete);
    DeletePlan(toDelete, BatchResult(deleted.success, deleted.errors + ErrorsFor(existence.1, ENTITY_DOES_NOT_EXIST)
                                                                     + ErrorsFor(admin.1, USER_FORBIDDEN_TO_DELETE)))
  }

  /** `delete`: its answer and the messages it sends, after `sent`. */
  function DeleteEffects(ports: Ports, userId: string, ids: seq<string>, sent: seq<E.Message>): (Result<Response>, seq<E.Message>) {
    var plan := PlanDelete(ports, userId, ids);
    var published := SentFrom(ports.events, DeleteEvents(ports, plan.toDelete, plan.batch.success), sent);
    if published.0.Fail? then (Err(published.0.error), published.1)
    else (Ok(DeleteStatus(plan.batch)), published.1)
  }

  /** Only stored ids the user may administer are deleted; each unknown id
      is reported as not existing and each other stored id as forbidden. */
  lemma DeleteRefusals(ports: Ports, userId: string, ids: seq<string>)
    ensures var plan := PlanDelete(ports, userId, ids);
      (forall id :: id in plan.toDelete <==> id in ids && ports.stored(id) && ports.userCanAdmin(userId, id)) &&
      (forall id :: id in ids && !ports.stored(id) ==> BatchEntityError(id, [ENTITY_DOES_NOT_EXIST]) in plan.batch.errors) &&
      (forall id :: id in ids && ports.stored(id) && !ports.userCanAdmin(userId, id) ==>
         BatchEntityError(id, [USER_FORBIDDEN_TO_DELETE]) in plan.batch.errors)
  {
    var existence := Partition(ids, ports.stored);
    var admin := Partition(existence.0, (id: string) => ports.userCanAdmin(userId, id));
    var deleted := ports.delete(ToSet(admin.0));
    var unknown := ErrorsFor(existence.1, ENTITY_DOES_NOT_EXIST);
    var forbidden := ErrorsFor(admin.1, USER_FORBIDDEN_TO_DELETE);
    var errors := deleted.errors + unknown + forbidden;
    forall id | id in ids && !ports.stored(id)
      ensures BatchEntityError(id, [ENTITY_DOES_NOT_EXIST]) in errors
    {
      var i :| 0 <= i < |existence.1| && existence.1[i] == id;
      assert errors[|deleted.errors| + i] == unknown[i];
    }
    forall id | id in ids && ports.stored(id) && !ports.userCanAdmin(userId, id)
      ensures BatchEntityError(id, [USER_FORBIDDEN_TO_DELETE]) in errors
    {
      var i :| 0 <= i < |admin.1| && admin.1[i] == id;
      assert errors[|deleted.errors| + |unknown| + i] == forbidden[i];
    }
  }

  /** `delete` answers NO_CONTENT exactly when no id was refused. */
  lemma DeleteAnswer(ports: Ports, userId: string, ids: seq<string>, sent: seq<E.Message>)
    requires DeleteEffects(ports, userId, ids, sent).0.Ok?
    ensures var plan := PlanDelete(ports, userId, ids);
      var r := DeleteEffects(ports, userId, ids, sent).0.value;
      (r.NoContent? <==> plan.batch.errors == []) &&
      (plan.batch.errors == [] ==> (forall id :: id in ids ==> ports.stored(id) && ports.userCanAdmin(userId, id))) &&
      (r.MultiStatus? <==> !r.NoContent?)
  {
    DeleteRefusals(ports, userId, ids);
  }

  // ---------------------------------------------------------------------
  // The handler

  /** Sends built events in order until one could not be built. */
  method PublishOutgoing(publisher: E.EventPublisher, ports: E.Ports, built: seq<Result<Outgoing>>) returns (outcome: Check)
    modifies publisher
    ensures (outcome, publisher.sent) == SentFrom(ports, built, old(publisher.sent))
  {
    var i := 0;
    while i < |built|
      invariant 0 <= i <= |built|
      invariant SentFrom(ports, built[i..], publisher.sent) == SentFrom(ports, built, old(publisher.sent))
    {
      assert built[i..][0] == built[i] && built[i..][1..] == built[i + 1..];
      if built[i].Err? {
        return Fail(built[i].error);
      }
      var _ := publisher.PublishEntityEvent(ports, built[i].value.event, built[i].value.entityType);
      i := i + 1;
    }
    assert built[i..] == [];
    return Pass;
  }

  /** `publishUpdateEvents` */
  method PublishUpdateEvents(publisher: E.EventPublisher, ports: Ports, success: seq<BatchEntitySuccess>,
                             jsonLd: seq<J.JsonLdEntity>) returns (outcome: Check)
    modifies publisher
    ensures (outcome, publisher.sent) == UpdateEventsFrom(ports, success, jsonLd, old(publisher.sent))
  {
    var i := 0;
    while i < |success|
      invariant 0 <= i <= |success|
      invariant UpdateEventsFrom(ports, success[i..], jsonLd, publisher.sent) ==
        UpdateEventsFrom(ports, success, jsonLd, old(publisher.sent))
    {
      assert success[i..][0] == success[i] && success[i..][1..] == success[i + 1..];
      var s := success[i];
      var found := JsonLdEntityById(jsonLd, s.entityId);
      if found.Err? {
        return Fail(found.error);
      }
      if found.value.None? || s.updateResult.None? || ports.fullEntity(s.entityId).None? {
        return Fail(Crash("NullPointerException"));
      }
      var entity := found.value.value;
      var published := publisher.PublishAppendEntityAttributesEvents(ports.events, s.entityId, entity.properties,
                                                                     s.updateResult.value, ports.fullEntity(s.entityId).value,
                                                                     entity.contexts);
      if published.Fail? {
        return published;
      }
      i := i + 1;
    }
    assert success[i..] == [];
    return Pass;
  }

  /** `create` (clause 6.14.3.1 of ETSI GS CIM 009). */
  method Create(publisher: E.EventPublisher, ports: Ports, userId: string, raws: seq<Members>, context: Option<string>,
                contentType: MediaType) returns (r: Result<Response>)
    modifies publisher
    ensures (r, publisher.sent) == CreateEffects(ports, userId, raws, context, contentType, old(publisher.sent))
  {
    if !ports.userCanCreateEntities(userId) {
      return Err(AccessDenied(USER_FORBIDDEN_TO_CREATE));
    }
    var checked := ports.checkContext(contentType, raws);
    if checked.Fail? {
      return Err(checked.error);
    }
    var parsed := ExtractAndParseBatchOfEntities(ports, raws, context, contentType);
    if parsed.Err? {
      return Err(parsed.error);
    }
    var split := SplitByExistence(ports, parsed.value.entities);
    var batch := new BatchOperationResult(ports.create(split.1));
    batch.AddErrors(ErrorsFor(Ids(split.0), ENTITY_ALREADY_EXISTS));
    assert batch.Value() == CreateBatch(ports, parsed.value.entities);
    var successIds := batch.SuccessfulEntitiesIds();
    var built := PayloadEvents(CreateKind, parsed.value.extracted, EntitiesWithIds(parsed.value.entities, successIds));
    var published := PublishOutgoing(publisher, ports.events, built);
    if published.Fail? {
      return Err(published.error);
    }
    return Ok(CreateStatus(batch.Value()));
  }

  /** The part of `upsert` before the events: parsing, the existence and
      authorization splits, and the calls to the service. */
  method PrepareUpsert(ports: Ports, userId: string, raws: seq<Members>, context: Option<string>,
                       contentType: MediaType, options: Option<string>) returns (plan: Result<UpsertPlan>)
    ensures plan == PlanUpsert(ports, userId, raws, context, contentType, options)
  {
    var checked := ports.checkContext(contentType, raws);
    if checked.Fail? {
      return Err(checked.error);
    }
    var parsed := ExtractAndParseBatchOfEntities(ports, raws, context, contentType);
    if parsed.Err? {
      return Err(parsed.error);
    }
    var split := SplitByExistence(ports, parsed.value.entities);
    var created := NewEntitiesResult(ports, userId, split.1);
    var authorized := SplitByIds(split.0, ports.filterEntitiesUserCanUpdate(Ids(split.0), userId));
    var updated := new BatchOperationResult(UpdateOrReplace(ports, options, authorized.0));
    updated.AddErrors(ErrorsFor(Ids(authorized.1), USER_FORBIDDEN_TO_MODIFY));
    assert updated.Value() == UpdateBatch(ports, userId, options, split.0);
    return Ok(UpsertPlan(parsed.value, Ids(split.1), created, updated.Value()));
  }

  /** The events of `upsert`. */
  method PublishUpsertEvents(publisher: E.EventPublisher, ports: Ports, plan: UpsertPlan, options: Option<string>)
    returns (outcome: Check)
    modifies publisher
    ensures (outcome, publisher.sent) == UpsertEventsFrom(ports, plan, options, old(publisher.sent))
  {
    outcome := PublishOutgoing(publisher, ports.events, SuccessEvents(CreateKind, plan.parsed, plan.created.success));
    if outcome.Fail? {
      return;
    }
    if options == Some("update") {
      outcome := PublishUpdateEvents(publisher, ports, plan.updated.success, plan.parsed.jsonLd);
    } else {
      outcome := PublishOutgoing(publisher, ports.events, SuccessEvents(ReplaceKind, plan.parsed, plan.updated.success));
    }
  }

  /** `upsert` (clause 6.15.3.1 of ETSI GS CIM 009). */
  method Upsert(publisher: E.EventPublisher, ports: Ports, userId: string, raws: seq<Members>, context: Option<string>,
                contentType: MediaType, options: Option<string>) returns (r: Result<Response>)
    modifies publisher
    ensures (r, publisher.sent) == UpsertEffects(ports, userId, raws, context, contentType, options, old(publisher.sent))
  {
    var plan := PrepareUpsert(ports, userId, raws, context, contentType, options);
    if plan.Err? {
      return Err(plan.error);
    }
    var merged := new BatchOperationResult(Merged(plan.value));
    var published := PublishUpsertEvents(publisher, ports, plan.value, options);
    if published.Fail? {
      return Err(published.error);
    }
    return Ok(UpsertStatus(merged.Value(), plan.value.newIds));
  }

  /** `delete` */
  method Delete(publisher: E.EventPublisher, ports: Ports, userId: string, ids: seq<string>) returns (r: Result<Response>)
    modifies publisher
    ensures (r, publisher.sent) == DeleteEffects(ports, userId, ids, old(publisher.sent))
  {
    var existence := Partition(ids, ports.stored);
    var admin := Partition(existence.0, (id: string) => ports.userCanAdmin(userId, id));
    var toDelete := ToSet(admin.0);
    var batch := new BatchOperationResult(ports.delete(toDelete));
    batch.AddErrors(ErrorsFor(existence.1, ENTITY_DOES_NOT_EXIST));
    batch.AddErrors(ErrorsFor(admin.1, USER_FORBIDDEN_TO_DELETE));
    assert DeletePlan(toDelete, batch.Value()) == PlanDelete(ports, userId, ids);
    var published := PublishOutgoing(publisher, ports.events, DeleteEvents(ports, toDelete, batch.success));
    if published.Fail? {
      return Err(published.error);
    }
    return Ok(DeleteStatus(batch.Value()));
  }
}
