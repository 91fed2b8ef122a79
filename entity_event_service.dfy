/** The entity event publisher of the entity service: it names the channel
    of an entity type and sends one message per event on it.

    The Kafka template is the `sent` field of a class: a send appends a
    message.  Topic validation (`Topic.validate`) and the JSON-LD
    processor are ports. */
module EntityEventService {
  import opened Wrappers
  import opened Json
  import opened JsonLdUtils
  import opened UpdateResults
  import J = JsonLdEntity

  /** The events of the shared model that the entity service publishes. */
  datatype EntityEvent =
    | EntityCreateEvent(entityId: string, operationPayload: string, contexts: seq<string>)
    | EntityReplaceEvent(entityId: string, operationPayload: string, contexts: seq<string>)
    | EntityDeleteEvent(entityId: string, contexts: seq<string>)
    | AttributeAppendEvent(entityId: string, attributeName: string, datasetId: Option<string>,
                           operationPayload: string, updatedEntity: string, contexts: seq<string>)
    | AttributeReplaceEvent(entityId: string, attributeName: string, datasetId: Option<string>,
                            operationPayload: string, updatedEntity: string, contexts: seq<string>)
    | AttributeUpdateEvent(entityId: string, attributeName: string, datasetId: Option<string>,
                           operationPayload: string, updatedEntity: string, contexts: seq<string>)

  /** A message handed to Kafka: its topic, its key and the event it
      serializes. */
  datatype Message = Message(topic: string, key: string, event: EntityEvent)

  /** The collaborators that are not part of this model. */
  datatype Ports = Ports(
    /** the JSON-LD compaction of a document against a context document */
    compactor: (Members, seq<string>) -> Members,
    /** `containsCoreContext` */
    containsCoreContext: seq<string> -> bool,
    /** `compactTerm` */
    compactTerm: (string, seq<string>) -> string,
    /** whether `Topic.validate` accepts a topic name */
    validTopic: string -> bool)

  const ENTITY_CHANNEL_PREFIX := "cim.entity."

  /** `composeTopicName`: the channel of the compacted entity type, when Kafka
      accepts it as a topic name. */
  function ComposeTopicName(ports: Ports, entityType: string, contexts: seq<string>): (r: Option<string>)
    ensures r.Some? <==> ports.validTopic(ENTITY_CHANNEL_PREFIX + ports.compactTerm(entityType, contexts))
    ensures r.Some? ==> (|r.value| >= |ENTITY_CHANNEL_PREFIX| && r.value[..|ENTITY_CHANNEL_PREFIX|] == ENTITY_CHANNEL_PREFIX &&
      r.value[|ENTITY_CHANNEL_PREFIX|..] == ports.compactTerm(entityType, contexts))
  {
    var topicName := ENTITY_CHANNEL_PREFIX + ports.compactTerm(entityType, contexts);
    if ports.validTopic(topicName) then Some(topicName) else None
  }

  /** The messages `publishEntityEvent` sends: one on a valid topic, keyed by
      the entity id, none otherwise. */
  function Published(ports: Ports, event: EntityEvent, entityType: string): (r: seq<Message>)
    ensures ComposeTopicName(ports, entityType, event.contexts).None? <==> r == []
    ensures r != [] ==> r == [Message(ComposeTopicName(ports, entityType, event.contexts).value, event.entityId, event)]
  {
    match ComposeTopicName(ports, entityType, event.contexts)
    case None => []
    case Some(topic) => [Message(topic, event.entityId, event)]
  }

  /** The messages of a sequence of events of one entity type. */
  function AllPublished(ports: Ports, events: seq<EntityEvent>, entityType: string): seq<Message>
    decreases |events|
  {
    if events == [] then [] else Published(ports, events[0], entityType) + AllPublished(ports, events[1..], entityType)
  }

  /** Events that all carry the same contexts are all sent, each keyed by its
      entity id, or, when their topic is refused, none is. */
  lemma {:induction false} AllPublishedSameTopic(ports: Ports, events: seq<EntityEvent>, entityType: string, contexts: seq<string>)
    requires forall i :: 0 <= i < |events| ==> events[i].contexts == contexts
    ensures var topic := ComposeTopicName(ports, entityType, contexts);
      var r := AllPublished(ports, events, entityType);
      (topic.None? ==> r == []) &&
      (topic.Some? ==> |r| == |events| && forall i :: 0 <= i < |events| ==> r[i] == Message(topic.value, events[i].entityId, events[i]))
  {
    if events != [] {
      AllPublishedSameTopic(ports, events[1..], entityType, contexts);
      var topic := ComposeTopicName(ports, entityType, contexts);
      if topic.Some? {
        var rest := AllPublished(ports, events[1..], entityType);
        assert forall i :: 1 <= i < |events| ==> AllPublished(ports, events, entityType)[i] == rest[i - 1];
      }
    }
  }

  // ---------------------------------------------------------------------
  // Attribute events

  /** Which of the three attribute-event publishers is running. */
  datatype Publisher = Append | Update | PartialUpdate

  /** The event of one updated attribute: its payload is the instance of
      the fragment with the attribute's name and datasetId, compacted;
      a missing instance fails on `!!` (or on the cast to a map). */
  function AttributeEvent(ports: Ports, publisher: Publisher, entityId: string, fragment: Members,
                          detail: UpdatedDetails, updatedEntity: J.JsonLdEntity, contexts: seq<string>): Result<EntityEvent>
  {
    var payload :- AttributeFromExpandedFragment(fragment, detail.attributeName, detail.datasetId);
    if payload.None? then Err(Crash("NullPointerException"))
    else
      var name := ports.compactTerm(detail.attributeName, contexts);
      var entity := CompactAndSerialize(updatedEntity.properties, contexts, ApplicationJson, ports.compactor, ports.containsCoreContext);
      match publisher
      case PartialUpdate =>
        var operation := CompactAndSerializeFragment(payload.value.members, contexts, ports.compactor, ports.containsCoreContext);
        Ok(AttributeUpdateEvent(entityId, name, detail.datasetId, operation, entity, contexts))
      case _ =>
        var operation := CompactAndSerializeFragment([Member(detail.attributeName, payload.value)], contexts,
                                                     ports.compactor, ports.containsCoreContext);
        if publisher == Append && detail.updateOperationResult == APPENDED
        then Ok(AttributeAppendEvent(entityId, name, detail.datasetId, operation, entity, contexts))
        else Ok(AttributeReplaceEvent(entityId, name, detail.datasetId, operation, entity, contexts))
  }

  /** The event of an updated attribute is of the entity, carries the
      contexts, the compacted attribute name and the datasetId, and its class
      is chosen by the publisher (and, for an append, by the outcome); a
      missing instance is a failure. */
  lemma AttributeEventShape(ports: Ports, publisher: Publisher, entityId: string, fragment: Members,
                            detail: UpdatedDetails, updatedEntity: J.JsonLdEntity, contexts: seq<string>)
    ensures var r := AttributeEvent(ports, publisher, entityId, fragment, detail, updatedEntity, contexts);
      (AttributeFromExpandedFragment(fragment, detail.attributeName, detail.datasetId) == Ok(None) ==>
         r == Err(Crash("NullPointerException"))) &&
      (r.Ok? ==>
         r.value.entityId == entityId && r.value.contexts == contexts &&
         !r.value.EntityCreateEvent? && !r.value.EntityReplaceEvent? && !r.value.EntityDeleteEvent? &&
         r.value.attributeName == ports.compactTerm(detail.attributeName, contexts) && r.value.datasetId == detail.datasetId &&
         (publisher == Append ==>
            (r.value.AttributeAppendEvent? <==> detail.updateOperationResult == APPENDED) &&
            (r.value.AttributeAppendEvent? || r.value.AttributeReplaceEvent?)) &&
         (publisher == Update ==> r.value.AttributeReplaceEvent?) &&
         (publisher == PartialUpdate ==> r.value.AttributeUpdateEvent?))
  {
  }

  /** The event each detail would publish, in the order of the details. */
  function BuiltEvents(ports: Ports, publisher: Publisher, entityId: string, fragment: Members,
                       details: seq<UpdatedDetails>, updatedEntity: J.JsonLdEntity, contexts: seq<string>): (r: seq<Result<EntityEvent>>)
    ensures |r| == |details|
    ensures forall i :: 0 <= i < |details| ==> r[i] == AttributeEvent(ports, publisher, entityId, fragment, details[i], updatedEntity, contexts)
  {
    seq(|details|, i requires 0 <= i < |details| => AttributeEvent(ports, publisher, entityId, fragment, details[i], updatedEntity, contexts))
  }

  /** The events a publisher gets to send, in order, until the first failure:
      building an event, or reading the updated entity's type after it. */
  function EventsUntilFailure(built: seq<Result<EntityEvent>>, entityType: Result<string>): (r: (Check, seq<EntityEvent>))
    ensures |r.1| <= |built| && (r.0.Pass? <==> |r.1| == |built| && (built == [] || entityType.Ok?))
    ensures forall i :: 0 <= i < |r.1| ==> built[i] == Ok(r.1[i])
    ensures r.1 != [] ==> entityType.Ok?
    ensures r.0.Fail? ==> (|r.1| < |built| && built[|r.1|].Err? && r.0.error == built[|r.1|].error) ||
                          (entityType.Err? && r.0.error == entityType.error)
    decreases |built|
  {
    if built == [] then (Pass, [])
    else match built[0]
      case Err(e) => (Fail(e), [])
      case Ok(event) =>
        match entityType
        case Err(e) => (Fail(e), [])
        case Ok(_) =>
          var rest := EventsUntilFailure(built[1..], entityType);
          TailIndex(built);
          (rest.0, [event] + rest.1)
  }

  /** The outcome and the messages of sending those events. */
  function MessagesOf(ports: Ports, built: seq<Result<EntityEvent>>, entityType: Result<string>): (Check, seq<Message>)
  {
    var (outcome, events) := EventsUntilFailure(built, entityType);
    (outcome, if events == [] then [] else AllPublished(ports, events, entityType.value))
  }

  /** What an attribute-event publisher does for an update: the failure, if
      any, and the messages sent before it. */
  function AttributeMessages(ports: Ports, publisher: Publisher, entityId: string, fragment: Members,
                             details: seq<UpdatedDetails>, updatedEntity: J.JsonLdEntity, contexts: seq<string>): (Check, seq<Message>)
  {
    MessagesOf(ports, BuiltEvents(ports, publisher, entityId, fragment, details, updatedEntity, contexts), J.Type(updatedEntity))
  }

  /** The append publisher sends, on a valid topic and when no event fails,
      one message per updated detail in order: an AttributeAppendEvent for an
      APPENDED one and an AttributeReplaceEvent for any other, keyed by the
      entity id and named by the compacted attribute name. */
  lemma AppendMessagesPerDetail(ports: Ports, entityId: string, fragment: Members, details: seq<UpdatedDetails>,
                                updatedEntity: J.JsonLdEntity, contexts: seq<string>)
    requires AttributeMessages(ports, Append, entityId, fragment, details, updatedEntity, contexts).0.Pass?
    requires details != []
    ensures J.Type(updatedEntity).Ok?
    ensures var topic := ComposeTopicName(ports, J.Type(updatedEntity).value, contexts);
      var sent := AttributeMessages(ports, Append, entityId, fragment, details, updatedEntity, contexts).1;
      (topic.None? ==> sent == []) &&
      (topic.Some? ==> |sent| == |details| && forall i :: 0 <= i < |details| ==>
         sent[i].topic == topic.value && sent[i].key == entityId &&
         (sent[i].event.AttributeAppendEvent? || sent[i].event.AttributeReplaceEvent?) &&
         (sent[i].event.AttributeAppendEvent? <==> details[i].updateOperationResult == APPENDED) &&
         sent[i].event.attributeName == ports.compactTerm(details[i].attributeName, contexts) &&
         sent[i].event.datasetId == details[i].datasetId)
  {
    var built := BuiltEvents(ports, Append, entityId, fragment, details, updatedEntity, contexts);
    var events := EventsUntilFailure(built, J.Type(updatedEntity)).1;
    forall i | 0 <= i < |details|
      ensures events[i].contexts == contexts && events[i].entityId == entityId &&
        (events[i].AttributeAppendEvent? || events[i].AttributeReplaceEvent?) &&
        (events[i].AttributeAppendEvent? <==> details[i].updateOperationResult == APPENDED) &&
        events[i].attributeName == ports.compactTerm(details[i].attributeName, contexts) &&
        events[i].datasetId == details[i].datasetId
    {
      AttributeEventShape(ports, Append, entityId, fragment, details[i], updatedEntity, contexts);
    }
    AllPublishedSameTopic(ports, events, J.Type(updatedEntity).value, contexts);
  }

  /** The update publisher sends only AttributeReplaceEvents and the
      partial-update publisher only AttributeUpdateEvents, one per detail. */
  lemma UpdateAndPartialUpdateMessages(ports: Ports, publisher: Publisher, entityId: string, fragment: Members,
                                       details: seq<UpdatedDetails>, updatedEntity: J.JsonLdEntity, contexts: seq<string>)
    requires publisher != Append
    requires AttributeMessages(ports, publisher, entityId, fragment, details, updatedEntity, contexts).0.Pass?
    requires details != []
    ensures J.Type(updatedEntity).Ok?
    ensures var topic := ComposeTopicName(ports, J.Type(updatedEntity).value, contexts);
      var sent := AttributeMessages(ports, publisher, entityId, fragment, details, updatedEntity, contexts).1;
      (topic.None? ==> sent == []) &&
      (topic.Some? ==> |sent| == |details| && forall i :: 0 <= i < |details| ==>
         sent[i].topic == topic.value && sent[i].key == entityId &&
         (publisher == Update ==> sent[i].event.AttributeReplaceEvent?) &&
         (publisher == PartialUpdate ==> sent[i].event.AttributeUpdateEvent?) &&
         sent[i].event.attributeName == ports.compactTerm(details[i].attributeName, contexts) &&
         sent[i].event.datasetId == details[i].datasetId)
  {
    var built := BuiltEvents(ports, publisher, entityId, fragment, details, updatedEntity, contexts);
    var events := EventsUntilFailure(built, J.Type(updatedEntity)).1;
    forall i | 0 <= i < |details|
      ensures events[i].contexts == contexts && events[i].entityId == entityId &&
        (publisher == Update ==> events[i].AttributeReplaceEvent?) &&
        (publisher == PartialUpdate ==> events[i].AttributeUpdateEvent?) &&
        events[i].attributeName == ports.compactTerm(details[i].attributeName, contexts) &&
        events[i].datasetId == details[i].datasetId
    {
      AttributeEventShape(ports, publisher, entityId, fragment, details[i], updatedEntity, contexts);
    }
    AllPublishedSameTopic(ports, events, J.Type(updatedEntity).value, contexts);
  }

  /** A detail whose instance is missing from the fragment stops the
      publisher before anything of it is sent. */
  lemma MissingInstanceFails(ports: Ports, publisher: Publisher, entityId: string, fragment: Members,
                             details: seq<UpdatedDetails>, updatedEntity: J.JsonLdEntity, contexts: seq<string>)
    requires details != []
    requires AttributeFromExpandedFragment(fragment, details[0].attributeName, details[0].datasetId) == Ok(None)
    ensures AttributeMessages(ports, publisher, entityId, fragment, details, updatedEntity, contexts) ==
      (Fail(Crash("NullPointerException")), [])
  {
    AttributeEventShape(ports, publisher, entityId, fragment, details[0], updatedEntity, contexts);
  }

  /** The publisher's loop, as a function of the messages sent before it:
      each event in turn is sent, until one fails. */
  function PublishedFrom(ports: Ports, built: seq<Result<EntityEvent>>, entityType: Result<string>,
                         sent: seq<Message>): (Check, seq<Message>)
    decreases |built|
  {
    if built == [] then (Pass, sent)
    else match built[0]
      case Err(e) => (Fail(e), sent)
      case Ok(event) =>
        match entityType
        case Err(e) => (Fail(e), sent)
        case Ok(t) => PublishedFrom(ports, built[1..], entityType, sent + Published(ports, event, t))
  }

  /** A built event, with the entity type read, is sent before the rest. */
  lemma MessagesOfCons(ports: Ports, built: seq<Result<EntityEvent>>, entityType: Result<string>)
    requires built != [] && built[0].Ok? && entityType.Ok?
    ensures var m := MessagesOf(ports, built, entityType);
      var rest := MessagesOf(ports, built[1..], entityType);
      m.0 == rest.0 && m.1 == Published(ports, built[0].value, entityType.value) + rest.1
  {
    var rest := EventsUntilFailure(built[1..], entityType);
    var events := [built[0].value] + rest.1;
    var t := entityType.value;
    assert EventsUntilFailure(built, entityType) == (rest.0, events);
    assert events[0] == built[0].value && events[1..] == rest.1;
    assert AllPublished(ports, events, t) == Published(ports, built[0].value, t) + AllPublished(ports, rest.1, t);
    assert MessagesOf(ports, built, entityType) == (rest.0, AllPublished(ports, events, t));
    assert rest.1 == [] ==> AllPublished(ports, rest.1, t) == [];
    assert MessagesOf(ports, built[1..], entityType) == (rest.0, if rest.1 == [] then [] else AllPublished(ports, rest.1, t));
  }

  /** The loop sends, after what was sent before, what `MessagesOf`
      describes, and stops with its failure. */
  lemma {:induction false} PublishedFromMessages(ports: Ports, built: seq<Result<EntityEvent>>, entityType: Result<string>,
                                                 sent: seq<Message>)
    ensures var m := MessagesOf(ports, built, entityType);
      PublishedFrom(ports, built, entityType, sent) == (m.0, sent + m.1)
    decreases |built|
  {
    if built != [] && built[0].Ok? && entityType.Ok? {
      var p := Published(ports, built[0].value, entityType.value);
      PublishedFromMessages(ports, built[1..], entityType, sent + p);
      MessagesOfCons(ports, built, entityType);
      var restSent := MessagesOf(ports, built[1..], entityType).1;
      assert sent + p + restSent == sent + (p + restSent);
    } else {
      assert sent + [] == sent;
    }
  }

  /** One turn of the publisher's loop at position `i`. */
  lemma PublishedFromStep(ports: Ports, built: seq<Result<EntityEvent>>, entityType: Result<string>,
                          sent: seq<Message>, i: nat)
    requires i < |built|
    ensures built[i].Err? ==> PublishedFrom(ports, built[i..], entityType, sent) == (Fail(built[i].error), sent)
    ensures built[i].Ok? && entityType.Err? ==> PublishedFrom(ports, built[i..], entityType, sent) == (Fail(entityType.error), sent)
    ensures built[i].Ok? && entityType.Ok? ==>
      PublishedFrom(ports, built[i..], entityType, sent) ==
      PublishedFrom(ports, built[i + 1..], entityType, sent + Published(ports, built[i].value, entityType.value))
  {
    assert built[i..][0] == built[i] && built[i..][1..] == built[i + 1..];
  }

  // ---------------------------------------------------------------------
  // The publisher

  class EventPublisher {
    /** The messages handed to Kafka so far. */
    var sent: seq<Message>

    constructor ()
      ensures sent == []
    {
      sent := [];
    }

    /** `publishEntityEvent`: false and nothing sent on an invalid topic,
        else true and one message keyed by the entity id. */
    method PublishEntityEvent(ports: Ports, event: EntityEvent, entityType: string) returns (published: bool)
      modifies this
      ensures published <==> ComposeTopicName(ports, entityType, event.contexts).Some?
      ensures sent == old(sent) + Published(ports, event, entityType)
    {
      var topic := ComposeTopicName(ports, entityType, event.contexts);
      if topic.None? {
        return false;
      }
      sent := sent + [Message(topic.value, event.entityId, event)];
      return true;
    }

    /** The loop shared by the three attribute-event publishers. */
    method PublishAttributeEvents(ports: Ports, publisher: Publisher, entityId: string, fragment: Members,
                                  details: seq<UpdatedDetails>, updatedEntity: J.JsonLdEntity, contexts: seq<string>)
      returns (outcome: Check)
      modifies this
      ensures outcome == AttributeMessages(ports, publisher, entityId, fragment, details, updatedEntity, contexts).0
      ensures sent == old(sent) + AttributeMessages(ports, publisher, entityId, fragment, details, updatedEntity, contexts).1
    {
      ghost var built := BuiltEvents(ports, publisher, entityId, fragment, details, updatedEntity, contexts);
      PublishedFromMessages(ports, built, J.Type(updatedEntity), sent);
      var i := 0;
      while i < |details|
        invariant 0 <= i <= |details|
        invariant PublishedFrom(ports, built[i..], J.Type(updatedEntity), sent) ==
          PublishedFrom(ports, built, J.Type(updatedEntity), old(sent))
      {
        PublishedFromStep(ports, built, J.Type(updatedEntity), sent, i);
        var event := AttributeEvent(ports, publisher, entityId, fragment, details[i], updatedEntity, contexts);
        if event.Err? {
          return Fail(event.error);
        }
        var entityType := J.Type(updatedEntity);
        if entityType.Err? {
          return Fail(entityType.error);
        }
        var _ := PublishEntityEvent(ports, event.value, entityType.value);
        i := i + 1;
      }
      assert built[i..] == [];
      return Pass;
    }

    /** `publishAppendEntityAttributesEvents`: the updated details of the
        append result; the not-updated ones publish nothing. */
    method PublishAppendEntityAttributesEvents(ports: Ports, entityId: string, fragment: Members, appendResult: UpdateResult,
                                               updatedEntity: J.JsonLdEntity, contexts: seq<string>) returns (outcome: Check)
      modifies this
      ensures outcome == AttributeMessages(ports, Append, entityId, fragment, appendResult.updated, updatedEntity, contexts).0
      ensures sent == old(sent) + AttributeMessages(ports, Append, entityId, fragment, appendResult.updated, updatedEntity, contexts).1
    {
      outcome := PublishAttributeEvents(ports, Append, entityId, fragment, appendResult.updated, updatedEntity, contexts);
    }

    /** `publishUpdateEntityAttributesEvents` */
    method PublishUpdateEntityAttributesEvents(ports: Ports, entityId: string, fragment: Members, updateResult: UpdateResult,
                                               updatedEntity: J.JsonLdEntity, contexts: seq<string>) returns (outcome: Check)
      modifies this
      ensures outcome == AttributeMessages(ports, Update, entityId, fragment, updateResult.updated, updatedEntity, contexts).0
      ensures sent == old(sent) + AttributeMessages(ports, Update, entityId, fragment, updateResult.updated, updatedEntity, contexts).1
    {
      outcome := PublishAttributeEvents(ports, Update, entityId, fragment, updateResult.updated, updatedEntity, contexts);
    }

    /** `publishPartialUpdateEntityAttributesEvents` */
    method PublishPartialUpdateEntityAttributesEvents(ports: Ports, entityId: string, fragment: Members,
                                                      updatedDetails: seq<UpdatedDetails>, updatedEntity: J.JsonLdEntity,
                                                      contexts: seq<string>) returns (outcome: Check)
      modifies this
      ensures outcome == AttributeMessages(ports, PartialUpdate, entityId, fragment, updatedDetails, updatedEntity, contexts).0
      ensures sent == old(sent) + AttributeMessages(ports, PartialUpdate, entityId, fragment, updatedDetails, updatedEntity, contexts).1
    {
      outcome := PublishAttributeEvents(ports, PartialUpdate, entityId, fragment, updatedDetails, updatedEntity, contexts);
    }
  }
}
