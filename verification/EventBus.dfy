/** The pure part of src/eventbus.rs: routing, encoding, retry arithmetic and the commit decision. */
module EventBus {
  import opened Wrappers
  import opened PayloadGate

  /** The fields of CommonEvent that routing, encoding and deduplication look at. */
  datatype CommonEvent = CommonEvent(
    eventId: string,
    eventType: string,
    projectId: string,
    companyId: string,
    channelId: Option<string>,
    conversationId: Option<string>,
    payload: Json)

  datatype KafkaConfig = KafkaConfig(
    topicPrefix: string,
    deadletterTopicSuffix: string,
    messageMaxBytes: nat,
    retryMaxAttempts: nat)

  datatype DeadLetterEnvelope = DeadLetterEnvelope(event: CommonEvent, retryCount: nat, errorCode: string)

  datatype EventBusError =
    | RawMediaBytes(eventId: string, field: string)
    | MessageTooLarge(eventId: string, actual: nat, limit: nat)
    | Kafka(message: string)

  /** The settings of one deployment. topicOf and keyOf are topic_for_event and partition_key (see Deployment);
      the JSON codec and the broker's partitioner are outside this code, and readsBack says whether the
      stored JSON of an event decodes again in the running build. */
  datatype Env = Env(
    kafka: KafkaConfig,
    topicOf: CommonEvent -> string,
    keyOf: CommonEvent -> string,
    readsBack: CommonEvent -> bool,
    eventSize: CommonEvent -> nat,
    envelopeSize: DeadLetterEnvelope -> nat,
    partitionOf: (string, string) -> nat)

  function Deployment(kafka: KafkaConfig, readsBack: CommonEvent -> bool, eventSize: CommonEvent -> nat,
                      envelopeSize: DeadLetterEnvelope -> nat, partitionOf: (string, string) -> nat): Env {
    Env(kafka, (event: CommonEvent) => TopicForEvent(kafka, event.eventType),
        (event: CommonEvent) => PartitionKey(event), readsBack, eventSize, envelopeSize, partitionOf)
  }

  /** The environment routes as topic_for_event and partition_key do. */
  ghost predicate RoutesLikeSource(env: Env) {
    forall e :: env.topicOf(e) == TopicForEvent(env.kafka, e.eventType) && env.keyOf(e) == PartitionKey(e)
  }

  /** The bytes of a broker record, known by what they encode. */
  datatype WireValue = EventValue(event: CommonEvent) | EnvelopeValue(envelope: DeadLetterEnvelope)

  predicate StartsWith(s: string, prefix: string) {
    prefix <= s
  }

  predicate EndsWith(s: string, suffix: string) {
    |suffix| <= |s| && s[|s| - |suffix|..] == suffix
  }

  function TopicSuffix(eventType: string): string {
    if eventType == "whatsapp.raw.inbound" then "raw.inbound"
    else if eventType == "outbound.send.requested" then "outbound.send.requested"
    else if eventType in {"message.queued", "message.received", "message.sent", "message.failed",
                          "message.updated", "message.persisted", "message.reaction"} then "message.persisted"
    else if eventType == "media.download.requested" then "media.download.requested"
    else if eventType == "media.stored" then "media.stored"
    else if eventType == "audio.transcription.requested" then "audio.transcription.requested"
    else if eventType in {"audio.transcribed", "transcript.completed"} then "audio.transcribed"
    else if eventType == "conversation.dirty" then "conversation.dirty"
    else if eventType in {"conversation.read", "conversation.updated"} then "conversation.event"
    else if eventType == "message.receipt" then "delivery.receipt"
    else if eventType in {"channel.connected", "channel.disconnected", "channel.qr", "channel.logged_out"}
      then "channel.status"
    else if eventType == "contact.updated" then "contact.updated"
    else if StartsWith(eventType, "group.") then "group.event"
    else if StartsWith(eventType, "websocket.") then "websocket.event"
    else if EndsWith(eventType, ".ignored") || StartsWith(eventType, "whatsapp_updates.") ||
            StartsWith(eventType, "history_sync.") || eventType == "ignored_old_message" then "system.event"
    else "raw.inbound"
  }

  function TopicForEvent(kafka: KafkaConfig, eventType: string): string {
    kafka.topicPrefix + "." + TopicSuffix(eventType)
  }

  function DeadletterTopic(kafka: KafkaConfig): string {
    kafka.topicPrefix + "." + kafka.deadletterTopicSuffix
  }

  function PartitionKey(event: CommonEvent): string {
    if event.conversationId.Some? then
      event.projectId + ":" + event.companyId + ":" + event.conversationId.value
    else if event.channelId.Some? then
      event.projectId + ":" + event.companyId + ":" + event.channelId.value
    else
      event.projectId + ":" + event.companyId
  }

  /** The topic and partition that an event's own fields send it to. */
  function Route(env: Env, event: CommonEvent): (string, nat) {
    (env.topicOf(event), env.partitionOf(env.topicOf(event), env.keyOf(event)))
  }

  function EncodeEvent(env: Env, event: CommonEvent): Result<WireValue, EventBusError> {
    var field := RawMediaField(event.payload);
    if field.Some? then Err(RawMediaBytes(event.eventId, field.value))
    else if env.eventSize(event) > env.kafka.messageMaxBytes then
      Err(MessageTooLarge(event.eventId, env.eventSize(event), env.kafka.messageMaxBytes))
    else Ok(EventValue(event))
  }

  function EncodeDeadletter(env: Env, envelope: DeadLetterEnvelope): Result<WireValue, EventBusError> {
    var field := RawMediaField(envelope.event.payload);
    if field.Some? then Err(RawMediaBytes(envelope.event.eventId, field.value))
    else if env.envelopeSize(envelope) > env.kafka.messageMaxBytes then
      Err(MessageTooLarge(envelope.event.eventId, env.envelopeSize(envelope), env.kafka.messageMaxBytes))
    else Ok(EnvelopeValue(envelope))
  }

  /** decode_event_from_kafka: a deadletter envelope is not a CommonEvent. */
  function DecodeEvent(env: Env, value: WireValue): Option<CommonEvent> {
    if value.EventValue? && env.readsBack(value.event) then Some(value.event) else None
  }

  /** No record that carries this value exposes raw media at any depth of its event payload. */
  ghost predicate Clean(value: WireValue) {
    var event := if value.EventValue? then value.event else value.envelope.event;
    forall p :: !Leads(event.payload, p)
  }

  /** Whatever an encoder accepts has no forbidden key at any depth, and is the event it was given. */
  lemma EncodersKeepMediaOut(env: Env, event: CommonEvent, envelope: DeadLetterEnvelope)
    ensures EncodeEvent(env, event).Ok? ==> Clean(EncodeEvent(env, event).value)
    ensures EncodeDeadletter(env, envelope).Ok? ==> Clean(EncodeDeadletter(env, envelope).value)
    ensures ForbiddenPaths(event.payload) != [] ==>
              EncodeEvent(env, event) == Err(RawMediaBytes(event.eventId, Render("", ForbiddenPaths(event.payload)[0])))
  {
    GateAgreement(event.payload);
    GateAgreement(envelope.event.payload);
  }

  /** The answer names the event and spells the first path in pre-order that leads to a forbidden key. */
  predicate RefusedForMedia(answer: Result<WireValue, EventBusError>, event: CommonEvent) {
    var paths := ForbiddenPaths(event.payload);
    paths != [] && answer == Err(RawMediaBytes(event.eventId, Render("", paths[0])))
  }

  /** What the event encoder answers, exactly: it accepts an event if and only if no path of its payload leads to a
      forbidden key and its bytes are within the limit; what it accepts is that event, and an event that is clean but
      too large is answered with its size and the limit. */
  lemma EncodeEventIsExact(env: Env, event: CommonEvent)
    ensures EncodeEvent(env, event).Ok? <==>
            (forall p :: !Leads(event.payload, p)) && env.eventSize(event) <= env.kafka.messageMaxBytes
    ensures EncodeEvent(env, event).Ok? ==> EncodeEvent(env, event).value == EventValue(event)
    ensures (forall p :: !Leads(event.payload, p)) && env.eventSize(event) > env.kafka.messageMaxBytes ==>
              EncodeEvent(env, event) ==
                Err(MessageTooLarge(event.eventId, env.eventSize(event), env.kafka.messageMaxBytes))
    ensures (exists p :: Leads(event.payload, p)) ==> RefusedForMedia(EncodeEvent(env, event), event)
  {
    GateAgreement(event.payload);
    if p :| Leads(event.payload, p) {
      PathsAreExact(event.payload, p);
    }
  }

  /** The same of the deadletter encoder: the gate looks at the event inside, the limit at the whole envelope. */
  lemma EncodeDeadletterIsExact(env: Env, envelope: DeadLetterEnvelope)
    ensures EncodeDeadletter(env, envelope).Ok? <==>
            (forall p :: !Leads(envelope.event.payload, p)) && env.envelopeSize(envelope) <= env.kafka.messageMaxBytes
    ensures EncodeDeadletter(env, envelope).Ok? ==> EncodeDeadletter(env, envelope).value == EnvelopeValue(envelope)
    ensures (forall p :: !Leads(envelope.event.payload, p)) &&
            env.envelopeSize(envelope) > env.kafka.messageMaxBytes ==>
              EncodeDeadletter(env, envelope) ==
                Err(MessageTooLarge(envelope.event.eventId, env.envelopeSize(envelope), env.kafka.messageMaxBytes))
    ensures (exists p :: Leads(envelope.event.payload, p)) ==>
              RefusedForMedia(EncodeDeadletter(env, envelope), envelope.event)
  {
    GateAgreement(envelope.event.payload);
    if p :| Leads(envelope.event.payload, p) {
      PathsAreExact(envelope.event.payload, p);
    }
  }

  /** A consumer reads back the event that was encoded, if its build reads that event at all, and never takes a
      deadletter envelope for an event. */
  lemma DecodeUndoesEncode(env: Env, event: CommonEvent, envelope: DeadLetterEnvelope)
    ensures EncodeEvent(env, event).Ok? ==>
              DecodeEvent(env, EncodeEvent(env, event).value) == if env.readsBack(event) then Some(event) else None
    ensures EncodeDeadletter(env, envelope).Ok? ==> DecodeEvent(env, EncodeDeadletter(env, envelope).value) == None
  {
  }

  // ---------------------------------------------------------------------
  // Partition keys.

  lemma SameTail(prefix: string, a: string, b: string)
    ensures prefix + a == prefix + b <==> a == b
  {
    assert (prefix + a)[|prefix|..] == a && (prefix + b)[|prefix|..] == b;
  }

  /** What the partition key tells apart within a company: conversations, whatever the channels, where both events have
      one; channels where neither has a conversation; nothing where they have neither. */
  lemma KeysTellConversations(a: CommonEvent, b: CommonEvent)
    requires a.projectId == b.projectId && a.companyId == b.companyId
    ensures a.conversationId.Some? && b.conversationId.Some? ==>
              (PartitionKey(a) == PartitionKey(b) <==> a.conversationId == b.conversationId)
    ensures a.conversationId.None? && b.conversationId.None? && a.channelId.Some? && b.channelId.Some? ==>
              (PartitionKey(a) == PartitionKey(b) <==> a.channelId == b.channelId)
    ensures a.conversationId.None? && a.channelId.None? ==> PartitionKey(a) == a.projectId + ":" + a.companyId
    ensures a.conversationId.None? && a.channelId.None? ==>
              (PartitionKey(a) == PartitionKey(b) <==> b.conversationId.None? && b.channelId.None?)
  {
    var company := a.projectId + ":" + a.companyId;
    SameTail(company + ":", a.conversationId.GetOr(""), b.conversationId.GetOr(""));
    SameTail(company + ":", a.channelId.GetOr(""), b.channelId.GetOr(""));
    assert |PartitionKey(b)| == |company| <==> b.conversationId.None? && b.channelId.None?;
  }

  /** The key begins with project and company, and ends with the conversation or else the channel. */
  lemma KeyIsSpelled(event: CommonEvent)
    ensures event.projectId + ":" + event.companyId <= PartitionKey(event)
    ensures var last := if event.conversationId.Some? then event.conversationId else event.channelId;
            last.Some? ==> PartitionKey(event) == event.projectId + ":" + event.companyId + ":" + last.value
  {
  }

  // ---------------------------------------------------------------------
  // Retry arithmetic.

  const MAX_I32 := 0x7fff_ffff

  /** record.attempt_count.saturating_add(1), an i32. */
  function NextAttempt(attemptCount: nat): nat {
    if attemptCount < MAX_I32 then attemptCount + 1 else MAX_I32
  }

  function Pow2(n: nat): nat {
    if n == 0 then 1 else 2 * Pow2(n - 1)
  }

  /** Seconds to wait after the given attempt failed: 5 * 2^min(attempts, 6). */
  function Backoff(attempts: nat): nat {
    5 * Pow2(if attempts < 6 then attempts else 6)
  }

  // ---------------------------------------------------------------------
  // The consumer's commit decision.

  datatype HandlerStatus = Processed | Duplicate | Retried | DeadLettered
  datatype CommitDecision = Commit | DoNotCommit

  function FromHandlerResult(result: Result<HandlerStatus, EventBusError>): CommitDecision {
    match result
    case Ok(_) => Commit
    case Err(_) => DoNotCommit
  }
}
