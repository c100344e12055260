/** Which topics there are, which events go to them, and which worker group reads them (src/eventbus.rs:
    required_topic_specs, topic_for_event; src/workers.rs: spawn, handle_message). */
module Topics {
  import opened EventBus

  function MessageSuffixes(): set<string> {
    {"raw.inbound", "outbound.send.requested", "message.persisted", "media.download.requested", "media.stored"}
  }

  function ConversationSuffixes(): set<string> {
    {"audio.transcription.requested", "audio.transcribed", "conversation.dirty", "conversation.event",
      "delivery.receipt"}
  }

  function StatusSuffixes(): set<string> {
    {"channel.status", "contact.updated", "group.event", "websocket.event", "system.event"}
  }

  /** EVENT_TOPIC_SUFFIXES */
  function EventTopicSuffixes(): set<string> {
    MessageSuffixes() + ConversationSuffixes() + StatusSuffixes()
  }

  function TopicName(kafka: KafkaConfig, suffix: string): string {
    kafka.topicPrefix + "." + suffix
  }

  /** The names of required_topic_specs. */
  function RequiredTopics(kafka: KafkaConfig, retrySuffix: string): set<string> {
    set suffix | suffix in EventTopicSuffixes() + {retrySuffix, kafka.deadletterTopicSuffix} :: TopicName(kafka, suffix)
  }

  lemma NamesAreDistinct(kafka: KafkaConfig, a: string, b: string)
    requires TopicName(kafka, a) == TopicName(kafka, b)
    ensures a == b
  {
    var prefix := kafka.topicPrefix + ".";
    assert (prefix + a)[|prefix|..] == a && (prefix + b)[|prefix|..] == b;
  }

  lemma SuffixIsListed(eventType: string)
    ensures TopicSuffix(eventType) in EventTopicSuffixes()
  {
  }

  lemma MessageTypeFor(suffix: string) returns (eventType: string)
    requires suffix in MessageSuffixes()
    ensures TopicSuffix(eventType) == suffix
  {
    if suffix == "raw.inbound" {
      eventType := "whatsapp.raw.inbound";
    } else if suffix == "outbound.send.requested" {
      eventType := "outbound.send.requested";
    } else if suffix == "message.persisted" {
      eventType := "message.queued";
    } else if suffix == "media.download.requested" {
      eventType := "media.download.requested";
    } else {
      eventType := "media.stored";
    }
  }

  lemma ConversationTypeFor(suffix: string) returns (eventType: string)
    requires suffix in ConversationSuffixes()
    ensures TopicSuffix(eventType) == suffix
  {
    if suffix == "audio.transcription.requested" {
      eventType := "audio.transcription.requested";
    } else if suffix == "audio.transcribed" {
      eventType := "audio.transcribed";
    } else if suffix == "conversation.dirty" {
      eventType := "conversation.dirty";
    } else if suffix == "conversation.event" {
      eventType := "conversation.read";
    } else {
      eventType := "message.receipt";
    }
  }

  /** Every type with one of the two prefixes goes to the topic for that prefix. */
  lemma GroupSuffix(rest: string)
    ensures TopicSuffix("group." + rest) == "group.event"
  {
    var eventType := "group." + rest;
    assert eventType[0] == 'g' && eventType[1] == 'r';
    assert eventType[..6] == "group.";
  }

  lemma SystemSuffix()
    ensures TopicSuffix("ignored_old_message") == "system.event"
  {
    var eventType := "ignored_old_message";
    assert eventType[0] == 'i' && "group."[0] == 'g' && "websocket."[0] == 'w';
  }

  lemma WebsocketSuffix(eventType: string)
    requires StartsWith(eventType, "websocket.")
    ensures TopicSuffix(eventType) == "websocket.event"
  {
    assert eventType[0] == 'w' && eventType[1] == 'e';
    assert "group."[0] == 'g';
  }

  lemma StatusTypeFor(suffix: string) returns (eventType: string)
    requires suffix in StatusSuffixes()
    ensures TopicSuffix(eventType) == suffix
  {
    if suffix == "channel.status" {
      eventType := "channel.qr";
    } else if suffix == "contact.updated" {
      eventType := "contact.updated";
    } else if suffix == "group.event" {
      eventType := "group.";
      GroupSuffix("");
      assert "group." + "" == "group.";
    } else if suffix == "websocket.event" {
      eventType := "websocket.";
      WebsocketSuffix(eventType);
    } else {
      eventType := "ignored_old_message";
      SystemSuffix();
    }
  }

  /** Every listed suffix is that of some event type. */
  lemma TypeFor(suffix: string) returns (eventType: string)
    requires suffix in EventTopicSuffixes()
    ensures TopicSuffix(eventType) == suffix
  {
    if suffix in MessageSuffixes() {
      eventType := MessageTypeFor(suffix);
    } else if suffix in ConversationSuffixes() {
      eventType := ConversationTypeFor(suffix);
    } else {
      eventType := StatusTypeFor(suffix);
    }
  }

  /** The topics that are ensured at start are exactly those some event type goes to, the deadletter topic and the
      retry topic: nothing is published to a topic that was not required, and none is required for nothing. */
  lemma TopicsAreRequired(kafka: KafkaConfig, retrySuffix: string, name: string)
    ensures name in RequiredTopics(kafka, retrySuffix) <==>
            || (exists eventType :: TopicForEvent(kafka, eventType) == name)
            || name == DeadletterTopic(kafka)
            || name == TopicName(kafka, retrySuffix)
  {
    if name in RequiredTopics(kafka, retrySuffix) {
      var suffix :| suffix in EventTopicSuffixes() + {retrySuffix, kafka.deadletterTopicSuffix} &&
        TopicName(kafka, suffix) == name;
      if suffix in EventTopicSuffixes() {
        var eventType := TypeFor(suffix);
        assert TopicForEvent(kafka, eventType) == name;
      }
    }
    if eventType :| TopicForEvent(kafka, eventType) == name {
      SuffixIsListed(eventType);
      assert TopicName(kafka, TopicSuffix(eventType)) == name;
    }
  }

  // ---------------------------------------------------------------------
  // Which types go to which topic, exactly

  lemma MessageTypes(eventType: string)
    ensures TopicSuffix(eventType) == "message.persisted" <==>
            eventType in {"message.queued", "message.received", "message.sent", "message.failed", "message.updated",
                          "message.persisted", "message.reaction"}
  {
  }

  lemma DownloadTypes(eventType: string)
    ensures TopicSuffix(eventType) == "media.download.requested" <==> eventType == "media.download.requested"
  {
  }

  lemma MediaTypes(eventType: string)
    ensures TopicSuffix(eventType) == "media.stored" <==> eventType == "media.stored"
  {
  }

  lemma TranscribedTypes(eventType: string)
    ensures TopicSuffix(eventType) == "audio.transcribed" <==>
            eventType in {"audio.transcribed", "transcript.completed"}
  {
  }

  lemma DirtyTypes(eventType: string)
    ensures TopicSuffix(eventType) == "conversation.dirty" <==> eventType == "conversation.dirty"
  {
  }

  lemma ConversationTypes(eventType: string)
    ensures TopicSuffix(eventType) == "conversation.event" <==>
            eventType in {"conversation.read", "conversation.updated"}
  {
  }

  lemma ReceiptTypes(eventType: string)
    ensures TopicSuffix(eventType) == "delivery.receipt" <==> eventType == "message.receipt"
  {
  }

  lemma StatusTypes(eventType: string)
    ensures TopicSuffix(eventType) == "channel.status" <==>
            eventType in {"channel.connected", "channel.disconnected", "channel.qr", "channel.logged_out"}
  {
  }

  lemma ContactTypes(eventType: string)
    ensures TopicSuffix(eventType) == "contact.updated" <==> eventType == "contact.updated"
  {
  }

  /** group. and websocket. are told by their prefixes. */
  lemma PrefixedTypes(eventType: string)
    ensures TopicSuffix(eventType) == "group.event" <==> StartsWith(eventType, "group.")
    ensures TopicSuffix(eventType) == "websocket.event" <==> StartsWith(eventType, "websocket.")
  {
    if StartsWith(eventType, "group.") {
      GroupSuffix(eventType[6..]);
      assert eventType == "group." + eventType[6..];
    }
    if StartsWith(eventType, "websocket.") {
      WebsocketSuffix(eventType);
    }
  }

  /** What the system topic takes: the types of ignored traffic, unless they are a group's or a websocket's. */
  predicate IsIgnored(eventType: string) {
    EndsWith(eventType, ".ignored") || StartsWith(eventType, "whatsapp_updates.") ||
    StartsWith(eventType, "history_sync.") || eventType == "ignored_old_message"
  }

  /** One character tells such a type from another. */
  predicate Apart(eventType: string, back: nat) {
    && |eventType| >= 8 && back < 8 && eventType[|eventType| - 1 - back] != ".ignored"[7 - back]
    && eventType[0] != 'h' && eventType[0] != 'i' && (eventType[0] == 'w' ==> |eventType| > 8 && eventType[8] != '_')
  }

  lemma ApartIsNotIgnored(eventType: string, back: nat)
    requires Apart(eventType, back)
    ensures !IsIgnored(eventType)
  {
    var last := eventType[|eventType| - 8..];
    assert last[7 - back] == eventType[|eventType| - 1 - back];
    assert "whatsapp_updates."[0] == 'w' && "whatsapp_updates."[8] == '_';
    assert "history_sync."[0] == 'h' && "ignored_old_message"[0] == 'i';
  }

  lemma MessagesAreNotIgnored(eventType: string)
    requires TopicSuffix(eventType) == "message.persisted" || eventType == "message.receipt"
    ensures !IsIgnored(eventType)
  {
    MessageTypes(eventType);
    ApartIsNotIgnored(eventType, 2);
  }

  lemma WorkIsNotIgnored(eventType: string)
    requires eventType in {"whatsapp.raw.inbound", "outbound.send.requested", "media.download.requested",
                           "audio.transcription.requested", "audio.transcribed", "transcript.completed"}
    ensures !IsIgnored(eventType)
  {
    ApartIsNotIgnored(eventType, 2);
  }

  lemma StatesAreNotIgnored(eventType: string)
    requires eventType in {"channel.connected", "channel.disconnected", "channel.qr", "channel.logged_out",
                           "contact.updated", "conversation.read", "conversation.updated"}
    ensures !IsIgnored(eventType)
  {
    ApartIsNotIgnored(eventType, 2);
  }

  lemma StoredAndDirtyAreNotIgnored(eventType: string)
    requires eventType in {"media.stored", "conversation.dirty"}
    ensures !IsIgnored(eventType)
  {
    ApartIsNotIgnored(eventType, 4);
  }

  lemma SystemTypes(eventType: string)
    ensures TopicSuffix(eventType) == "system.event" <==>
            IsIgnored(eventType) && !StartsWith(eventType, "group.") && !StartsWith(eventType, "websocket.")
  {
    if IsIgnored(eventType) {
      IgnoredIsUnlisted(eventType);
    }
  }

  /** The types that topic_for_event lists by name. */
  predicate IsListed(eventType: string) {
    || eventType in {"message.queued", "message.received", "message.sent", "message.failed", "message.updated",
                     "message.persisted", "message.reaction", "message.receipt"}
    || eventType in {"whatsapp.raw.inbound", "outbound.send.requested", "media.download.requested",
                     "audio.transcription.requested", "audio.transcribed", "transcript.completed"}
    || eventType in {"channel.connected", "channel.disconnected", "channel.qr", "channel.logged_out",
                     "contact.updated", "conversation.read", "conversation.updated"}
    || eventType in {"media.stored", "conversation.dirty"}
  }

  lemma IgnoredIsUnlisted(eventType: string)
    requires IsIgnored(eventType)
    ensures !IsListed(eventType)
  {
    if eventType in {"media.stored", "conversation.dirty"} {
      StoredAndDirtyAreNotIgnored(eventType);
    } else if eventType in {"channel.connected", "channel.disconnected", "channel.qr", "channel.logged_out",
                            "contact.updated", "conversation.read", "conversation.updated"} {
      StatesAreNotIgnored(eventType);
    } else if eventType in {"whatsapp.raw.inbound", "outbound.send.requested", "media.download.requested",
                            "audio.transcription.requested", "audio.transcribed", "transcript.completed"} {
      WorkIsNotIgnored(eventType);
    } else if IsListed(eventType) {
      MessagesAreNotIgnored(eventType);
    }
  }

  // ---------------------------------------------------------------------
  // Worker groups

  /** One group per kind of work; the group reads the topic of this event type. */
  datatype Worker = RawInbound | OutboundSend | AudioTranscription {
    function EventType(): string {
      match this
      case RawInbound => "whatsapp.raw.inbound"
      case OutboundSend => "outbound.send.requested"
      case AudioTranscription => "audio.transcription.requested"
    }
  }

  function Subscription(kafka: KafkaConfig, worker: Worker): string {
    TopicForEvent(kafka, worker.EventType())
  }

  /** handle_message has work to do for the type; any other type is just acknowledged. */
  predicate HasWork(eventType: string) {
    exists worker: Worker :: worker.EventType() == eventType
  }

  lemma SuffixOfSend(eventType: string)
    ensures TopicSuffix(eventType) == "outbound.send.requested" <==> eventType == "outbound.send.requested"
  {
  }

  lemma SuffixOfTranscription(eventType: string)
    ensures TopicSuffix(eventType) == "audio.transcription.requested" <==> eventType == "audio.transcription.requested"
  {
  }

  /** An event with work to do is read by exactly one group, the one for its type; the topics of the groups for sending
      and transcription carry nothing else, and whatever else the raw topic carries has no work to do. */
  lemma WorkGoesToOneGroup(kafka: KafkaConfig, eventType: string, worker: Worker)
    ensures HasWork(eventType) && TopicForEvent(kafka, eventType) == Subscription(kafka, worker) <==>
            eventType == worker.EventType()
    ensures !worker.RawInbound? ==>
              (TopicForEvent(kafka, eventType) == Subscription(kafka, worker) <==> eventType == worker.EventType())
  {
    SuffixOfSend(eventType);
    SuffixOfTranscription(eventType);
    SuffixOfSend(worker.EventType());
    SuffixOfTranscription(worker.EventType());
    if TopicForEvent(kafka, eventType) == Subscription(kafka, worker) {
      NamesAreDistinct(kafka, TopicSuffix(eventType), TopicSuffix(worker.EventType()));
    }
    if HasWork(eventType) {
      var other: Worker :| other.EventType() == eventType;
    }
  }
}
