/** publish_outbox_record, the publisher loop, handle_message and consume_one_message_with_inbox, run on the mutable
    store and broker: every branch is a sequence of steps of the pipeline. */
module Workers {
  import opened Wrappers
  import opened EventBus
  import opened Tables
  import opened Pipeline
  import opened Publishing
  import opened Progress
  import opened Consuming
  import opened MetadataDb

  /** The broker: outcome is what the outside decides about one send. */
  class KafkaEventBus {
    var log: Log

    constructor ()
      ensures log == map[]
    {
      log := map[];
    }

    method PublishPayload(topic: string, key: string, value: WireValue, outcome: SendOutcome)
      returns (ack: Result<Position, string>)
      modifies this
      ensures log == AfterSend(old(log), topic, Record(key, value), outcome)
      ensures ack == if outcome.Delivered?
                     then Ok(Position(outcome.partition, |Contents(old(log), topic, outcome.partition)|))
                     else Err(outcome.error)
    {
      if outcome.NotSent? {
        return Err(outcome.error);
      }
      var offset := |Contents(log, topic, outcome.partition)|;
      log := Append(log, topic, outcome.partition, Record(key, value));
      ack := if outcome.Delivered? then Ok(Position(outcome.partition, offset)) else Err(outcome.error);
    }
  }

  class Metrics {
    var publishAttempts: nat
    var publishSuccesses: nat
    var publishFailures: nat
    var deadletterAttempts: nat
    var deadletterSuccesses: nat
    var lastTopic: Option<string>
    var lastError: Option<string>

    constructor ()
      ensures publishAttempts == publishSuccesses == publishFailures == deadletterAttempts == deadletterSuccesses == 0
    {
      publishAttempts, publishSuccesses, publishFailures, deadletterAttempts, deadletterSuccesses := 0, 0, 0, 0, 0;
      lastTopic, lastError := None, None;
    }

    /** Outside a call every attempt has become one success or one failure. */
    predicate Balanced()
      reads this
    {
      publishAttempts == publishSuccesses + publishFailures &&
        deadletterSuccesses <= deadletterAttempts <= publishFailures
    }
  }

  /** One record. Publishing.CallIsSteps shows that the three tables end up where a sequence of pipeline steps
      takes them, from any state the call can start in. */
  method PublishOutboxRecord(db: MetadataDb, kafka: KafkaEventBus, metrics: Metrics, record: Claimed, io: PublishIo,
                             now: Time)
    modifies db`outbox, db`deadletters, kafka, metrics
    ensures db.outbox == OutboxAfterCall(db.env, old(db.outbox), old(kafka.log), record, io, now)
    ensures db.deadletters == DeadlettersAfterCall(db.env, old(db.deadletters), record, io)
    ensures kafka.log == LogAfterCall(db.env, old(kafka.log), record, io)
    ensures old(metrics.Balanced()) ==> metrics.Balanced()
    ensures metrics.publishAttempts == old(metrics.publishAttempts) + 1 && metrics.lastTopic == Some(record.topic)
    ensures var sent := record.payload.Readable? && Encodes(db.env, record.payload.event);
            var published := sent && io.send.Delivered?;
            var exhausted := sent && !io.send.Delivered? && Exhausted(db.env, record);
            var refused, relayed := record.payload.Readable? && !sent, RelayOutcome(db.env, record, io).Delivered?;
            && metrics.publishSuccesses == old(metrics.publishSuccesses) + (if published then 1 else 0)
            && metrics.publishFailures == old(metrics.publishFailures) + (if published then 0 else 1)
            && metrics.deadletterAttempts == old(metrics.deadletterAttempts) + (if refused || exhausted then 1 else 0)
            && metrics.deadletterSuccesses ==
               old(metrics.deadletterSuccesses) + (if exhausted && relayed then 1 else 0)
            && metrics.lastError == if published then None else Some(if sent then io.send.error else io.error)
  {
    metrics.publishAttempts := metrics.publishAttempts + 1;
    metrics.lastTopic := Some(record.topic);
    if record.payload.Unreadable? {
      var _ := db.MarkEventOutboxFailed(record.eventId, io.error, 60, now, io.markOk);
      metrics.publishFailures := metrics.publishFailures + 1;
      metrics.lastError := Some(io.error);
      return;
    }
    var event := record.payload.event;
    var payload := EncodeEvent(db.env, event);
    if payload.Err? {
      RefusedEncode(db, metrics, record, io);
      return;
    }
    var ack := kafka.PublishPayload(record.topic, record.partitionKey, payload.value, io.send);
    if ack.Ok? {
      var _ := db.MarkEventOutboxPublished(record.eventId, ack.value, now, io.markOk);
      metrics.publishSuccesses := metrics.publishSuccesses + 1;
      metrics.lastError := None;
    } else {
      FailedSend(db, kafka, metrics, record, io, now);
    }
  }

  /** The Err arm of the encoder: mark first, then insert. */
  method RefusedEncode(db: MetadataDb, metrics: Metrics, record: Claimed, io: PublishIo)
    requires record.payload.Readable?
    modifies db`outbox, db`deadletters, metrics
    ensures db.outbox == if MarkLands(old(db.outbox), record, io) then
            MarkDeadlettered(old(db.outbox), record.eventId, io.error)
                         else old(db.outbox)
    ensures db.deadletters == if !io.fileOk then old(db.deadletters)
                              else InsertDeadletter(db.env, old(db.deadletters),
                                                    DeadLetterEnvelope(record.payload.event, record.attemptCount + 1,
                                                                       io.error),
                                                    Some(record.topic), record.partitionKey)
    ensures metrics.publishAttempts == old(metrics.publishAttempts) &&
            metrics.publishSuccesses == old(metrics.publishSuccesses)
    ensures metrics.publishFailures == old(metrics.publishFailures) + 1
    ensures metrics.deadletterSuccesses == old(metrics.deadletterSuccesses)
    ensures metrics.deadletterAttempts == old(metrics.deadletterAttempts) + 1
    ensures metrics.lastTopic == old(metrics.lastTopic) && metrics.lastError == Some(io.error)
  {
    var _ := db.MarkEventOutboxDeadlettered(record.eventId, io.error, io.markOk);
    var envelope := DeadLetterEnvelope(record.payload.event, record.attemptCount + 1, io.error);
    var _ := db.InsertKafkaDeadletter(envelope, Some(record.topic), record.partitionKey, io.fileOk);
    metrics.publishFailures := metrics.publishFailures + 1;
    metrics.deadletterAttempts := metrics.deadletterAttempts + 1;
    metrics.lastError := Some(io.error);
  }

  /** The Err arm of the send: deadletter when the attempts are used up, otherwise schedule a retry. */
  method FailedSend(db: MetadataDb, kafka: KafkaEventBus, metrics: Metrics, record: Claimed, io: PublishIo, now: Time)
    requires record.payload.Readable? && Encodes(db.env, record.payload.event) && !io.send.Delivered?
    modifies db`outbox, db`deadletters, kafka, metrics
    ensures db.outbox == OutboxAfterCall(db.env, old(db.outbox), old(kafka.log), record, io, now)
    ensures db.deadletters == DeadlettersAfterCall(db.env, old(db.deadletters), record, io)
    ensures kafka.log == if Exhausted(db.env, record)
                         then AfterSend(old(kafka.log), DeadletterTopic(db.env.kafka),
                                        Record(db.env.keyOf(record.payload.event),
                                               EnvelopeValue(ExhaustedEnvelope(record, io.send.error))),
                                        RelayOutcome(db.env, record, io))
                         else old(kafka.log)
    ensures metrics.publishAttempts == old(metrics.publishAttempts) &&
            metrics.publishSuccesses == old(metrics.publishSuccesses)
    ensures metrics.publishFailures == old(metrics.publishFailures) + 1
    ensures var exhausted := Exhausted(db.env, record);
            && metrics.deadletterAttempts == old(metrics.deadletterAttempts) + (if exhausted then 1 else 0)
            && metrics.deadletterSuccesses == old(metrics.deadletterSuccesses) +
               (if exhausted && RelayOutcome(db.env, record, io).Delivered? then 1 else 0)
    ensures metrics.lastTopic == old(metrics.lastTopic) && metrics.lastError == Some(io.send.error)
  {
    var error := io.send.error;
    var attempts := NextAttempt(record.attemptCount);
    if attempts >= db.env.kafka.retryMaxAttempts {
      var envelope := DeadLetterEnvelope(record.payload.event, attempts, error);
      var _ := db.InsertKafkaDeadletter(envelope, Some(record.topic), record.partitionKey, io.fileOk);
      var relayed := PublishDeadletter(db.env, kafka, envelope, io.relay);
      if relayed {
        metrics.deadletterSuccesses := metrics.deadletterSuccesses + 1;
      }
      var _ := db.MarkEventOutboxDeadlettered(record.eventId, error, io.markOk);
      metrics.deadletterAttempts := metrics.deadletterAttempts + 1;
    } else {
      var _ := db.MarkEventOutboxFailed(record.eventId, error, Backoff(attempts), now, io.markOk);
    }
    metrics.publishFailures := metrics.publishFailures + 1;
    metrics.lastError := Some(error);
  }

  method PublishDeadletter(env: Env, kafka: KafkaEventBus, envelope: DeadLetterEnvelope, outcome: SendOutcome)
    returns (ok: bool)
    modifies kafka
    ensures var sent := if EncodeDeadletter(env, envelope).Ok? then outcome else NotSent("not encodable");
            && kafka.log == AfterSend(old(kafka.log), DeadletterTopic(env.kafka),
                                      Record(env.keyOf(envelope.event), EnvelopeValue(envelope)), sent)
            && ok == sent.Delivered?
  {
    var payload := EncodeDeadletter(env, envelope);
    if payload.Err? {
      return false;
    }
    var ack := kafka.PublishPayload(DeadletterTopic(env.kafka), env.keyOf(envelope.event), payload.value, outcome);
    ok := ack.Ok?;
  }

  lemma {:induction false} DrainSnoc(env: Env, rows: Outbox, batch: seq<Claimed>, calls: seq<Call>, c: Claimed,
                                     call: Call)
    requires |batch| == |calls|
    ensures Drain(env, rows, batch + [c], calls + [call])
            == OutboxAfterCall(env, Drain(env, rows, batch, calls), call.log, c, call.io, call.at)
  {
    if batch == [] {
      assert batch + [c] == [c] && calls + [call] == [call];
      assert [c][1..] == [] && [call][1..] == [];
    } else {
      var rows1 := OutboxAfterCall(env, rows, calls[0].log, batch[0], calls[0].io, calls[0].at);
      DrainSnoc(env, rows1, batch[1..], calls[1..], c, call);
      assert (batch + [c])[1..] == batch[1..] + [c] && (calls + [call])[1..] == calls[1..] + [call];
    }
  }

  /** kafka_deadletters after the calls of a batch. */
  function FiledByBatch(env: Env, rows: Deadletters, batch: seq<Claimed>, calls: seq<Call>): Deadletters
    requires |batch| == |calls|
  {
    if batch == [] then rows
    else
      var last := |batch| - 1;
      DeadlettersAfterCall(env, FiledByBatch(env, rows, batch[..last], calls[..last]), batch[last], calls[last].io)
  }

  /** The broker's log after the calls of a batch. */
  function LoggedByBatch(env: Env, log: Log, batch: seq<Claimed>, calls: seq<Call>): Log
    requires |batch| == |calls|
  {
    if batch == [] then log
    else
      var last := |batch| - 1;
      LogAfterCall(env, LoggedByBatch(env, log, batch[..last], calls[..last]), batch[last], calls[last].io)
  }

  /** Each call saw the log as the calls before it left it. */
  ghost predicate SawLog(env: Env, log: Log, batch: seq<Claimed>, calls: seq<Call>)
    requires |batch| == |calls|
  {
    forall i :: 0 <= i < |calls| ==> calls[i].log == LoggedByBatch(env, log, batch[..i], calls[..i])
  }

  /** The tables and the log as a batch's calls leave them. */
  ghost predicate BatchGives(env: Env, outbox: Outbox, rows: Deadletters, log: Log, batch: seq<Claimed>,
                             calls: seq<Call>, outbox': Outbox, rows': Deadletters, log': Log)
    requires |batch| == |calls|
  {
    && outbox' == Drain(env, outbox, batch, calls) && rows' == FiledByBatch(env, rows, batch, calls)
    && log' == LoggedByBatch(env, log, batch, calls) && SawLog(env, log, batch, calls)
  }

  /** One call more. */
  lemma BatchSnoc(env: Env, outbox: Outbox, rows: Deadletters, log: Log, batch: seq<Claimed>, calls: seq<Call>,
                  outbox1: Outbox, rows1: Deadletters, log1: Log, c: Claimed, call: Call)
    requires |batch| == |calls| && BatchGives(env, outbox, rows, log, batch, calls, outbox1, rows1, log1) &&
             call.log == log1
    ensures BatchGives(env, outbox, rows, log, batch + [c], calls + [call],
                       OutboxAfterCall(env, outbox1, log1, c, call.io, call.at),
                       DeadlettersAfterCall(env, rows1, c, call.io), LogAfterCall(env, log1, c, call.io))
  {
    DrainSnoc(env, outbox, batch, calls, c, call);
    FoldsSnoc(env, rows, log, batch, calls, c, call);
    SawLogSnoc(env, log, batch, calls, c, call);
  }

  lemma FoldsSnoc(env: Env, rows: Deadletters, log: Log, batch: seq<Claimed>, calls: seq<Call>, c: Claimed, call: Call)
    requires |batch| == |calls|
    ensures FiledByBatch(env, rows, batch + [c], calls + [call])
            == DeadlettersAfterCall(env, FiledByBatch(env, rows, batch, calls), c, call.io)
    ensures LoggedByBatch(env, log, batch + [c], calls + [call]) ==
            LogAfterCall(env, LoggedByBatch(env, log, batch, calls), c, call.io)
  {
    assert (batch + [c])[..|batch|] == batch && (calls + [call])[..|batch|] == calls;
  }

  lemma SawLogSnoc(env: Env, log: Log, batch: seq<Claimed>, calls: seq<Call>, c: Claimed, call: Call)
    requires |batch| == |calls| && SawLog(env, log, batch, calls) && call.log == LoggedByBatch(env, log, batch, calls)
    ensures SawLog(env, log, batch + [c], calls + [call])
  {
    forall i | 0 <= i < |calls| + 1
      ensures (calls + [call])[i].log == LoggedByBatch(env, log, (batch + [c])[..i], (calls + [call])[..i])
    {
      assert (batch + [c])[..i] == batch[..i] && (calls + [call])[..i] == calls[..i];
      assert i == |calls| ==> batch[..i] == batch && calls[..i] == calls;
    }
  }

  /** One turn of the publisher loop: claim a batch, publish it record by record. ios and clock are what the outside
      does during each call; choice is what the claim's SELECT returned, skipping the rows that other transactions have
      locked. calls gives each call with the log it saw. */
  method PublishBatch(db: MetadataDb, kafka: KafkaEventBus, metrics: Metrics, worker: string, limit: nat,
                      lockSeconds: int,
                      now: Time, locked: set<string>, choice: seq<string>, ios: seq<PublishIo>, clock: seq<Time>)
    returns (ghost calls: seq<Call>)
    requires ValidChoice(db.outbox - locked, choice, limit, now) && |ios| == |clock| == |choice|
    requires metrics.Balanced()
    modifies db`outbox, db`deadletters, kafka, metrics
    ensures |calls| == |choice| && forall i :: 0 <= i < |calls| ==> calls[i].io == ios[i] && calls[i].at == clock[i]
    ensures var batch := Batch(old(db.outbox), choice, SecondsFrom(now, lockSeconds));
            var claimed := Claim(old(db.outbox), choice, worker, SecondsFrom(now, lockSeconds));
            BatchGives(db.env, claimed, old(db.deadletters), old(kafka.log), batch, calls, db.outbox, db.deadletters,
                       kafka.log)
    ensures metrics.Balanced() && metrics.publishAttempts == old(metrics.publishAttempts) + |choice|
  {
    var records := db.ClaimEventOutboxBatch(worker, limit, lockSeconds, now, locked, choice);
    calls := PublishRecords(db, kafka, metrics, records, ios, clock);
  }

  /** The loop over the batch. */
  method PublishRecords(db: MetadataDb, kafka: KafkaEventBus, metrics: Metrics, records: seq<Claimed>,
                        ios: seq<PublishIo>, clock: seq<Time>)
    returns (ghost calls: seq<Call>)
    requires |ios| == |clock| == |records| && metrics.Balanced()
    modifies db`outbox, db`deadletters, kafka, metrics
    ensures |calls| == |records| && forall i :: 0 <= i < |calls| ==> calls[i].io == ios[i] && calls[i].at == clock[i]
    ensures BatchGives(db.env, old(db.outbox), old(db.deadletters), old(kafka.log), records, calls, db.outbox,
                       db.deadletters, kafka.log)
    ensures metrics.Balanced() && metrics.publishAttempts == old(metrics.publishAttempts) + |records|
  {
    calls := [];
    var i := 0;
    while i < |records|
      invariant 0 <= i <= |records| && |calls| == i
      invariant forall j :: 0 <= j < i ==> calls[j].io == ios[j] && calls[j].at == clock[j]
      invariant BatchGives(db.env, old(db.outbox), old(db.deadletters), old(kafka.log), records[..i], calls, db.outbox,
                           db.deadletters, kafka.log)
      invariant metrics.Balanced() && metrics.publishAttempts == old(metrics.publishAttempts) + i
    {
      ghost var call := Call(ios[i], kafka.log, clock[i]);
      BatchSnoc(db.env, old(db.outbox), old(db.deadletters), old(kafka.log), records[..i], calls,
                db.outbox, db.deadletters, kafka.log, records[i], call);
      assert records[..i + 1] == records[..i] + [records[i]];
      PublishOutboxRecord(db, kafka, metrics, records[i], ios[i], clock[i]);
      calls := calls + [call];
      i := i + 1;
    }
    assert records[..i] == records;
  }

  // ---------------------------------------------------------------------

  /** A worker's consumer: the offsets its group has committed. */
  class KafkaConsumer {
    var committed: set<(string, SourceOffset)>

    constructor ()
      ensures committed == {}
    {
      committed := {};
    }
  }

  /** handle_message: failure is what processing the event reported, if it failed. */
  method HandleMessage(db: MetadataDb, topic: string, event: CommonEvent, failure: Option<string>, fileOk: bool)
    returns (r: Result<HandlerStatus, EventBusError>)
    modifies db`deadletters
    ensures r == if failure.None? then Ok(Processed) else if fileOk then Ok(DeadLettered)
                 else Err(Kafka("failed to insert Kafka deadletter"))
    ensures db.deadletters == if failure.Some? && fileOk
                              then InsertDeadletter(db.env, old(db.deadletters),
                                                    DeadLetterEnvelope(event, 1, failure.value),
                                                    Some(topic), db.env.keyOf(event))
                              else old(db.deadletters)
  {
    if failure.None? {
      return Ok(Processed);
    }
    var envelope := DeadLetterEnvelope(event, 1, failure.value);
    var stored := db.InsertKafkaDeadletter(envelope, Some(topic), db.env.keyOf(event), fileOk);
    if !stored {
      return Err(Kafka("failed to insert Kafka deadletter"));
    }
    return Ok(DeadLettered);
  }

  /** One message. Consuming.ConsumeIsSteps shows that inbox, deadletters and commits end up where a sequence of
      pipeline steps takes them. A message whose handler failed without a stored deadletter is neither recorded nor
      committed, and a commit never happens unless the event is in the inbox or a duplicate. */
  method ConsumeOneMessageWithInbox(db: MetadataDb, kafka: KafkaEventBus, consumer: KafkaConsumer, slot: Slot,
                                    offset: nat, io: ConsumeIo)
    returns (r: Result<CommitDecision, EventBusError>)
    requires offset < |Contents(kafka.log, slot.topic, slot.partition)|
    modifies db`deadletters, db`inbox, consumer
    ensures var value := Contents(kafka.log, slot.topic, slot.partition)[offset].value;
            && db.inbox == InboxAfterConsume(db.env, old(db.inbox), slot, offset, value, io)
            && db.deadletters == DeadlettersAfterConsume(db.env, old(db.deadletters), old(db.inbox), slot, offset,
                                                         value, io)
            && consumer.committed == old(consumer.committed) +
                 (if Commits(db.env, old(db.inbox), slot, offset, value, io) then {(slot.group, SourceOf(slot, offset))}
                  else {})
            && (r == Ok(Commit) <==> Commits(db.env, old(db.inbox), slot, offset, value, io))
            && (r == Ok(DoNotCommit) <==>
                Runs(db.env, old(db.inbox), slot, offset, value, io) && Outcome(io).FailedUnfiled?)
  {
    var value := Contents(kafka.log, slot.topic, slot.partition)[offset].value;
    var decoded := DecodeEvent(db.env, value);
    if decoded.None? {
      return Err(Kafka("event codec failed"));
    }
    var event := decoded.value;
    var processed := db.EventInboxProcessed(slot.group, event.eventId, SourceOf(slot, offset), io.checkOk);
    if processed.Err? {
      return Err(processed.error);
    }
    var alreadyProcessed := processed.value;
    var result: Result<HandlerStatus, EventBusError> := Ok(Duplicate);
    if !alreadyProcessed {
      result := HandleMessage(db, slot.topic, event, io.failure, io.fileOk);
    }
    var decision := FromHandlerResult(result);
    if decision == Commit {
      if !alreadyProcessed {
        var marked := db.MarkEventInboxProcessed(slot.group, event.eventId, SourceOf(slot, offset), io.markOk);
        if !marked {
          return Err(Kafka("failed to mark Kafka inbox event processed"));
        }
      }
      if !io.commitOk {
        return Err(Kafka("commit failed"));
      }
      consumer.committed := consumer.committed + {(slot.group, SourceOf(slot, offset))};
    }
    return Ok(decision);
  }
}
