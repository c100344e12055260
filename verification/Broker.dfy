/** What reaches the broker: nothing the encoders refuse, and all records of a conversation in one partition. */
module Broker {
  import opened Wrappers
  import opened PayloadGate
  import opened EventBus
  import opened Tables
  import opened Pipeline
  import opened Publishing

  // ---------------------------------------------------------------------
  // Sizes

  predicate Fits(env: Env, value: WireValue) {
    match value
    case EventValue(event) => env.eventSize(event) <= env.kafka.messageMaxBytes
    case EnvelopeValue(envelope) => env.envelopeSize(envelope) <= env.kafka.messageMaxBytes
  }

  ghost predicate AllFit(env: Env, log: Log) {
    forall topic, partition, i :: 0 <= i < |Contents(log, topic, partition)| ==>
      Fits(env, Contents(log, topic, partition)[i].value)
  }

  /** A publisher sends only what the event encoder accepts: clean payloads within the limit. */
  lemma SendsFit(env: Env, s: State, w: string, outcome: SendOutcome)
    requires PublisherEnabled(env, s, w, Send(outcome))
    ensures Head(s, w).payload.Readable?
    ensures var event := Head(s, w).payload.event;
            (forall p :: !Leads(event.payload, p)) && env.eventSize(event) <= env.kafka.messageMaxBytes
  {
    EncodeEventIsExact(env, Head(s, w).payload.event);
  }

  lemma {:induction false} AppendFits(env: Env, log: Log, topic: string, record: Record, outcome: SendOutcome)
    requires AllFit(env, log) && (outcome.NotSent? || Fits(env, record.value))
    ensures AllFit(env, AfterSend(log, topic, record, outcome))
  {
    var log' := AfterSend(log, topic, record, outcome);
    forall t, partition, i | 0 <= i < |Contents(log', t, partition)|
      ensures Fits(env, Contents(log', t, partition)[i].value)
    {
      assert i < |Contents(log, t, partition)| ==> Contents(log', t, partition)[i] == Contents(log, t, partition)[i];
    }
  }

  lemma {:induction false} PublisherKeepsFits(env: Env, s: State, w: string, act: PublisherAct)
    requires AllFit(env, s.log) && PublisherEnabled(env, s, w, act)
    ensures AllFit(env, LogAfter(env, s, w, act))
  {
    if act.Send? || act.RelayExhausted? {
      var (topic, record) := Outgoing(env, s, w, act);
      if act.Send? {
        SendsFit(env, s, w, act.outcome);
      } else if !act.outcome.NotSent? {
        EncodeDeadletterIsExact(env, record.value.envelope);
      }
      AppendFits(env, s.log, topic, record, act.outcome);
    }
  }

  /** In every run whatever, no record of the log is larger than message_max_bytes. */
  lemma {:induction false} NothingOversized(env: Env, rule: (State, Step) -> bool, steps: seq<Step>)
    requires Run(env, rule, Init(), steps)
    ensures AllFit(env, Exec(env, rule, Init(), steps).log)
  {
    var inv := (s: State) => AllFit(env, s.log);
    forall s: State, step: Step {:trigger Apply(env, s, step)} | inv(s) && Enabled(env, s, step) && rule(s, step)
      ensures inv(Apply(env, s, step))
    {
      if step.ByPublisher? {
        PublisherKeepsFits(env, s, step.worker, step.act);
      }
    }
    Invariance(env, rule, inv, Init(), steps);
  }

  /** A call on a record that is too large, or has raw media in it, sends nothing: the row is deadlettered, its error
      kept, and the event filed with one attempt more than it had. */
  lemma RefusedIsNeverSent(env: Env, rows: Outbox, deadletters: Deadletters, log: Log, c: Claimed, io: PublishIo,
                           now: Time)
    requires c.payload.Readable?
    requires || env.eventSize(c.payload.event) > env.kafka.messageMaxBytes
             || exists p :: Leads(c.payload.event.payload, p)
    ensures LogAfterCall(env, log, c, io) == log
    ensures MarkLands(rows, c, io) && c.eventId in rows ==>
              var r := OutboxAfterCall(env, rows, log, c, io, now);
              && c.eventId in r && r[c.eventId].status == Deadlettered && r[c.eventId].lastError == Some(io.error)
              && r[c.eventId].recorded == rows[c.eventId].recorded
    ensures var r := DeadlettersAfterCall(env, deadletters, c, io);
            if !io.fileOk then r == deadletters
            else && |r| == |deadletters| + 1 && deadletters <= r
                 && r[|deadletters|].payload.event == c.payload.event
                 && r[|deadletters|].retryCount == c.attemptCount + 1 && r[|deadletters|].errorCode == io.error
                 && r[|deadletters|].sourceTopic == Some(c.topic) && r[|deadletters|].partitionKey == c.partitionKey
  {
    EncodeEventIsExact(env, c.payload.event);
  }

  /** A call whose last attempt fails files the event with the number of attempts made, the error of the send, and the
      topic and key it was for. */
  lemma ExhaustedIsFiled(env: Env, rows: Outbox, deadletters: Deadletters, c: Claimed, io: PublishIo)
    requires c.payload.Readable? && Encodes(env, c.payload.event) && !io.send.Delivered? && io.fileOk
    requires c.attemptCount < MAX_I32
    ensures var r := DeadlettersAfterCall(env, deadletters, c, io);
            if c.attemptCount + 1 < env.kafka.retryMaxAttempts then r == deadletters
            else && |r| == |deadletters| + 1 && deadletters <= r
                 && r[|deadletters|].payload.event == c.payload.event
                 && r[|deadletters|].retryCount == c.attemptCount + 1 && r[|deadletters|].errorCode == io.send.error
                 && r[|deadletters|].sourceTopic == Some(c.topic) && r[|deadletters|].partitionKey == c.partitionKey
  {
  }

  // ---------------------------------------------------------------------
  // Partitions

  /** Events are enqueued under their own topic and key, and the partitioner goes by topic and key. */
  predicate KeyedStep(env: Env, s: State, step: Step) {
    match step
    case Enqueue(event, topic, key) =>
      topic == env.topicOf(event) && key == env.keyOf(event)
    case ByPublisher(w, act) =>
      Busy(s, w) ==>
        && (act.Send? && !act.outcome.NotSent? ==>
              act.outcome.partition == env.partitionOf(Head(s, w).topic, Head(s, w).partitionKey))
        && (act.RelayExhausted? && !act.outcome.NotSent? ==>
              act.outcome.partition ==
                env.partitionOf(DeadletterTopic(env.kafka), env.keyOf(Head(s, w).payload.event)))
    case _ => true
  }

  ghost function KeyedSteps(env: Env): (State, Step) -> bool {
    (s: State, step: Step) => KeyedStep(env, s, step)
  }

  predicate OwnKey(env: Env, topic: string, key: string, payload: Payload) {
    topic == env.topicOf(payload.event) && key == env.keyOf(payload.event)
  }

  predicate OutboxKeyed(env: Env, rows: Outbox) {
    forall id :: id in rows ==> OwnKey(env, rows[id].topic, rows[id].partitionKey, rows[id].payload)
  }

  predicate BatchKeyed(env: Env, todo: seq<Claimed>) {
    forall i :: 0 <= i < |todo| ==> OwnKey(env, todo[i].topic, todo[i].partitionKey, todo[i].payload)
  }

  predicate PublishersKeyed(env: Env, publishers: map<string, Publisher>) {
    forall w :: w in publishers ==> BatchKeyed(env, publishers[w].todo)
  }

  /** The event a record carries, by itself or in an envelope. */
  function Inside(value: WireValue): CommonEvent {
    if value.EventValue? then value.event else value.envelope.event
  }

  predicate RecordKeyed(env: Env, topic: string, partition: nat, record: Record) {
    record.key == env.keyOf(Inside(record.value)) && partition == env.partitionOf(topic, record.key)
  }

  ghost predicate LogKeyed(env: Env, log: Log) {
    forall topic, partition, i :: 0 <= i < |Contents(log, topic, partition)| ==>
      RecordKeyed(env, topic, partition, Contents(log, topic, partition)[i])
  }

  ghost predicate Keyed(env: Env, s: State) {
    OutboxKeyed(env, s.outbox) && PublishersKeyed(env, s.publishers) && LogKeyed(env, s.log)
  }

  lemma {:induction false} PersistStaysKeyed(env: Env, rows: Outbox, events: seq<CommonEvent>, now: Time)
    requires OutboxKeyed(env, rows)
    ensures OutboxKeyed(env, Persist(env, rows, events, now))
  {
    if events != [] {
      PersistStaysKeyed(env, rows, events[..|events| - 1], now);
    }
  }

  lemma {:induction false} OutboxStaysKeyed(env: Env, s: State, w: string, act: PublisherAct)
    requires OutboxKeyed(env, s.outbox) && PublisherEnabled(env, s, w, act)
    ensures OutboxKeyed(env, OutboxAfter(env, s, w, act))
  {
  }

  lemma {:induction false} BatchesStayKeyed(env: Env, s: State, w: string, act: PublisherAct)
    requires OutboxKeyed(env, s.outbox) && PublishersKeyed(env, s.publishers) && PublisherEnabled(env, s, w, act)
    ensures PublishersKeyed(env, ApplyPublisher(env, s, w, act).publishers)
  {
    var s' := ApplyPublisher(env, s, w, act);
    forall x | x in s'.publishers ensures BatchKeyed(env, s'.publishers[x].todo) {
      if x == w && act.ClaimBatch? {
        assert forall i :: 0 <= i < |act.ids| ==> act.ids[i] in act.ids;
      } else {
        assert BatchKeyed(env, s.publishers[x].todo);
      }
    }
  }

  lemma {:induction false} AppendStaysKeyed(env: Env, log: Log, topic: string, record: Record, outcome: SendOutcome)
    requires LogKeyed(env, log) && (outcome.NotSent? || RecordKeyed(env, topic, outcome.partition, record))
    ensures LogKeyed(env, AfterSend(log, topic, record, outcome))
  {
    var log' := AfterSend(log, topic, record, outcome);
    forall t, partition, i | 0 <= i < |Contents(log', t, partition)|
      ensures RecordKeyed(env, t, partition, Contents(log', t, partition)[i])
    {
      assert i < |Contents(log, t, partition)| ==> Contents(log', t, partition)[i] == Contents(log, t, partition)[i];
    }
  }

  lemma {:induction false} SendStaysKeyed(env: Env, s: State, w: string, act: PublisherAct)
    requires Keyed(env, s) && KeyedStep(env, s, ByPublisher(w, act))
    requires PublisherEnabled(env, s, w, act) && (act.Send? || act.RelayExhausted?)
    ensures LogKeyed(env, LogAfter(env, s, w, act))
  {
    assert BatchKeyed(env, s.publishers[w].todo);
    var (topic, record) := Outgoing(env, s, w, act);
    AppendStaysKeyed(env, s.log, topic, record, act.outcome);
  }

  lemma {:induction false} StepStaysKeyed(env: Env, s: State, step: Step)
    requires Keyed(env, s) && Enabled(env, s, step) && KeyedStep(env, s, step)
    ensures Keyed(env, Apply(env, s, step))
  {
    if step.ByPublisher? {
      OutboxStaysKeyed(env, s, step.worker, step.act);
      BatchesStayKeyed(env, s, step.worker, step.act);
      if step.act.Send? || step.act.RelayExhausted? {
        SendStaysKeyed(env, s, step.worker, step.act);
      }
    } else {
      OthersStayKeyed(env, s, step);
    }
  }

  lemma {:induction false} OthersStayKeyed(env: Env, s: State, step: Step)
    requires Keyed(env, s) && Enabled(env, s, step) && KeyedStep(env, s, step) && !step.ByPublisher?
    ensures Keyed(env, Apply(env, s, step))
  {
    if step.PersistSnapshot? {
      PersistStaysKeyed(env, s.outbox, step.events, s.now);
    }
  }

  lemma {:induction false} RunsAreKeyed(env: Env, steps: seq<Step>)
    requires Run(env, KeyedSteps(env), Init(), steps)
    ensures Keyed(env, Exec(env, KeyedSteps(env), Init(), steps))
  {
    var inv := (s: State) => Keyed(env, s);
    forall s: State, step: Step {:trigger Apply(env, s, step)}
      | inv(s) && Enabled(env, s, step) && KeyedSteps(env)(s, step)
      ensures inv(Apply(env, s, step))
    {
      StepStaysKeyed(env, s, step);
    }
    Invariance(env, KeyedSteps(env), inv, Init(), steps);
  }

  /** Over every such run, whatever is retried, replayed or sent twice: two records of one topic whose events belong to
      one conversation lie in one partition, whatever the channels; and so do two of one channel without a
      conversation. */
  lemma {:induction false} ConversationsStayTogether(env: Env, steps: seq<Step>, topic: string, p: nat, i: nat, q: nat,
                                                     j: nat)
    requires RoutesLikeSource(env) && Run(env, KeyedSteps(env), Init(), steps)
    requires var log := Exec(env, KeyedSteps(env), Init(), steps).log;
             i < |Contents(log, topic, p)| && j < |Contents(log, topic, q)|
    ensures var log := Exec(env, KeyedSteps(env), Init(), steps).log;
            var a, b := Inside(Contents(log, topic, p)[i].value), Inside(Contents(log, topic, q)[j].value);
            a.projectId == b.projectId && a.companyId == b.companyId ==>
              && (a.conversationId.Some? && a.conversationId == b.conversationId ==> p == q)
              && (a.conversationId.None? && b.conversationId.None? && a.channelId == b.channelId ==> p == q)
  {
    RunsAreKeyed(env, steps);
    var log := Exec(env, KeyedSteps(env), Init(), steps).log;
    assert RecordKeyed(env, topic, p, Contents(log, topic, p)[i]);
    assert RecordKeyed(env, topic, q, Contents(log, topic, q)[j]);
    var a, b := Inside(Contents(log, topic, p)[i].value), Inside(Contents(log, topic, q)[j].value);
    if a.projectId == b.projectId && a.companyId == b.companyId {
      KeysTellConversations(a, b);
    }
  }

  /** And they carry the same key exactly then: the keys of two conversations of a company differ. */
  lemma {:induction false} RecordsAreKeyedByConversation(env: Env, steps: seq<Step>, topic: string, p: nat, i: nat,
                                                         q: nat, j: nat)
    requires RoutesLikeSource(env) && Run(env, KeyedSteps(env), Init(), steps)
    requires var log := Exec(env, KeyedSteps(env), Init(), steps).log;
             i < |Contents(log, topic, p)| && j < |Contents(log, topic, q)|
    ensures var log := Exec(env, KeyedSteps(env), Init(), steps).log;
            var (x, y) := (Contents(log, topic, p)[i], Contents(log, topic, q)[j]);
            var a, b := Inside(x.value), Inside(y.value);
            a.projectId == b.projectId && a.companyId == b.companyId &&
            a.conversationId.Some? && b.conversationId.Some? ==>
              (x.key == y.key <==> a.conversationId == b.conversationId)
  {
    RunsAreKeyed(env, steps);
    var log := Exec(env, KeyedSteps(env), Init(), steps).log;
    var x, y := Contents(log, topic, p)[i], Contents(log, topic, q)[j];
    assert RecordKeyed(env, topic, p, x) && RecordKeyed(env, topic, q, y);
    var a, b := Inside(x.value), Inside(y.value);
    if a.projectId == b.projectId && a.companyId == b.companyId {
      KeysTellConversations(a, b);
    }
  }
}
