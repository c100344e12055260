/** The event pipeline as a step system: every atomic statement of src/db.rs, every broker call and every
    crash of src/eventbus.rs and src/workers.rs is one step, and steps of any number of publishers and
    consumers interleave freely. */
module Pipeline {
  import opened Wrappers
  import opened EventBus
  import opened Tables

  // ---------------------------------------------------------------------
  // The broker: an append-only log per topic and partition.

  datatype Record = Record(key: string, value: WireValue)

  type Log = map<(string, nat), seq<Record>>

  function Contents(log: Log, topic: string, partition: nat): seq<Record> {
    if (topic, partition) in log then log[(topic, partition)] else []
  }

  function Append(log: Log, topic: string, partition: nat, record: Record): Log {
    log[(topic, partition) := Contents(log, topic, partition) + [record]]
  }

  /** What a send did: acknowledged, appended with the acknowledgement lost, or not appended. */
  datatype SendOutcome = Delivered(partition: nat) | LostAck(partition: nat, error: string) | NotSent(error: string)

  function AfterSend(log: Log, topic: string, record: Record, outcome: SendOutcome): Log {
    if outcome.NotSent? then log else Append(log, topic, outcome.partition, record)
  }

  // ---------------------------------------------------------------------
  // Program counters.

  /** Where publish_outbox_record stands with the first record of the worker's batch. */
  datatype Phase =
    | Ready                        // nothing done yet
    | Acked(position: Position)    // broker acknowledged, row not marked yet
    | SendFailed(error: string)    // send returned an error
    | Refused(error: string)       // encoding failed and the row was marked, deadletter not inserted yet
    | Filed(error: string)         // retries exhausted, deadletter insert done
    | Relayed(error: string)       // retries exhausted, deadletter topic send done

  datatype Publisher = Publisher(todo: seq<Claimed>, phase: Phase)

  /** One consumer of a group reads one partition of one topic. */
  datatype Slot = Slot(group: string, topic: string, partition: nat)

  /** Where consume_one_message_with_inbox stands with the message it received. */
  datatype Delivery =
    | Received(offset: nat, event: CommonEvent)
    | Handling(offset: nat, event: CommonEvent)
    | Handled(offset: nat, event: CommonEvent, status: HandlerStatus)
    | Committing(offset: nat, event: CommonEvent)

  /** What handle_message did: the handler succeeded, failed with its deadletter stored, or failed and
      the deadletter insert failed too. */
  datatype HandlerOutcome = Succeeded | FailedFiled(error: string) | FailedUnfiled(error: string)

  /** now: the clock. snapshot: ids of the last committed metadata snapshot. The last eight fields are history:
      commits by group and offset, completed handler runs by group and event, the successful ones, the deadletter
      row each failed one left, inbox inserts by group and event, sends by event, those of them whose outcome was
      lost to a crash or to a mark that failed, and handler runs that left no inbox row for the like reasons. */
  datatype State = State(
    now: Time,
    outbox: Outbox,
    snapshot: set<string>,
    deadletters: Deadletters,
    inbox: Inbox,
    log: Log,
    publishers: map<string, Publisher>,
    consumers: map<Slot, Delivery>,
    committed: set<(string, SourceOffset)>,
    runs: multiset<(string, string)>,
    succeeded: set<(string, string)>,
    filed: map<(string, string), nat>,
    marks: multiset<(string, string)>,
    sends: multiset<string>,
    lost: multiset<string>,
    unmarked: multiset<(string, string)>)

  function Init(): State {
    State(0, map[], {}, [], map[], map[], map[], map[], {}, multiset{}, {}, map[], multiset{}, multiset{}, multiset{},
          multiset{})
  }

  /** Steps of a publisher worker, in the order publish_outbox_record takes them. */
  datatype PublisherAct =
    | ClaimBatch(ids: seq<string>, limit: nat, lockSeconds: int)
    | MarkUndecodable(error: string, dbOk: bool)
    | RefuseEncode(error: string, dbOk: bool)
    | FileRefused(dbOk: bool)
    | Send(outcome: SendOutcome)
    | ConfirmPublished(dbOk: bool)
    | ScheduleRetry(dbOk: bool)
    | FileExhausted(dbOk: bool)
    | RelayExhausted(outcome: SendOutcome)
    | BuryExhausted(dbOk: bool)
    | CrashPublisher

  /** Steps of a consumer, in the order consume_one_message_with_inbox takes them. */
  datatype ConsumerAct =
    | Deliver(offset: nat)
    | CheckInbox(dbOk: bool)
    | Handle(result: HandlerOutcome)
    | MarkInbox(dbOk: bool)
    | CommitOffset(brokerOk: bool)
    | CrashConsumer

  datatype Step =
    | Tick(micros: nat)
    | Enqueue(event: CommonEvent, topic: string, key: string)
    | PersistSnapshot(events: seq<CommonEvent>)
    | Replay(deadletter: nat, who: string)
    | ByPublisher(worker: string, act: PublisherAct)
    | ByConsumer(slot: Slot, move: ConsumerAct)

  // ---------------------------------------------------------------------
  // Publisher steps.

  predicate Busy(s: State, w: string) {
    w in s.publishers && s.publishers[w].todo != []
  }

  function Head(s: State, w: string): Claimed
    requires Busy(s, w)
  {
    s.publishers[w].todo[0]
  }

  predicate Exhausted(env: Env, c: Claimed) {
    NextAttempt(c.attemptCount) >= env.kafka.retryMaxAttempts
  }

  predicate Encodes(env: Env, event: CommonEvent) {
    EncodeEvent(env, event).Ok?
  }

  /** The deadletter envelope of an exhausted record. */
  function ExhaustedEnvelope(c: Claimed, error: string): DeadLetterEnvelope {
    DeadLetterEnvelope(c.payload.event, NextAttempt(c.attemptCount), error)
  }

  predicate Distinct(ids: seq<string>) {
    forall i, j :: 0 <= i < j < |ids| ==> ids[i] != ids[j]
  }

  predicate PublisherEnabled(env: Env, s: State, w: string, act: PublisherAct) {
    match act
    case ClaimBatch(ids, limit, _) =>
      && !Busy(s, w) && |ids| <= limit && Distinct(ids)
      && forall id :: id in ids ==> id in s.outbox && Claimable(s.outbox[id], s.now)
    case MarkUndecodable(_, dbOk) =>
      && Busy(s, w) && s.publishers[w].phase.Ready? && Head(s, w).payload.Unreadable?
      && (dbOk ==> CountFits(s.outbox, Head(s, w).eventId))
    case RefuseEncode(_, dbOk) =>
      && Busy(s, w) && s.publishers[w].phase.Ready?
      && Head(s, w).payload.Readable? && !Encodes(env, Head(s, w).payload.event)
      && (dbOk ==> CountFits(s.outbox, Head(s, w).eventId))
    case FileRefused(_) => Busy(s, w) && s.publishers[w].phase.Refused?
    case Send(_) =>
      && Busy(s, w) && s.publishers[w].phase.Ready?
      && Head(s, w).payload.Readable? && Encodes(env, Head(s, w).payload.event)
    case ConfirmPublished(dbOk) =>
      Busy(s, w) && s.publishers[w].phase.Acked? && (dbOk ==> CountFits(s.outbox, Head(s, w).eventId))
    case ScheduleRetry(dbOk) =>
      && Busy(s, w) && s.publishers[w].phase.SendFailed? && !Exhausted(env, Head(s, w))
      && (dbOk ==> CountFits(s.outbox, Head(s, w).eventId))
    case FileExhausted(_) => Busy(s, w) && s.publishers[w].phase.SendFailed? && Exhausted(env, Head(s, w))
    case RelayExhausted(outcome) =>
      && Busy(s, w) && s.publishers[w].phase.Filed?
      && (!outcome.NotSent? ==>
            EncodeDeadletter(env, ExhaustedEnvelope(Head(s, w), s.publishers[w].phase.error)).Ok?)
    case BuryExhausted(dbOk) =>
      Busy(s, w) && s.publishers[w].phase.Relayed? && (dbOk ==> CountFits(s.outbox, Head(s, w).eventId))
    case CrashPublisher => w in s.publishers
  }

  /** Where the worker stands after the step; None when it crashed. Publisher(todo[1..], Ready) is
      publish_outbox_record returning to the loop over the batch. */
  function NextPublisher(env: Env, s: State, w: string, act: PublisherAct): Option<Publisher>
    requires PublisherEnabled(env, s, w, act)
  {
    match act
    case ClaimBatch(ids, _, lockSeconds) =>
      var until := SecondsFrom(s.now, lockSeconds);
      Some(Publisher(seq(|ids|, i requires 0 <= i < |ids| => Returned(s.outbox, ids[i], until)), Ready))
    case RefuseEncode(error, _) => Some(s.publishers[w].(phase := Refused(error)))
    case Send(outcome) =>
      Some(s.publishers[w].(phase :=
        if outcome.Delivered?
        then Acked(Position(outcome.partition, |Contents(s.log, Head(s, w).topic, outcome.partition)|))
        else SendFailed(outcome.error)))
    case FileExhausted(_) => Some(s.publishers[w].(phase := Filed(s.publishers[w].phase.error)))
    case RelayExhausted(_) => Some(s.publishers[w].(phase := Relayed(s.publishers[w].phase.error)))
    case CrashPublisher => None
    case _ => Some(Publisher(s.publishers[w].todo[1..], Ready))
  }

  /** event_outbox after the step. A statement that fails leaves the table alone and is only logged. */
  function OutboxAfter(env: Env, s: State, w: string, act: PublisherAct): Outbox
    requires PublisherEnabled(env, s, w, act)
  {
    match act
    case ClaimBatch(ids, _, lockSeconds) => Claim(s.outbox, ids, w, SecondsFrom(s.now, lockSeconds))
    case MarkUndecodable(error, dbOk) =>
      if dbOk then MarkFailed(s.outbox, Head(s, w).eventId, error, 60, s.now) else s.outbox
    case RefuseEncode(error, dbOk) =>
      if dbOk then MarkDeadlettered(s.outbox, Head(s, w).eventId, error) else s.outbox
    case ConfirmPublished(dbOk) =>
      if dbOk then MarkPublished(s.outbox, Head(s, w).eventId, s.publishers[w].phase.position, s.now) else s.outbox
    case ScheduleRetry(dbOk) =>
      if dbOk
      then MarkFailed(s.outbox, Head(s, w).eventId, s.publishers[w].phase.error,
                      Backoff(NextAttempt(Head(s, w).attemptCount)), s.now)
      else s.outbox
    case BuryExhausted(dbOk) =>
      if dbOk then MarkDeadlettered(s.outbox, Head(s, w).eventId, s.publishers[w].phase.error) else s.outbox
    case _ => s.outbox
  }

  /** kafka_deadletters after the step. */
  function DeadlettersAfter(env: Env, s: State, w: string, act: PublisherAct): Deadletters
    requires PublisherEnabled(env, s, w, act)
  {
    if act.FileRefused? && act.dbOk then
      var c := Head(s, w);
      InsertDeadletter(env, s.deadletters,
                       DeadLetterEnvelope(c.payload.event, c.attemptCount + 1, s.publishers[w].phase.error),
                       Some(c.topic), c.partitionKey)
    else if act.FileExhausted? && act.dbOk then
      var c := Head(s, w);
      InsertDeadletter(env, s.deadletters, ExhaustedEnvelope(c, s.publishers[w].phase.error), Some(c.topic),
                       c.partitionKey)
    else s.deadletters
  }

  /** The topic and record a step sends. */
  function Outgoing(env: Env, s: State, w: string, act: PublisherAct): (string, Record)
    requires (act.Send? || act.RelayExhausted?) && PublisherEnabled(env, s, w, act)
  {
    var c := Head(s, w);
    if act.Send? then (c.topic, Record(c.partitionKey, EventValue(c.payload.event)))
    else (DeadletterTopic(env.kafka),
          Record(env.keyOf(c.payload.event), EnvelopeValue(ExhaustedEnvelope(c, s.publishers[w].phase.error))))
  }

  function LogAfter(env: Env, s: State, w: string, act: PublisherAct): Log
    requires PublisherEnabled(env, s, w, act)
  {
    if act.Send? || act.RelayExhausted? then
      var (topic, record) := Outgoing(env, s, w, act);
      AfterSend(s.log, topic, record, act.outcome)
    else s.log
  }

  /** The record was sent, and its outcome is not marked yet. */
  predicate HasSent(s: State, w: string) {
    Busy(s, w) && !s.publishers[w].phase.Ready? && !s.publishers[w].phase.Refused?
  }

  /** The step ends the call without the outcome of its send reaching the row. */
  predicate LosesSend(s: State, w: string, act: PublisherAct) {
    HasSent(s, w) &&
    (act.CrashPublisher? || ((act.ConfirmPublished? || act.ScheduleRetry? || act.BuryExhausted?) && !act.dbOk))
  }

  function ApplyPublisher(env: Env, s: State, w: string, act: PublisherAct): State
    requires PublisherEnabled(env, s, w, act)
  {
    var next := NextPublisher(env, s, w, act);
    s.(publishers := if next.Some? then s.publishers[w := next.value] else s.publishers - {w},
       outbox := OutboxAfter(env, s, w, act),
       deadletters := DeadlettersAfter(env, s, w, act),
       log := LogAfter(env, s, w, act),
       sends := if act.Send? then s.sends + multiset{Head(s, w).eventId} else s.sends,
       lost := if LosesSend(s, w, act) then s.lost + multiset{Head(s, w).eventId} else s.lost)
  }

  // ---------------------------------------------------------------------
  // Consumer steps.

  function SourceOf(slot: Slot, offset: nat): SourceOffset {
    SourceOffset(slot.topic, slot.partition, offset)
  }

  predicate ConsumerEnabled(s: State, slot: Slot, act: ConsumerAct) {
    match act
    case Deliver(offset) => slot !in s.consumers && offset < |Contents(s.log, slot.topic, slot.partition)|
    case CheckInbox(_) => slot in s.consumers && s.consumers[slot].Received?
    case Handle(_) => slot in s.consumers && s.consumers[slot].Handling?
    case MarkInbox(dbOk) =>
      && slot in s.consumers && s.consumers[slot].Handled?
      && (dbOk ==> !OffsetTaken(s.inbox, slot.group, s.consumers[slot].event.eventId,
                                SourceOf(slot, s.consumers[slot].offset)))
    case CommitOffset(_) => slot in s.consumers && s.consumers[slot].Committing?
    case CrashConsumer => slot in s.consumers
  }

  /** Where the consumer stands after the step; None when its call ended and the slot polls again. */
  function NextDelivery(env: Env, s: State, slot: Slot, act: ConsumerAct): Option<Delivery>
    requires ConsumerEnabled(s, slot, act)
  {
    match act
    case Deliver(offset) =>
      var event := DecodeEvent(env, Contents(s.log, slot.topic, slot.partition)[offset].value);
      if event.Some? then Some(Received(offset, event.value)) else None
    case CheckInbox(dbOk) =>
      var Received(offset, event) := s.consumers[slot];
      if !dbOk then None
      else if InboxProcessed(s.inbox, slot.group, event.eventId, SourceOf(slot, offset)) then
        Some(Committing(offset, event))
      else Some(Handling(offset, event))
    case Handle(result) =>
      var Handling(offset, event) := s.consumers[slot];
      (match result
       case Succeeded => Some(Handled(offset, event, Processed))
       case FailedFiled(_) => Some(Handled(offset, event, DeadLettered))
       case FailedUnfiled(_) => None)
    case MarkInbox(dbOk) =>
      var Handled(offset, event, _) := s.consumers[slot];
      if dbOk then Some(Committing(offset, event)) else None
    case CommitOffset(_) => None
    case CrashConsumer => None
  }

  /** handle_message inserts a deadletter row for an event whose handler failed. */
  function FiledByHandler(env: Env, s: State, slot: Slot, act: ConsumerAct): Deadletters
    requires ConsumerEnabled(s, slot, act)
  {
    if act.Handle? && act.result.FailedFiled? then
      var event := s.consumers[slot].event;
      InsertDeadletter(env, s.deadletters, DeadLetterEnvelope(event, 1, act.result.error), Some(slot.topic),
                       env.keyOf(event))
    else s.deadletters
  }

  /** The step ends a call whose handler has run, and leaves no inbox row: the handler failed and so did its deadletter
      insert, the inbox insert failed, or the consumer crashed before it. */
  predicate LeavesUnmarked(s: State, slot: Slot, act: ConsumerAct) {
    || (act.Handle? && act.result.FailedUnfiled?)
    || (slot in s.consumers && s.consumers[slot].Handled? && ((act.MarkInbox? && !act.dbOk) || act.CrashConsumer?))
  }

  function ApplyConsumer(env: Env, s: State, slot: Slot, act: ConsumerAct): State
    requires ConsumerEnabled(s, slot, act)
  {
    var next := NextDelivery(env, s, slot, act);
    var run := if slot in s.consumers then (slot.group, s.consumers[slot].event.eventId) else ("", "");
    var at := if slot in s.consumers then SourceOf(slot, s.consumers[slot].offset) else SourceOf(slot, 0);
    var marked := act.MarkInbox? && act.dbOk;
    s.(consumers := if next.Some? then s.consumers[slot := next.value] else s.consumers - {slot},
       deadletters := FiledByHandler(env, s, slot, act),
       inbox := if marked then MarkProcessed(s.inbox, run.0, run.1, at) else s.inbox,
       marks := if marked then s.marks + multiset{run} else s.marks,
       committed := if act.CommitOffset? && act.brokerOk then s.committed + {(slot.group, at)} else s.committed,
       runs := if act.Handle? then s.runs + multiset{run} else s.runs,
       unmarked := if LeavesUnmarked(s, slot, act) then s.unmarked + multiset{run} else s.unmarked,
       succeeded := if act.Handle? && act.result.Succeeded? then s.succeeded + {run} else s.succeeded,
       filed := if act.Handle? && act.result.FailedFiled? then s.filed[run := |s.deadletters|] else s.filed)
  }

  // ---------------------------------------------------------------------
  // The whole system.

  predicate Enabled(env: Env, s: State, step: Step) {
    match step
    case Tick(_) => true
    case Enqueue(_, _, _) => true
    case PersistSnapshot(_) => true
    case Replay(d, _) => Replayable(s.deadletters, d)
    case ByPublisher(w, act) => PublisherEnabled(env, s, w, act)
    case ByConsumer(slot, act) => ConsumerEnabled(s, slot, act)
  }

  function Apply(env: Env, s: State, step: Step): State
    requires Enabled(env, s, step)
  {
    match step
    case Tick(micros) => s.(now := s.now + micros)
    case Enqueue(event, topic, key) => s.(outbox := Insert(env, s.outbox, event, topic, key, s.now))
    case PersistSnapshot(events) => s.(outbox := Persist(env, s.outbox, events, s.now), snapshot := Ids(events))
    case Replay(d, who) =>
      var payload := s.deadletters[d].payload;
      s.(outbox := Requeue(env, s.outbox, payload.event, payload, s.now),
         deadletters := StampReplayed(s.deadletters, d, who, s.now))
    case ByPublisher(w, act) => ApplyPublisher(env, s, w, act)
    case ByConsumer(slot, act) => ApplyConsumer(env, s, slot, act)
  }

  // ---------------------------------------------------------------------
  // Runs.

  /** Every step of the list can be taken in turn, and satisfies the given rule in the state it is taken from. */
  ghost predicate Run(env: Env, rule: (State, Step) -> bool, s: State, steps: seq<Step>)
    decreases |steps|
  {
    steps == [] ||
    (Enabled(env, s, steps[0]) && rule(s, steps[0]) && Run(env, rule, Apply(env, s, steps[0]), steps[1..]))
  }

  ghost function Exec(env: Env, rule: (State, Step) -> bool, s: State, steps: seq<Step>): State
    requires Run(env, rule, s, steps)
    decreases |steps|
  {
    if steps == [] then s else Exec(env, rule, Apply(env, s, steps[0]), steps[1..])
  }

  ghost function AnyStep(): (State, Step) -> bool {
    (s: State, step: Step) => true
  }

  /** Whatever every permitted step keeps holds at the end of every run. */
  lemma {:induction false} Invariance(env: Env, rule: (State, Step) -> bool, inv: State -> bool, s: State,
                                      steps: seq<Step>)
    requires Run(env, rule, s, steps) && inv(s)
    requires forall x: State, step: Step {:trigger Apply(env, x, step)} ::
               inv(x) && Enabled(env, x, step) && rule(x, step) ==> inv(Apply(env, x, step))
    ensures inv(Exec(env, rule, s, steps))
    decreases |steps|
  {
    if steps != [] {
      Invariance(env, rule, inv, Apply(env, s, steps[0]), steps[1..]);
    }
  }
}
