/** End-to-end deduplication: however many copies of an event reach the log, once its id is in a group's inbox
    no later delivery runs that group's handler, and the inbox insert happens at most once.

    The hypothesis is the routing the source relies on: an event id always routes to one topic and key, a key
    always goes to one partition, and a group has one consumer per partition (the map of slots). */
module Dedupe {
  import opened Wrappers
  import opened EventBus
  import opened Tables
  import opened Pipeline
  import opened Safety

  /** home says where each event id routes to. A step is routed when what it enqueues or sends agrees with it. */
  predicate RoutedStep(env: Env, home: string -> (string, nat), s: State, step: Step) {
    match step
    case Enqueue(event, topic, key) =>
      topic == env.topicOf(event) && key == env.keyOf(event) && Route(env, event) == home(event.eventId)
    case PersistSnapshot(events) => forall e :: e in events ==> Route(env, e) == home(e.eventId)
    case ByPublisher(w, act) =>
      act.Send? && !act.outcome.NotSent? && Busy(s, w) ==>
        act.outcome.partition == env.partitionOf(Head(s, w).topic, Head(s, w).partitionKey)
    case _ => true
  }

  ghost function Routed(env: Env, home: string -> (string, nat)): (State, Step) -> bool {
    (s: State, step: Step) => RoutedStep(env, home, s, step)
  }

  // ---------------------------------------------------------------------

  predicate AtHome(env: Env, home: string -> (string, nat), id: string, topic: string, key: string, payload: Payload) {
    (topic, env.partitionOf(topic, key)) == home(id) && Route(env, payload.event) == home(id)
  }

  predicate OutboxHome(env: Env, home: string -> (string, nat), rows: Outbox) {
    forall id :: id in rows ==> AtHome(env, home, id, rows[id].topic, rows[id].partitionKey, rows[id].payload)
  }

  predicate BatchHome(env: Env, home: string -> (string, nat), todo: seq<Claimed>) {
    forall i :: 0 <= i < |todo| ==>
      AtHome(env, home, todo[i].eventId, todo[i].topic, todo[i].partitionKey, todo[i].payload)
  }

  predicate PublishersHome(env: Env, home: string -> (string, nat), publishers: map<string, Publisher>) {
    forall w :: w in publishers ==> BatchHome(env, home, publishers[w].todo)
  }

  predicate DeadlettersHome(env: Env, home: string -> (string, nat), rows: Deadletters) {
    forall i :: 0 <= i < |rows| ==> Route(env, rows[i].payload.event) == home(rows[i].payload.event.eventId)
  }

  ghost predicate LogHome(env: Env, home: string -> (string, nat), log: Log) {
    forall topic, partition, i :: 0 <= i < |Contents(log, topic, partition)| ==>
      RecordHome(env, home, topic, partition, Contents(log, topic, partition)[i])
  }

  predicate RecordHome(env: Env, home: string -> (string, nat), topic: string, partition: nat, record: Record) {
    record.value.EventValue? ==>
      (topic, partition) == home(record.value.event.eventId) == Route(env, record.value.event)
  }

  /** A delivery between the inbox check and the inbox insert is of an event not yet in the inbox. */
  predicate InFlightIsNew(s: State) {
    forall slot :: slot in s.consumers && (s.consumers[slot].Handling? || s.consumers[slot].Handled?) ==>
      (slot.group, s.consumers[slot].event.eventId) !in s.inbox
  }

  /** Inbox rows and inbox inserts are one to one. */
  ghost predicate MarkedOnce(s: State) {
    forall k: (string, string) :: s.marks[k] == if k in s.inbox then 1 else 0
  }

  ghost predicate Deduped(env: Env, home: string -> (string, nat), s: State) {
    && OutboxHome(env, home, s.outbox)
    && PublishersHome(env, home, s.publishers)
    && DeadlettersHome(env, home, s.deadletters)
    && LogHome(env, home, s.log)
    && InFlightIsNew(s)
    && MarkedOnce(s)
  }

  // ---------------------------------------------------------------------

  /** Two slots of one group that hold the same event are the same slot. */
  lemma OneSlotPerEvent(env: Env, home: string -> (string, nat), s: State, a: Slot, b: Slot)
    requires LogHome(env, home, s.log) && a in s.consumers && b in s.consumers && DeliveryOk(s, a) && DeliveryOk(s, b)
    requires a.group == b.group && s.consumers[a].event.eventId == s.consumers[b].event.eventId
    ensures a == b
  {
    assert RecordHome(env, home, a.topic, a.partition, Contents(s.log, a.topic, a.partition)[s.consumers[a].offset]);
    assert RecordHome(env, home, b.topic, b.partition, Contents(s.log, b.topic, b.partition)[s.consumers[b].offset]);
  }

  /** Where the stepping slot's delivery is, it is new: the inbox check let it through. */
  lemma OwnInFlightKept(env: Env, s: State, slot: Slot, act: ConsumerAct)
    requires InFlightIsNew(s) && ConsumerEnabled(s, slot, act)
    requires var s' := ApplyConsumer(env, s, slot, act);
             slot in s'.consumers && (s'.consumers[slot].Handling? || s'.consumers[slot].Handled?)
    ensures var s' := ApplyConsumer(env, s, slot, act); (slot.group, s'.consumers[slot].event.eventId) !in s'.inbox
  {
  }

  lemma OtherInFlightKept(env: Env, home: string -> (string, nat), s: State, slot: Slot, act: ConsumerAct, x: Slot)
    requires Safe(env, s) && Deduped(env, home, s) && ConsumerEnabled(s, slot, act) && x != slot
    requires x in s.consumers && (s.consumers[x].Handling? || s.consumers[x].Handled?)
    ensures (x.group, s.consumers[x].event.eventId) !in ApplyConsumer(env, s, slot, act).inbox
  {
    if act.MarkInbox? {
      OtherSlotsHaveOthers(env, home, s, slot, x);
    }
  }

  lemma InFlightKept(env: Env, home: string -> (string, nat), s: State, slot: Slot, act: ConsumerAct)
    requires Safe(env, s) && Deduped(env, home, s) && ConsumerEnabled(s, slot, act)
    ensures InFlightIsNew(ApplyConsumer(env, s, slot, act))
  {
    var s' := ApplyConsumer(env, s, slot, act);
    ConsumerShape(env, s, slot, act);
    forall x | x in s'.consumers && (s'.consumers[x].Handling? || s'.consumers[x].Handled?)
      ensures (x.group, s'.consumers[x].event.eventId) !in s'.inbox
    {
      if x == slot {
        OwnInFlightKept(env, s, slot, act);
      } else {
        OtherInFlightKept(env, home, s, slot, act, x);
      }
    }
  }

  lemma OtherSlotsHaveOthers(env: Env, home: string -> (string, nat), s: State, slot: Slot, x: Slot)
    requires Safe(env, s) && Deduped(env, home, s) && slot in s.consumers && x in s.consumers && x != slot
    ensures x.group == slot.group ==> s.consumers[x].event.eventId != s.consumers[slot].event.eventId
  {
    if x.group == slot.group && s.consumers[x].event.eventId == s.consumers[slot].event.eventId {
      OneSlotPerEvent(env, home, s, x, slot);
    }
  }

  lemma MarksKept(env: Env, s: State, slot: Slot, act: ConsumerAct)
    requires InFlightIsNew(s) && MarkedOnce(s) && ConsumerEnabled(s, slot, act)
    ensures MarkedOnce(ApplyConsumer(env, s, slot, act))
  {
  }

  lemma HandlerDeadletterHome(env: Env, home: string -> (string, nat), s: State, slot: Slot, act: ConsumerAct)
    requires Safe(env, s) && Deduped(env, home, s) && ConsumerEnabled(s, slot, act)
    ensures DeadlettersHome(env, home, ApplyConsumer(env, s, slot, act).deadletters)
  {
    if act.Handle? {
      var d := s.consumers[slot];
      assert DeliveryOk(s, slot);
      assert RecordHome(env, home, slot.topic, slot.partition, Contents(s.log, slot.topic, slot.partition)[d.offset]);
    }
  }

  lemma ConsumerStaysDeduped(env: Env, home: string -> (string, nat), s: State, slot: Slot, act: ConsumerAct)
    requires Safe(env, s) && Deduped(env, home, s) && ConsumerEnabled(s, slot, act)
    ensures Deduped(env, home, ApplyConsumer(env, s, slot, act))
  {
    InFlightKept(env, home, s, slot, act);
    MarksKept(env, s, slot, act);
    HandlerDeadletterHome(env, home, s, slot, act);
  }

  lemma SendStaysHome(env: Env, home: string -> (string, nat), log: Log, topic: string, record: Record,
                      outcome: SendOutcome)
    requires LogHome(env, home, log)
    requires !outcome.NotSent? ==> RecordHome(env, home, topic, outcome.partition, record)
    ensures LogHome(env, home, AfterSend(log, topic, record, outcome))
  {
    var log' := AfterSend(log, topic, record, outcome);
    forall t, p, i | 0 <= i < |Contents(log', t, p)| ensures RecordHome(env, home, t, p, Contents(log', t, p)[i]) {
      assert i < |Contents(log, t, p)| ==> RecordHome(env, home, t, p, Contents(log, t, p)[i]);
    }
  }

  lemma PublisherOutboxHome(env: Env, home: string -> (string, nat), s: State, w: string, act: PublisherAct)
    requires PublisherEnabled(env, s, w, act) && OutboxHome(env, home, s.outbox)
    ensures OutboxHome(env, home, OutboxAfter(env, s, w, act))
  {
    if IsMark(act) {
      MarkShape(env, s, w, act);
    }
  }

  lemma PublisherBatchesHome(env: Env, home: string -> (string, nat), s: State, w: string, act: PublisherAct)
    requires PublisherEnabled(env, s, w, act) && OutboxHome(env, home, s.outbox) &&
             PublishersHome(env, home, s.publishers)
    ensures PublishersHome(env, home, ApplyPublisher(env, s, w, act).publishers)
  {
    var s' := ApplyPublisher(env, s, w, act);
    forall x | x in s'.publishers ensures BatchHome(env, home, s'.publishers[x].todo) {
      if x != w {
        assert BatchHome(env, home, s.publishers[x].todo);
      } else if act.ClaimBatch? {
        forall i | 0 <= i < |act.ids|
          ensures var c := s'.publishers[w].todo[i]; AtHome(env, home, c.eventId, c.topic, c.partitionKey, c.payload)
        {
          assert act.ids[i] in act.ids;
        }
      } else {
        var todo := s.publishers[w].todo;
        assert BatchHome(env, home, todo);
        assert s'.publishers[w].todo == todo || s'.publishers[w].todo == todo[1..];
      }
    }
  }

  lemma PublisherLogHome(env: Env, home: string -> (string, nat), s: State, w: string, act: PublisherAct)
    requires Safe(env, s) && PublisherEnabled(env, s, w, act)
    requires RoutedStep(env, home, s, ByPublisher(w, act)) && Deduped(env, home, s)
    ensures LogHome(env, home, LogAfter(env, s, w, act))
  {
    if act.Send? || act.RelayExhausted? {
      assert BatchHome(env, home, s.publishers[w].todo);
      assert PublisherOk(env, s.publishers[w], s.outbox, s.log);
      assert ClaimedOk(s.publishers[w].todo[0], s.outbox);
      var (topic, record) := Outgoing(env, s, w, act);
      SendStaysHome(env, home, s.log, topic, record, act.outcome);
    }
  }

  lemma PublisherDeadlettersHome(env: Env, home: string -> (string, nat), s: State, w: string, act: PublisherAct)
    requires Safe(env, s) && PublisherEnabled(env, s, w, act) && Deduped(env, home, s)
    ensures DeadlettersHome(env, home, DeadlettersAfter(env, s, w, act))
  {
    if act.FileRefused? || act.FileExhausted? {
      assert BatchHome(env, home, s.publishers[w].todo);
      assert PublisherOk(env, s.publishers[w], s.outbox, s.log);
      assert ClaimedOk(s.publishers[w].todo[0], s.outbox);
    }
  }

  lemma PublisherStaysDeduped(env: Env, home: string -> (string, nat), s: State, w: string, act: PublisherAct)
    requires Safe(env, s) && PublisherEnabled(env, s, w, act)
    requires RoutedStep(env, home, s, ByPublisher(w, act)) && Deduped(env, home, s)
    ensures Deduped(env, home, ApplyPublisher(env, s, w, act))
  {
    PublisherOutboxHome(env, home, s, w, act);
    PublisherBatchesHome(env, home, s, w, act);
    PublisherLogHome(env, home, s, w, act);
    PublisherDeadlettersHome(env, home, s, w, act);
  }

  lemma {:induction false} PersistHome(env: Env, home: string -> (string, nat), rows: Outbox, events: seq<CommonEvent>,
                                       now: Time)
    requires OutboxHome(env, home, rows) && forall e :: e in events ==> Route(env, e) == home(e.eventId)
    ensures OutboxHome(env, home, Persist(env, rows, events, now))
  {
    if events != [] {
      PersistHome(env, home, rows, events[..|events| - 1], now);
      assert Route(env, events[|events| - 1]) == home(events[|events| - 1].eventId);
    }
  }

  lemma StepStaysDeduped(env: Env, home: string -> (string, nat), s: State, step: Step)
    requires Safe(env, s) && Deduped(env, home, s) && Enabled(env, s, step) && RoutedStep(env, home, s, step)
    ensures Deduped(env, home, Apply(env, s, step))
  {
    match step
    case Tick(_) =>
    case Enqueue(_, _, _) =>
    case PersistSnapshot(events) => PersistHome(env, home, s.outbox, events, s.now);
    case Replay(_, _) =>
    case ByPublisher(w, act) => PublisherStaysDeduped(env, home, s, w, act);
    case ByConsumer(slot, act) => ConsumerStaysDeduped(env, home, s, slot, act);
  }

  // ---------------------------------------------------------------------

  /** x follows s, and the pair k recorded in s has had no handler run since. */
  ghost predicate Kept(env: Env, home: string -> (string, nat), s: State, x: State, k: (string, string)) {
    Safe(env, x) && Deduped(env, home, x) && (k in s.inbox ==> k in x.inbox && x.runs[k] == s.runs[k])
  }

  lemma KeptByStep(env: Env, home: string -> (string, nat), s: State, x: State, step: Step, k: (string, string))
    requires Kept(env, home, s, x, k) && Enabled(env, x, step) && RoutedStep(env, home, x, step)
    ensures Kept(env, home, s, Apply(env, x, step), k)
  {
    StepKeeps(env, x, step);
    StepStaysDeduped(env, home, x, step);
    if k in s.inbox {
      NoRunOnceRecorded(env, home, x, step, k);
    }
  }

  lemma RunsAreDeduped(env: Env, home: string -> (string, nat), s: State, steps: seq<Step>, k: (string, string))
    requires Run(env, Routed(env, home), s, steps) && Safe(env, s) && Deduped(env, home, s)
    ensures var s' := Exec(env, Routed(env, home), s, steps);
            && Safe(env, s') && Deduped(env, home, s')
            && (k in s.inbox ==> k in s'.inbox && s'.runs[k] == s.runs[k])
  {
    var rule := Routed(env, home);
    var inv := (x: State) => Kept(env, home, s, x, k);
    forall x: State, step: Step {:trigger Apply(env, x, step)} | inv(x) && Enabled(env, x, step) && rule(x, step)
      ensures inv(Apply(env, x, step))
    {
      KeptByStep(env, home, s, x, step, k);
    }
    Invariance(env, rule, inv, s, steps);
  }

  lemma ConsumerRunsNoneRecorded(env: Env, home: string -> (string, nat), s: State, slot: Slot, act: ConsumerAct,
                                 k: (string, string))
    requires Safe(env, s) && Deduped(env, home, s) && ConsumerEnabled(s, slot, act) && k in s.inbox
    ensures var s' := ApplyConsumer(env, s, slot, act); k in s'.inbox && s'.runs[k] == s.runs[k]
  {
  }

  /** Once an event is in a group's inbox, no step of the whole system runs that group's handler on it. */
  lemma NoRunOnceRecorded(env: Env, home: string -> (string, nat), s: State, step: Step, k: (string, string))
    ensures Safe(env, s) && Deduped(env, home, s) && Enabled(env, s, step) && k in s.inbox ==>
              k in Apply(env, s, step).inbox && Apply(env, s, step).runs[k] == s.runs[k]
  {
    if Safe(env, s) && Deduped(env, home, s) && Enabled(env, s, step) && k in s.inbox && step.ByConsumer? {
      ConsumerRunsNoneRecorded(env, home, s, step.slot, step.move, k);
    }
  }

  /** Deduplication over every routed run from the empty system: each (group, event) is inserted into the inbox at
      most once, exactly when it is there, and from then on its handler never runs again. */
  lemma HandledAtMostOnce(env: Env, home: string -> (string, nat), steps: seq<Step>, more: seq<Step>,
                          k: (string, string))
    requires Run(env, Routed(env, home), Init(), steps)
    requires Run(env, Routed(env, home), Exec(env, Routed(env, home), Init(), steps), more)
    ensures var s := Exec(env, Routed(env, home), Init(), steps);
            var s' := Exec(env, Routed(env, home), s, more);
            && s'.marks[k] <= 1
            && (s'.marks[k] == 1 <==> k in s'.inbox)
            && (k in s.inbox ==> k in s'.inbox && s'.runs[k] == s.runs[k])
  {
    InitIsSafe(env);
    assert Deduped(env, home, Init());
    RunsAreDeduped(env, home, Init(), steps, k);
    RunsAreDeduped(env, home, Exec(env, Routed(env, home), Init(), steps), more, k);
  }

  // ---------------------------------------------------------------------
  // Every handler run is accounted for.

  /** The slots whose handler has run on the event and whose inbox insert is next. */
  function AwaitingMark(s: State, k: (string, string)): set<Slot> {
    set slot | slot in s.consumers && s.consumers[slot].Handled? && (slot.group, s.consumers[slot].event.eventId) == k
  }

  predicate RunsAccounted(s: State, k: (string, string)) {
    s.runs[k] == s.marks[k] + s.unmarked[k] + |AwaitingMark(s, k)|
  }

  lemma AwaitingAfter(env: Env, s: State, slot: Slot, act: ConsumerAct, k: (string, string))
    requires ConsumerEnabled(s, slot, act)
    ensures var s' := ApplyConsumer(env, s, slot, act);
            AwaitingMark(s', k) ==
              if act.Handle? && !act.result.FailedUnfiled? && (slot.group, s.consumers[slot].event.eventId) == k
              then AwaitingMark(s, k) + {slot} else AwaitingMark(s, k) - {slot}
    ensures act.Handle? ==> slot !in AwaitingMark(s, k)
  {
    var s' := ApplyConsumer(env, s, slot, act);
    forall x | x != slot ensures x in AwaitingMark(s', k) <==> x in AwaitingMark(s, k) {
    }
  }

  lemma ConsumerAccounts(env: Env, s: State, slot: Slot, act: ConsumerAct, k: (string, string))
    requires RunsAccounted(s, k) && ConsumerEnabled(s, slot, act)
    ensures RunsAccounted(ApplyConsumer(env, s, slot, act), k)
  {
    AwaitingAfter(env, s, slot, act, k);
  }

  lemma StepAccounts(env: Env, s: State, step: Step, k: (string, string))
    requires RunsAccounted(s, k) && Enabled(env, s, step)
    ensures RunsAccounted(Apply(env, s, step), k)
  {
    if step.ByConsumer? {
      ConsumerAccounts(env, s, step.slot, step.move, k);
    } else {
      assert AwaitingMark(Apply(env, s, step), k) == AwaitingMark(s, k);
    }
  }

  /** In every run whatever, each handler run of a group on an event is one that the inbox insert followed, one that
      left no inbox row because of a crash or a failed statement, or one whose insert is next; so a handler runs again
      only after such a loss, or beside a run still under way. */
  lemma RunsAreAccounted(env: Env, rule: (State, Step) -> bool, steps: seq<Step>, k: (string, string))
    requires Run(env, rule, Init(), steps)
    ensures RunsAccounted(Exec(env, rule, Init(), steps), k)
  {
    var inv := (x: State) => RunsAccounted(x, k);
    forall x: State, step: Step {:trigger Apply(env, x, step)} | inv(x) && Enabled(env, x, step) && rule(x, step)
      ensures inv(Apply(env, x, step))
    {
      StepAccounts(env, x, step, k);
    }
    Invariance(env, rule, inv, Init(), steps);
  }

  /** With routing as well, a handler runs at most once more than it left unmarked. */
  lemma RunsAreBounded(env: Env, home: string -> (string, nat), steps: seq<Step>, k: (string, string))
    requires Run(env, Routed(env, home), Init(), steps)
    ensures var s := Exec(env, Routed(env, home), Init(), steps); s.runs[k] <= s.unmarked[k] + 1
  {
    RunsAreAccounted(env, Routed(env, home), steps, k);
    InitIsSafe(env);
    assert Deduped(env, home, Init());
    RunsAreDeduped(env, home, Init(), steps, k);
    var s := Exec(env, Routed(env, home), Init(), steps);
    if AwaitingMark(s, k) != {} {
      var a :| a in AwaitingMark(s, k);
      forall b | b in AwaitingMark(s, k) ensures b == a {
        OneSlotPerEvent(env, home, s, a, b);
      }
      assert AwaitingMark(s, k) == {a};
      assert k !in s.inbox;
    }
  }

  // ---------------------------------------------------------------------
  // The routing of the source.

  /** What topic_for_event and partition_key look at. */
  predicate SameIdentity(a: CommonEvent, b: CommonEvent) {
    && a.eventType == b.eventType && a.projectId == b.projectId && a.companyId == b.companyId
    && a.conversationId == b.conversationId && a.channelId == b.channelId
  }

  /** Events are enqueued with their own topic and key, an event id stands for one type, conversation and channel, and
      the partitioner goes by topic and key. */
  predicate DeployedStep(env: Env, identity: string -> CommonEvent, s: State, step: Step) {
    match step
    case Enqueue(event, topic, key) =>
      && topic == TopicForEvent(env.kafka, event.eventType) && key == PartitionKey(event)
      && SameIdentity(event, identity(event.eventId))
    case PersistSnapshot(events) => forall e :: e in events ==> SameIdentity(e, identity(e.eventId))
    case ByPublisher(w, act) =>
      act.Send? && !act.outcome.NotSent? && Busy(s, w) ==>
        act.outcome.partition == env.partitionOf(Head(s, w).topic, Head(s, w).partitionKey)
    case _ => true
  }

  ghost function Deployed(env: Env, identity: string -> CommonEvent): (State, Step) -> bool {
    (s: State, step: Step) => DeployedStep(env, identity, s, step)
  }

  lemma {:induction false} RunUnder(env: Env, strong: (State, Step) -> bool, weak: (State, Step) -> bool, s: State,
                                    steps: seq<Step>)
    requires Run(env, strong, s, steps) && forall x, step :: strong(x, step) ==> weak(x, step)
    ensures Run(env, weak, s, steps) && Exec(env, weak, s, steps) == Exec(env, strong, s, steps)
    decreases |steps|
  {
    if steps != [] {
      RunUnder(env, strong, weak, Apply(env, s, steps[0]), steps[1..]);
    }
  }

  /** So deduplication holds of every deployment: topic_for_event and partition_key route an event id to one place. */
  lemma DeploymentsDedupe(kafka: KafkaConfig, readsBack: CommonEvent -> bool, eventSize: CommonEvent -> nat,
                          envelopeSize: DeadLetterEnvelope -> nat, partitionOf: (string, string) -> nat,
                          identity: string -> CommonEvent, steps: seq<Step>, k: (string, string))
    requires var env := Deployment(kafka, readsBack, eventSize, envelopeSize, partitionOf);
             Run(env, Deployed(env, identity), Init(), steps)
    ensures var env := Deployment(kafka, readsBack, eventSize, envelopeSize, partitionOf);
            var s := Exec(env, Deployed(env, identity), Init(), steps);
            s.marks[k] <= 1 && (s.marks[k] == 1 <==> k in s.inbox) && s.runs[k] <= s.unmarked[k] + 1
  {
    DeployedDedupe(Deployment(kafka, readsBack, eventSize, envelopeSize, partitionOf), identity, steps, k);
  }

  lemma DeployedDedupe(env: Env, identity: string -> CommonEvent, steps: seq<Step>, k: (string, string))
    requires RoutesLikeSource(env) && Run(env, Deployed(env, identity), Init(), steps)
    ensures var s := Exec(env, Deployed(env, identity), Init(), steps);
            s.marks[k] <= 1 && (s.marks[k] == 1 <==> k in s.inbox) && s.runs[k] <= s.unmarked[k] + 1
  {
    DeployedRunsAreRouted(env, identity, steps);
    RoutedDedupe(env, HomeOf(env, identity), steps, k);
  }

  function HomeOf(env: Env, identity: string -> CommonEvent): string -> (string, nat) {
    (id: string) => Route(env, identity(id))
  }

  lemma DeployedRunsAreRouted(env: Env, identity: string -> CommonEvent, steps: seq<Step>)
    requires RoutesLikeSource(env) && Run(env, Deployed(env, identity), Init(), steps)
    ensures var routed := Routed(env, HomeOf(env, identity));
            Run(env, routed, Init(), steps) &&
              Exec(env, routed, Init(), steps) == Exec(env, Deployed(env, identity), Init(), steps)
  {
    DeployedIsRouted(env, identity);
    RunUnder(env, Deployed(env, identity), Routed(env, HomeOf(env, identity)), Init(), steps);
  }

  lemma RoutedDedupe(env: Env, home: string -> (string, nat), steps: seq<Step>, k: (string, string))
    requires Run(env, Routed(env, home), Init(), steps)
    ensures var s := Exec(env, Routed(env, home), Init(), steps);
            s.marks[k] <= 1 && (s.marks[k] == 1 <==> k in s.inbox) && s.runs[k] <= s.unmarked[k] + 1
  {
    assert Run(env, Routed(env, home), Exec(env, Routed(env, home), Init(), steps), []);
    HandledAtMostOnce(env, home, steps, [], k);
    RunsAreBounded(env, home, steps, k);
  }

  lemma DeployedIsRouted(env: Env, identity: string -> CommonEvent)
    requires RoutesLikeSource(env)
    ensures forall s: State, step: Step :: Deployed(env, identity)(s, step) ==>
            Routed(env, HomeOf(env, identity))(s, step)
  {
    forall s: State, step: Step | Deployed(env, identity)(s, step) ensures Routed(env, HomeOf(env, identity))(s, step) {
      DeployedStepIsRouted(env, identity, HomeOf(env, identity), s, step);
    }
  }

  lemma DeployedStepIsRouted(env: Env, identity: string -> CommonEvent, home: string -> (string, nat), s: State,
                             step: Step)
    requires DeployedStep(env, identity, s, step) && forall id :: home(id) == Route(env, identity(id))
    requires RoutesLikeSource(env)
    ensures RoutedStep(env, home, s, step)
  {
  }
}
