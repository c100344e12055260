/** What every step of the pipeline keeps, under any interleaving, crash and statement failure. */
module Safety {
  import opened Wrappers
  import opened EventBus
  import opened Tables
  import opened Pipeline

  // ---------------------------------------------------------------------
  // The log only grows.

  /** The record at this place of the log carries the event with this id. */
  predicate LogHolds(log: Log, topic: string, partition: nat, offset: nat, id: string) {
    && offset < |Contents(log, topic, partition)|
    && Contents(log, topic, partition)[offset].value.EventValue?
    && Contents(log, topic, partition)[offset].value.event.eventId == id
  }

  ghost predicate LogGrows(log: Log, log': Log) {
    forall topic, partition :: Contents(log, topic, partition) <= Contents(log', topic, partition)
  }

  lemma SendGrowsLog(log: Log, topic: string, record: Record, outcome: SendOutcome)
    ensures LogGrows(log, AfterSend(log, topic, record, outcome))
    ensures outcome.Delivered? && record.value.EventValue? ==>
              LogHolds(AfterSend(log, topic, record, outcome), topic, outcome.partition,
                       |Contents(log, topic, outcome.partition)|, record.value.event.eventId)
  {
  }

  ghost predicate DeadlettersGrow(rows: Deadletters, rows': Deadletters) {
    |rows| <= |rows'| && forall i :: 0 <= i < |rows| ==>
      rows'[i] == rows[i].(replayedAt := rows'[i].replayedAt, replayedBy := rows'[i].replayedBy)
  }

  // ---------------------------------------------------------------------
  // The invariant, one part per table.

  ghost predicate RowOk(id: string, row: OutboxRow, log: Log) {
    && row.payload.event.eventId == id
    && row.attemptCount <= MAX_I32
    && (row.status == Publishing ==> row.lockedUntil.Some?)
    && (row.status == Published ==> row.recorded.Some?)
    && (row.recorded.Some? ==>
          exists topic :: LogHolds(log, topic, row.recorded.value.partition, row.recorded.value.offset, id))
  }

  ghost predicate OutboxOk(rows: Outbox, log: Log) {
    forall id :: id in rows ==> RowOk(id, rows[id], log)
  }

  predicate ClaimedOk(c: Claimed, rows: Outbox) {
    c.eventId in rows && c.payload.event.eventId == c.eventId
  }

  predicate PublisherOk(env: Env, p: Publisher, rows: Outbox, log: Log) {
    && (forall i :: 0 <= i < |p.todo| ==> ClaimedOk(p.todo[i], rows))
    && (!p.phase.Ready? ==> p.todo != [] && p.todo[0].payload.Readable?)
    && (p.phase.Acked? || p.phase.SendFailed? || p.phase.Filed? || p.phase.Relayed? ==>
          Encodes(env, p.todo[0].payload.event))
    && (p.phase.Acked? ==>
          LogHolds(log, p.todo[0].topic, p.phase.position.partition, p.phase.position.offset, p.todo[0].eventId))
  }

  ghost predicate PublishersOk(env: Env, publishers: map<string, Publisher>, rows: Outbox, log: Log) {
    forall w :: w in publishers ==> PublisherOk(env, publishers[w], rows, log)
  }

  predicate DeadlettersOk(rows: Deadletters) {
    forall i :: 0 <= i < |rows| ==> rows[i].payload.event.eventId == rows[i].eventId
  }

  /** Raw media never reaches the broker. */
  ghost predicate LogOk(log: Log) {
    forall topic, partition, i :: 0 <= i < |Contents(log, topic, partition)| ==>
      Clean(Contents(log, topic, partition)[i].value)
  }

  /** The event was handled by this group, or this group's handler put it on record as failed. */
  predicate Settled(s: State, group: string, id: string) {
    (group, id) in s.succeeded || (group, id) in s.filed
  }

  /** What a group's handler put on record is there, for that event. */
  ghost predicate FiledOk(s: State) {
    forall k :: k in s.filed ==>
      s.filed[k] < |s.deadletters| && s.deadletters[s.filed[k]].eventId == k.1 &&
        s.deadletters[s.filed[k]].retryCount == 1
  }

  ghost predicate DeliveryOk(s: State, slot: Slot) requires slot in s.consumers {
    var d := s.consumers[slot];
    && LogHolds(s.log, slot.topic, slot.partition, d.offset, d.event.eventId)
    && Contents(s.log, slot.topic, slot.partition)[d.offset].value.event == d.event
    && (d.Handled? ==> d.status == Processed || d.status == DeadLettered)
    && (d.Handled? ==> Settled(s, slot.group, d.event.eventId))
    && (d.Committing? ==> (slot.group, d.event.eventId) in s.inbox)
  }

  ghost predicate ConsumersOk(s: State) {
    forall slot :: slot in s.consumers ==> DeliveryOk(s, slot)
  }

  predicate InboxEntryOk(s: State, k: (string, string)) requires k in s.inbox {
    && LogHolds(s.log, s.inbox[k].topic, s.inbox[k].partition, s.inbox[k].offset, k.1)
    && Settled(s, k.0, k.1)
  }

  ghost predicate InboxOk(s: State) {
    forall k :: k in s.inbox ==> InboxEntryOk(s, k)
  }

  ghost predicate CommitOk(s: State, c: (string, SourceOffset)) {
    exists id :: LogHolds(s.log, c.1.topic, c.1.partition, c.1.offset, id) && (c.0, id) in s.inbox
  }

  ghost predicate CommittedOk(s: State) {
    forall c :: c in s.committed ==> CommitOk(s, c)
  }

  ghost predicate Safe(env: Env, s: State) {
    && OutboxOk(s.outbox, s.log)
    && s.snapshot <= s.outbox.Keys
    && PublishersOk(env, s.publishers, s.outbox, s.log)
    && DeadlettersOk(s.deadletters)
    && LogOk(s.log)
    && FiledOk(s)
    && ConsumersOk(s)
    && InboxOk(s)
    && CommittedOk(s)
  }

  /** What no step ever takes back. */
  ghost predicate Monotone(s: State, s': State) {
    && s.now <= s'.now
    && s.outbox.Keys <= s'.outbox.Keys
    && LogGrows(s.log, s'.log)
    && DeadlettersGrow(s.deadletters, s'.deadletters)
    && s.inbox.Keys <= s'.inbox.Keys
    && s.committed <= s'.committed
    && s.succeeded <= s'.succeeded
    && s.filed.Keys <= s'.filed.Keys
  }

  // ---------------------------------------------------------------------
  // Frames: growth keeps what the other tables say.

  lemma OutboxFrame(rows: Outbox, log: Log, log': Log)
    requires OutboxOk(rows, log) && LogGrows(log, log')
    ensures OutboxOk(rows, log')
  {
    forall id | id in rows ensures RowOk(id, rows[id], log') {
      var row := rows[id];
      if row.recorded.Some? {
        var topic :| LogHolds(log, topic, row.recorded.value.partition, row.recorded.value.offset, id);
        assert Contents(log, topic, row.recorded.value.partition) <=
          Contents(log', topic, row.recorded.value.partition);
        assert LogHolds(log', topic, row.recorded.value.partition, row.recorded.value.offset, id);
      }
    }
  }

  lemma PublishersFrame(env: Env, publishers: map<string, Publisher>, rows: Outbox, log: Log, rows': Outbox, log': Log)
    requires PublishersOk(env, publishers, rows, log) && LogGrows(log, log') && rows.Keys <= rows'.Keys
    ensures PublishersOk(env, publishers, rows', log')
  {
    forall w | w in publishers ensures PublisherOk(env, publishers[w], rows', log') {
      var p := publishers[w];
      assert PublisherOk(env, p, rows, log);
      forall i | 0 <= i < |p.todo| ensures ClaimedOk(p.todo[i], rows') {
        assert ClaimedOk(p.todo[i], rows);
      }
      if p.phase.Acked? {
        assert Contents(log, p.todo[0].topic, p.phase.position.partition) <=
          Contents(log', p.todo[0].topic, p.phase.position.partition);
      }
    }
  }

  lemma HoldsFrame(s: State, s': State, topic: string, partition: nat, offset: nat, id: string)
    requires Monotone(s, s') && LogHolds(s.log, topic, partition, offset, id)
    ensures LogHolds(s'.log, topic, partition, offset, id)
    ensures Contents(s'.log, topic, partition)[offset] == Contents(s.log, topic, partition)[offset]
  {
    assert Contents(s.log, topic, partition) <= Contents(s'.log, topic, partition);
  }

  lemma DeliveryFrame(s: State, s': State, slot: Slot)
    requires Monotone(s, s') && slot in s.consumers && slot in s'.consumers
    requires s'.consumers[slot] == s.consumers[slot] && DeliveryOk(s, slot)
    ensures DeliveryOk(s', slot)
  {
    var d := s.consumers[slot];
    HoldsFrame(s, s', slot.topic, slot.partition, d.offset, d.event.eventId);
  }

  lemma InboxEntryFrame(s: State, s': State, k: (string, string))
    requires Monotone(s, s') && k in s.inbox && k in s'.inbox && s'.inbox[k] == s.inbox[k] && InboxEntryOk(s, k)
    ensures InboxEntryOk(s', k)
  {
    HoldsFrame(s, s', s.inbox[k].topic, s.inbox[k].partition, s.inbox[k].offset, k.1);
  }

  lemma CommitFrame(s: State, s': State, c: (string, SourceOffset))
    requires Monotone(s, s') && CommitOk(s, c)
    ensures CommitOk(s', c)
  {
    var id :| LogHolds(s.log, c.1.topic, c.1.partition, c.1.offset, id) && (c.0, id) in s.inbox;
    HoldsFrame(s, s', c.1.topic, c.1.partition, c.1.offset, id);
    assert (c.0, id) in s'.inbox;
  }

  /** A step that leaves inbox, consumers and commits alone keeps the consumer side. */
  lemma ConsumerSideFrame(s: State, s': State)
    requires Monotone(s, s') && ConsumersOk(s) && InboxOk(s) && CommittedOk(s)
    requires s'.consumers == s.consumers && s'.inbox == s.inbox && s'.committed == s.committed
    ensures ConsumersOk(s') && InboxOk(s') && CommittedOk(s')
  {
    forall slot | slot in s'.consumers ensures DeliveryOk(s', slot) {
      DeliveryFrame(s, s', slot);
    }
    forall k | k in s'.inbox ensures InboxEntryOk(s', k) {
      InboxEntryFrame(s, s', k);
    }
    forall c | c in s'.committed ensures CommitOk(s', c) {
      CommitFrame(s, s', c);
    }
  }

  // ---------------------------------------------------------------------
  // Every step keeps the invariant.

  ghost predicate Keeps(env: Env, s: State, s': State) {
    Monotone(s, s') && Safe(env, s')
  }

  predicate IsMark(act: PublisherAct) {
    act.MarkUndecodable? || act.RefuseEncode? || act.ConfirmPublished? || act.ScheduleRetry? || act.BuryExhausted?
  }

  lemma TickKeeps(env: Env, s: State, step: Step)
    requires Safe(env, s) && step.Tick?
    ensures Keeps(env, s, Apply(env, s, step))
  {
    ConsumerSideFrame(s, Apply(env, s, step));
  }

  lemma EnqueueKeeps(env: Env, s: State, step: Step)
    requires Safe(env, s) && step.Enqueue?
    ensures Keeps(env, s, Apply(env, s, step))
  {
    var s' := Apply(env, s, step);
    forall id | id in s'.outbox ensures RowOk(id, s'.outbox[id], s'.log) {
      assert id in s.outbox ==> RowOk(id, s.outbox[id], s.log);
    }
    PublishersFrame(env, s.publishers, s.outbox, s.log, s'.outbox, s'.log);
    ConsumerSideFrame(s, s');
  }

  lemma PersistKeeps(env: Env, s: State, step: Step)
    requires Safe(env, s) && step.PersistSnapshot?
    ensures Keeps(env, s, Apply(env, s, step))
  {
    var s' := Apply(env, s, step);
    PersistedRowsOk(env, s.outbox, step.events, s.now, s.log);
    PersistAddsMissing(env, s.outbox, step.events, s.now);
    PublishersFrame(env, s.publishers, s.outbox, s.log, s'.outbox, s'.log);
    ConsumerSideFrame(s, s');
  }

  lemma {:induction false} PersistedRowsOk(env: Env, rows: Outbox, events: seq<CommonEvent>, now: Time, log: Log)
    requires OutboxOk(rows, log)
    ensures OutboxOk(Persist(env, rows, events, now), log)
  {
    if events != [] {
      var init := Persist(env, rows, events[..|events| - 1], now);
      PersistedRowsOk(env, rows, events[..|events| - 1], now, log);
      var after := InsertIfAbsent(env, init, events[|events| - 1], now);
      forall id | id in after ensures RowOk(id, after[id], log) {
        assert id in init ==> RowOk(id, init[id], log);
      }
    }
  }

  /** Requeueing keeps every row sound. */
  lemma RequeuedRowsOk(env: Env, rows: Outbox, event: CommonEvent, now: Time, log: Log)
    requires OutboxOk(rows, log)
    ensures OutboxOk(Requeue(env, rows, event, Readable(event), now), log)
  {
    var rows' := Requeue(env, rows, event, Readable(event), now);
    forall id | id in rows' ensures RowOk(id, rows'[id], log) {
      assert id in rows ==> RowOk(id, rows[id], log);
    }
  }

  lemma ReplayKeeps(env: Env, s: State, step: Step)
    requires Safe(env, s) && step.Replay? && Enabled(env, s, step)
    ensures Keeps(env, s, Apply(env, s, step))
  {
    var s' := Apply(env, s, step);
    RequeuedRowsOk(env, s.outbox, s.deadletters[step.deadletter].payload.event, s.now, s.log);
    PublishersFrame(env, s.publishers, s.outbox, s.log, s'.outbox, s'.log);
    ConsumerSideFrame(s, s');
  }

  /** A publisher step that leaves each table sound keeps the whole invariant. */
  lemma WorkerKeeps(env: Env, s: State, s': State, w: string)
    requires Safe(env, s)
    requires s' == s.(publishers := s'.publishers, outbox := s'.outbox, deadletters := s'.deadletters, log := s'.log,
                      sends := s'.sends, lost := s'.lost)
    requires OutboxOk(s'.outbox, s'.log) && s.outbox.Keys <= s'.outbox.Keys
    requires LogGrows(s.log, s'.log) && LogOk(s'.log)
    requires DeadlettersGrow(s.deadletters, s'.deadletters) && DeadlettersOk(s'.deadletters)
    requires forall x :: x in s'.publishers && x != w ==> x in s.publishers && s'.publishers[x] == s.publishers[x]
    requires w in s'.publishers ==> PublisherOk(env, s'.publishers[w], s'.outbox, s'.log)
    ensures Keeps(env, s, s')
  {
    PublishersFrame(env, s.publishers, s.outbox, s.log, s'.outbox, s'.log);
    ConsumerSideFrame(s, s');
  }

  lemma ClaimKeeps(env: Env, s: State, w: string, act: PublisherAct)
    requires Safe(env, s) && act.ClaimBatch? && PublisherEnabled(env, s, w, act)
    ensures Keeps(env, s, ApplyPublisher(env, s, w, act))
  {
    var s' := ApplyPublisher(env, s, w, act);
    forall id | id in s'.outbox ensures RowOk(id, s'.outbox[id], s'.log) {
      assert RowOk(id, s.outbox[id], s.log);
    }
    forall i | 0 <= i < |act.ids| ensures ClaimedOk(s'.publishers[w].todo[i], s'.outbox) {
      assert act.ids[i] in act.ids;
      assert RowOk(act.ids[i], s.outbox[act.ids[i]], s.log);
    }
    WorkerKeeps(env, s, s', w);
  }

  /** The next record of the batch is as sound as the batch was. */
  lemma NextOk(env: Env, p: Publisher, rows: Outbox, log: Log)
    requires PublisherOk(env, p, rows, log) && p.todo != []
    ensures PublisherOk(env, Publisher(p.todo[1..], Ready), rows, log)
  {
    forall i | 0 <= i < |p.todo[1..]| ensures ClaimedOk(p.todo[1..][i], rows) {
      assert ClaimedOk(p.todo[i + 1], rows);
    }
  }

  /** A mark touches at most the row it names. */
  lemma MarkShape(env: Env, s: State, w: string, act: PublisherAct)
    requires IsMark(act) && PublisherEnabled(env, s, w, act)
    ensures var rows := OutboxAfter(env, s, w, act);
            var id := Head(s, w).eventId;
            rows == s.outbox || (act.dbOk && id in s.outbox && id in rows && rows == s.outbox[id := rows[id]])
  {
  }

  /** The marked row stays sound. */
  lemma MarkedRowOk(env: Env, s: State, w: string, act: PublisherAct)
    requires Safe(env, s) && IsMark(act) && PublisherEnabled(env, s, w, act)
    ensures var id := Head(s, w).eventId;
            id in s.outbox && id in OutboxAfter(env, s, w, act) && RowOk(id, OutboxAfter(env, s, w, act)[id], s.log)
  {
    var p := s.publishers[w];
    var id := Head(s, w).eventId;
    assert PublisherOk(env, p, s.outbox, s.log);
    assert ClaimedOk(p.todo[0], s.outbox);
    assert RowOk(id, s.outbox[id], s.log);
    if act.ConfirmPublished? && act.dbOk {
      assert LogHolds(s.log, p.todo[0].topic, p.phase.position.partition, p.phase.position.offset, id);
    }
  }

  lemma MarkedOutboxOk(env: Env, s: State, w: string, act: PublisherAct)
    requires Safe(env, s) && IsMark(act) && PublisherEnabled(env, s, w, act)
    ensures OutboxOk(OutboxAfter(env, s, w, act), s.log) && OutboxAfter(env, s, w, act).Keys == s.outbox.Keys
  {
    MarkShape(env, s, w, act);
    MarkedRowOk(env, s, w, act);
  }

  lemma MarkedPublisherOk(env: Env, s: State, w: string, act: PublisherAct)
    requires Safe(env, s) && IsMark(act) && PublisherEnabled(env, s, w, act)
    requires OutboxAfter(env, s, w, act).Keys == s.outbox.Keys
    ensures NextPublisher(env, s, w, act).Some?
    ensures PublisherOk(env, NextPublisher(env, s, w, act).value, OutboxAfter(env, s, w, act), s.log)
  {
    var p := s.publishers[w];
    var rows := OutboxAfter(env, s, w, act);
    assert PublisherOk(env, p, s.outbox, s.log);
    forall i | 0 <= i < |p.todo| ensures ClaimedOk(p.todo[i], rows) {
      assert ClaimedOk(p.todo[i], s.outbox);
    }
    NextOk(env, p, rows, s.log);
  }

  lemma MarkKeeps(env: Env, s: State, w: string, act: PublisherAct)
    requires Safe(env, s) && IsMark(act) && PublisherEnabled(env, s, w, act)
    ensures Keeps(env, s, ApplyPublisher(env, s, w, act))
  {
    MarkedOutboxOk(env, s, w, act);
    MarkedPublisherOk(env, s, w, act);
    WorkerKeeps(env, s, ApplyPublisher(env, s, w, act), w);
  }

  lemma FileGrows(env: Env, s: State, w: string, act: PublisherAct)
    requires PublisherEnabled(env, s, w, act)
    ensures DeadlettersGrow(s.deadletters, DeadlettersAfter(env, s, w, act))
    ensures DeadlettersOk(s.deadletters) ==> DeadlettersOk(DeadlettersAfter(env, s, w, act))
  {
  }

  lemma FileKeeps(env: Env, s: State, w: string, act: PublisherAct)
    requires Safe(env, s) && (act.FileRefused? || act.FileExhausted?) && PublisherEnabled(env, s, w, act)
    ensures Keeps(env, s, ApplyPublisher(env, s, w, act))
  {
    FileGrows(env, s, w, act);
    FiledPublisherOk(env, s, w, act);
    WorkerKeeps(env, s, ApplyPublisher(env, s, w, act), w);
  }

  lemma FiledPublisherOk(env: Env, s: State, w: string, act: PublisherAct)
    requires Safe(env, s) && (act.FileRefused? || act.FileExhausted?) && PublisherEnabled(env, s, w, act)
    ensures var next := NextPublisher(env, s, w, act); next.Some? && PublisherOk(env, next.value, s.outbox, s.log)
  {
    assert PublisherOk(env, s.publishers[w], s.outbox, s.log);
    NextOk(env, s.publishers[w], s.outbox, s.log);
  }

  /** Appending an encoded value keeps raw media off the log. */
  lemma AppendKeepsClean(log: Log, topic: string, record: Record, outcome: SendOutcome)
    requires LogOk(log) && (outcome.NotSent? || Clean(record.value))
    ensures LogOk(AfterSend(log, topic, record, outcome))
  {
    var log' := AfterSend(log, topic, record, outcome);
    forall t, partition, i | 0 <= i < |Contents(log', t, partition)|
      ensures Clean(Contents(log', t, partition)[i].value)
    {
      assert i < |Contents(log, t, partition)| ==> Contents(log', t, partition)[i] == Contents(log, t, partition)[i];
    }
  }

  /** What is sent has passed an encoder, and an acknowledged position is where the event now is. */
  lemma SendFacts(env: Env, s: State, w: string, act: PublisherAct)
    requires Safe(env, s) && (act.Send? || act.RelayExhausted?) && PublisherEnabled(env, s, w, act)
    ensures LogGrows(s.log, LogAfter(env, s, w, act)) && LogOk(LogAfter(env, s, w, act))
    ensures act.Send? && act.outcome.Delivered? ==>
              LogHolds(LogAfter(env, s, w, act), Head(s, w).topic, act.outcome.partition,
                       |Contents(s.log, Head(s, w).topic, act.outcome.partition)|, Head(s, w).eventId)
  {
    var c := Head(s, w);
    assert PublisherOk(env, s.publishers[w], s.outbox, s.log);
    assert ClaimedOk(s.publishers[w].todo[0], s.outbox);
    var (topic, record) := Outgoing(env, s, w, act);
    EncodersKeepMediaOut(env, c.payload.event,
                         if act.Send? then DeadLetterEnvelope(c.payload.event, 0, "") else record.value.envelope);
    SendGrowsLog(s.log, topic, record, act.outcome);
    AppendKeepsClean(s.log, topic, record, act.outcome);
  }

  lemma SendKeeps(env: Env, s: State, w: string, act: PublisherAct)
    requires Safe(env, s) && (act.Send? || act.RelayExhausted?) && PublisherEnabled(env, s, w, act)
    ensures Keeps(env, s, ApplyPublisher(env, s, w, act))
  {
    var log := LogAfter(env, s, w, act);
    SendFacts(env, s, w, act);
    OutboxFrame(s.outbox, s.log, log);
    PublishersFrame(env, s.publishers, s.outbox, s.log, s.outbox, log);
    assert PublisherOk(env, s.publishers[w], s.outbox, log);
    WorkerKeeps(env, s, ApplyPublisher(env, s, w, act), w);
  }

  lemma CrashKeeps(env: Env, s: State, w: string, act: PublisherAct)
    requires Safe(env, s) && act.CrashPublisher? && PublisherEnabled(env, s, w, act)
    ensures Keeps(env, s, ApplyPublisher(env, s, w, act))
  {
    WorkerKeeps(env, s, ApplyPublisher(env, s, w, act), w);
  }

  /** The duplicate test agrees with "this event was already recorded": a row at this offset is this event's row. */
  lemma DuplicateTestIsExact(s: State, group: string, id: string, at: SourceOffset)
    requires InboxOk(s) && LogHolds(s.log, at.topic, at.partition, at.offset, id)
    ensures InboxProcessed(s.inbox, group, id, at) <==> (group, id) in s.inbox
    ensures !OffsetTaken(s.inbox, group, id, at)
  {
    forall k | k in s.inbox && s.inbox[k] == at && k.0 == group ensures k == (group, id) {
      assert InboxEntryOk(s, k);
    }
  }

  /** One slot changes its place; everything else on the consumer side is framed. */
  lemma SlotKeeps(env: Env, s: State, s': State, slot: Slot)
    requires Safe(env, s) && Monotone(s, s')
    requires s'.outbox == s.outbox && s'.snapshot == s.snapshot && s'.log == s.log && s'.publishers == s.publishers
    requires DeadlettersOk(s'.deadletters) && FiledOk(s')
    requires s'.consumers.Keys <= s.consumers.Keys + {slot}
    requires forall x :: x in s'.consumers && x != slot ==> s'.consumers[x] == s.consumers[x]
    requires slot in s'.consumers ==> DeliveryOk(s', slot)
    requires forall k :: k in s'.inbox ==> (k in s.inbox && s'.inbox[k] == s.inbox[k]) || InboxEntryOk(s', k)
    requires forall c :: c in s'.committed ==> c in s.committed || CommitOk(s', c)
    ensures Safe(env, s')
  {
    forall x | x in s'.consumers ensures DeliveryOk(s', x) {
      if x != slot {
        DeliveryFrame(s, s', x);
      }
    }
    forall k | k in s'.inbox ensures InboxEntryOk(s', k) {
      if k in s.inbox && s'.inbox[k] == s.inbox[k] {
        InboxEntryFrame(s, s', k);
      }
    }
    forall c | c in s'.committed ensures CommitOk(s', c) {
      if c in s.committed {
        CommitFrame(s, s', c);
      }
    }
  }

  /** A consumer step touches its own slot, and adds at most one inbox row, one commit and one deadletter. */
  lemma ConsumerShape(env: Env, s: State, slot: Slot, act: ConsumerAct)
    requires ConsumerEnabled(s, slot, act)
    ensures var s' := ApplyConsumer(env, s, slot, act);
            && s'.now == s.now && s'.outbox == s.outbox && s'.snapshot == s.snapshot && s'.log == s.log
            && s'.publishers == s.publishers && s'.sends == s.sends
            && s'.consumers.Keys <= s.consumers.Keys + {slot}
            && (forall x :: x in s'.consumers && x != slot ==> x in s.consumers && s'.consumers[x] == s.consumers[x])
    ensures var s' := ApplyConsumer(env, s, slot, act);
            !act.MarkInbox? ==> s'.inbox == s.inbox && s'.marks == s.marks
    ensures var s' := ApplyConsumer(env, s, slot, act);
            !act.CommitOffset? ==> s'.committed == s.committed
    ensures var s' := ApplyConsumer(env, s, slot, act);
            !act.Handle? ==>
              s'.deadletters == s.deadletters && s'.succeeded == s.succeeded && s'.filed == s.filed && s'.runs == s.runs
  {
  }

  lemma DeliverKeeps(env: Env, s: State, slot: Slot, act: ConsumerAct)
    requires Safe(env, s) && (act.Deliver? || act.CrashConsumer?) && ConsumerEnabled(s, slot, act)
    ensures Keeps(env, s, ApplyConsumer(env, s, slot, act))
  {
    ConsumerShape(env, s, slot, act);
    SlotKeeps(env, s, ApplyConsumer(env, s, slot, act), slot);
  }

  lemma CheckKeeps(env: Env, s: State, slot: Slot, act: ConsumerAct)
    requires Safe(env, s) && act.CheckInbox? && ConsumerEnabled(s, slot, act)
    ensures Keeps(env, s, ApplyConsumer(env, s, slot, act))
  {
    var d := s.consumers[slot];
    assert DeliveryOk(s, slot);
    ConsumerShape(env, s, slot, act);
    DuplicateTestIsExact(s, slot.group, d.event.eventId, SourceOf(slot, d.offset));
    SlotKeeps(env, s, ApplyConsumer(env, s, slot, act), slot);
  }

  /** A handler run adds at most its own deadletter, and remembers which. */
  lemma HandleFiles(env: Env, s: State, slot: Slot, act: ConsumerAct)
    requires DeadlettersOk(s.deadletters) && FiledOk(s) && act.Handle? && ConsumerEnabled(s, slot, act)
    ensures var s' := ApplyConsumer(env, s, slot, act);
            && DeadlettersGrow(s.deadletters, s'.deadletters) && DeadlettersOk(s'.deadletters) && FiledOk(s')
            && s.succeeded <= s'.succeeded && s.filed.Keys <= s'.filed.Keys
  {
  }

  /** The handled delivery is settled. */
  lemma HandleSettles(env: Env, s: State, slot: Slot, act: ConsumerAct)
    requires act.Handle? && ConsumerEnabled(s, slot, act) && DeliveryOk(s, slot)
    ensures var s' := ApplyConsumer(env, s, slot, act); slot in s'.consumers ==> DeliveryOk(s', slot)
  {
  }

  lemma HandleKeeps(env: Env, s: State, slot: Slot, act: ConsumerAct)
    requires Safe(env, s) && act.Handle? && ConsumerEnabled(s, slot, act)
    ensures Keeps(env, s, ApplyConsumer(env, s, slot, act))
  {
    assert DeliveryOk(s, slot);
    ConsumerShape(env, s, slot, act);
    HandleFiles(env, s, slot, act);
    HandleSettles(env, s, slot, act);
    SlotKeeps(env, s, ApplyConsumer(env, s, slot, act), slot);
  }

  /** The row that a mark adds names the record and what became of it. */
  lemma MarkIsSound(env: Env, s: State, slot: Slot, act: ConsumerAct)
    requires act.MarkInbox? && ConsumerEnabled(s, slot, act) && DeliveryOk(s, slot)
    ensures var s' := ApplyConsumer(env, s, slot, act);
            && (forall k :: k in s'.inbox ==> (k in s.inbox && s'.inbox[k] == s.inbox[k]) || InboxEntryOk(s', k))
            && (slot in s'.consumers ==> DeliveryOk(s', slot))
  {
  }

  lemma InboxKeeps(env: Env, s: State, slot: Slot, act: ConsumerAct)
    requires Safe(env, s) && act.MarkInbox? && ConsumerEnabled(s, slot, act)
    ensures Keeps(env, s, ApplyConsumer(env, s, slot, act))
  {
    assert DeliveryOk(s, slot);
    ConsumerShape(env, s, slot, act);
    MarkIsSound(env, s, slot, act);
    SlotKeeps(env, s, ApplyConsumer(env, s, slot, act), slot);
  }

  lemma CommitIsSound(env: Env, s: State, slot: Slot, act: ConsumerAct, c: (string, SourceOffset))
    requires act.CommitOffset? && ConsumerEnabled(s, slot, act) && DeliveryOk(s, slot)
    requires c in ApplyConsumer(env, s, slot, act).committed
    ensures c in s.committed || CommitOk(ApplyConsumer(env, s, slot, act), c)
  {
    var id := s.consumers[slot].event.eventId;
    if c !in s.committed {
      assert LogHolds(s.log, c.1.topic, c.1.partition, c.1.offset, id) && (c.0, id) in s.inbox;
    }
  }

  lemma CommitKeeps(env: Env, s: State, slot: Slot, act: ConsumerAct)
    requires Safe(env, s) && act.CommitOffset? && ConsumerEnabled(s, slot, act)
    ensures Keeps(env, s, ApplyConsumer(env, s, slot, act))
  {
    var s' := ApplyConsumer(env, s, slot, act);
    assert DeliveryOk(s, slot);
    ConsumerShape(env, s, slot, act);
    forall c | c in s'.committed ensures c in s.committed || CommitOk(s', c) {
      CommitIsSound(env, s, slot, act, c);
    }
    SlotKeeps(env, s, s', slot);
  }

  lemma ConsumerKeeps(env: Env, s: State, slot: Slot, act: ConsumerAct)
    requires Safe(env, s) && ConsumerEnabled(s, slot, act)
    ensures Keeps(env, s, ApplyConsumer(env, s, slot, act))
  {
    match act
    case Deliver(_) => DeliverKeeps(env, s, slot, act);
    case CheckInbox(_) => CheckKeeps(env, s, slot, act);
    case Handle(_) => HandleKeeps(env, s, slot, act);
    case MarkInbox(_) => InboxKeeps(env, s, slot, act);
    case CommitOffset(_) => CommitKeeps(env, s, slot, act);
    case CrashConsumer => DeliverKeeps(env, s, slot, act);
  }

  lemma PublisherKeeps(env: Env, s: State, w: string, act: PublisherAct)
    requires Safe(env, s) && PublisherEnabled(env, s, w, act)
    ensures Keeps(env, s, ApplyPublisher(env, s, w, act))
  {
    match act
    case ClaimBatch(_, _, _) => ClaimKeeps(env, s, w, act);
    case Send(_) => SendKeeps(env, s, w, act);
    case RelayExhausted(_) => SendKeeps(env, s, w, act);
    case FileRefused(_) => FileKeeps(env, s, w, act);
    case FileExhausted(_) => FileKeeps(env, s, w, act);
    case CrashPublisher => CrashKeeps(env, s, w, act);
    case _ => MarkKeeps(env, s, w, act);
  }

  /** Every step of the system keeps the invariant and takes nothing back. */
  lemma StepKeeps(env: Env, s: State, step: Step)
    requires Safe(env, s) && Enabled(env, s, step)
    ensures Keeps(env, s, Apply(env, s, step))
  {
    match step
    case Tick(_) => TickKeeps(env, s, step);
    case Enqueue(_, _, _) => EnqueueKeeps(env, s, step);
    case PersistSnapshot(_) => PersistKeeps(env, s, step);
    case Replay(_, _) => ReplayKeeps(env, s, step);
    case ByPublisher(w, act) => PublisherKeeps(env, s, w, act);
    case ByConsumer(slot, act) => ConsumerKeeps(env, s, slot, act);
  }

  // ---------------------------------------------------------------------
  // Over whole runs.

  /** Every state the system can reach is safe. */
  lemma RunsAreSafe(env: Env, rule: (State, Step) -> bool, s: State, steps: seq<Step>)
    requires Run(env, rule, s, steps) && Safe(env, s)
    ensures Safe(env, Exec(env, rule, s, steps)) && Monotone(s, Exec(env, rule, s, steps))
  {
    var inv := (x: State) => Safe(env, x) && Monotone(s, x);
    forall x: State, step: Step {:trigger Apply(env, x, step)} | inv(x) && Enabled(env, x, step) && rule(x, step)
      ensures inv(Apply(env, x, step))
    {
      StepKeeps(env, x, step);
      MonotoneTransitive(s, x, Apply(env, x, step));
    }
    Invariance(env, rule, inv, s, steps);
  }

  lemma MonotoneTransitive(a: State, b: State, c: State)
    requires Monotone(a, b) && Monotone(b, c)
    ensures Monotone(a, c)
  {
    forall topic, partition ensures Contents(a.log, topic, partition) <= Contents(c.log, topic, partition) {
      assert Contents(a.log, topic, partition) <= Contents(b.log, topic, partition);
      assert Contents(b.log, topic, partition) <= Contents(c.log, topic, partition);
    }
  }

  lemma InitIsSafe(env: Env)
    ensures Safe(env, Init())
  {
  }

  ghost function After(env: Env, steps: seq<Step>): State
    requires Run(env, AnyStep(), Init(), steps)
  {
    Exec(env, AnyStep(), Init(), steps)
  }

  lemma ReachableIsSafe(env: Env, steps: seq<Step>)
    requires Run(env, AnyStep(), Init(), steps)
    ensures Safe(env, After(env, steps))
  {
    InitIsSafe(env);
    RunsAreSafe(env, AnyStep(), Init(), steps);
  }

  /** No loss. However the run goes on, no outbox row disappears and no log record changes; every row is in the
      backlog, published or deadlettered; a published row has a recorded position, and every recorded position is
      that of a log record of that very event. */
  lemma NoLoss(env: Env, steps: seq<Step>, more: seq<Step>, id: string)
    requires Run(env, AnyStep(), Init(), steps) && Run(env, AnyStep(), After(env, steps), more)
    requires id in After(env, steps).outbox
    ensures var s, s' := After(env, steps), Exec(env, AnyStep(), After(env, steps), more);
            && id in s'.outbox
            && LogGrows(s.log, s'.log)
            && (InBacklog(s'.outbox[id]) || s'.outbox[id].status == Published || s'.outbox[id].status == Deadlettered)
            && (s'.outbox[id].status == Published ==> s'.outbox[id].recorded.Some?)
            && (s'.outbox[id].recorded.Some? ==>
                  exists topic :: LogHolds(s'.log, topic, s'.outbox[id].recorded.value.partition,
                                           s'.outbox[id].recorded.value.offset, id))
  {
    ReachableIsSafe(env, steps);
    RunsAreSafe(env, AnyStep(), After(env, steps), more);
    var s' := Exec(env, AnyStep(), After(env, steps), more);
    assert RowOk(id, s'.outbox[id], s'.log);
  }

  /** Never stuck. In every reachable state a backlog row becomes claimable once its timers pass, and stays so. */
  lemma NeverStuck(env: Env, steps: seq<Step>, id: string, t: Time)
    requires Run(env, AnyStep(), Init(), steps)
    requires id in After(env, steps).outbox && InBacklog(After(env, steps).outbox[id])
    requires t > HeldUntil(After(env, steps).outbox[id])
    ensures Claimable(After(env, steps).outbox[id], t)
    ensures After(env, steps).outbox[id].status == Publishing ==> After(env, steps).outbox[id].lockedUntil.Some?
  {
    ReachableIsSafe(env, steps);
    var s := After(env, steps);
    assert RowOk(id, s.outbox[id], s.log);
    EventuallyClaimable(s.outbox[id]);
  }

  /** Commit soundness: a committed offset names a log record whose event is in that group's inbox, and every
      inbox row names a log record of its own event, so UNIQUE(group, topic, partition, offset) never fires. */
  lemma CommitsAreSound(env: Env, steps: seq<Step>, c: (string, SourceOffset), k: (string, string))
    requires Run(env, AnyStep(), Init(), steps)
    ensures var s := After(env, steps);
            c in s.committed ==>
              exists id :: LogHolds(s.log, c.1.topic, c.1.partition, c.1.offset, id) && (c.0, id) in s.inbox
    ensures var s := After(env, steps);
            k in s.inbox ==>
              && LogHolds(s.log, s.inbox[k].topic, s.inbox[k].partition, s.inbox[k].offset, k.1)
              && forall j :: j in s.inbox && j.0 == k.0 && s.inbox[j] == s.inbox[k] ==> j == k
  {
    ReachableIsSafe(env, steps);
    var s := After(env, steps);
    if c in s.committed {
      assert CommitOk(s, c);
    }
    if k in s.inbox {
      assert InboxEntryOk(s, k);
      forall j | j in s.inbox && j.0 == k.0 && s.inbox[j] == s.inbox[k] ensures j == k {
        assert InboxEntryOk(s, j);
      }
    }
  }

  /** Consumer conservation: every inbox row comes from a handler run of that group that succeeded, or that
      left a deadletter row of that event. */
  lemma InboxRowsAreSettled(env: Env, steps: seq<Step>, k: (string, string))
    requires Run(env, AnyStep(), Init(), steps) && k in After(env, steps).inbox
    ensures var s := After(env, steps);
            || k in s.succeeded
            || (k in s.filed && s.filed[k] < |s.deadletters| && s.deadletters[s.filed[k]].eventId == k.1)
  {
    ReachableIsSafe(env, steps);
    assert InboxEntryOk(After(env, steps), k);
  }

  /** No record of the broker, event or deadletter envelope, carries raw media at any depth of its payload. */
  lemma NoRawMediaOnTheBroker(env: Env, steps: seq<Step>, topic: string, partition: nat, offset: nat)
    requires Run(env, AnyStep(), Init(), steps)
    requires offset < |Contents(After(env, steps).log, topic, partition)|
    ensures Clean(Contents(After(env, steps).log, topic, partition)[offset].value)
  {
    ReachableIsSafe(env, steps);
  }

  /** The outbox covers the last committed snapshot at every moment. */
  lemma OutboxCoversSnapshot(env: Env, steps: seq<Step>)
    requires Run(env, AnyStep(), Init(), steps)
    ensures After(env, steps).snapshot <= After(env, steps).outbox.Keys
  {
    ReachableIsSafe(env, steps);
  }
}
