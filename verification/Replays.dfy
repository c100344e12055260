/** Deadletter replay, and when a deadlettered event can be replayed at all. */
module Replays {
  import opened Wrappers
  import opened EventBus
  import opened Tables
  import opened Pipeline
  import opened Safety
  import opened Publishing

  // ---------------------------------------------------------------------
  // At most once.

  function ReplayCount(steps: seq<Step>, d: nat): nat {
    if steps == [] then 0
    else (if steps[0].Replay? && steps[0].deadletter == d then 1 else 0) + ReplayCount(steps[1..], d)
  }

  predicate Stamped(s: State, d: nat) {
    d < |s.deadletters| && s.deadletters[d].replayedAt.Some?
  }

  lemma StampStays(env: Env, s: State, step: Step, d: nat)
    requires Enabled(env, s, step) && Stamped(s, d)
    ensures Stamped(Apply(env, s, step), d)
  {
  }

  /** In any interleaving each deadletter row is replayed at most once, and never once it is stamped. */
  lemma {:induction false} ReplayedAtMostOnce(env: Env, rule: (State, Step) -> bool, s: State, steps: seq<Step>, d: nat)
    requires Run(env, rule, s, steps)
    ensures ReplayCount(steps, d) <= if Stamped(s, d) then 0 else 1
    decreases |steps|
  {
    if steps != [] {
      var s1 := Apply(env, s, steps[0]);
      ReplayedAtMostOnce(env, rule, s1, steps[1..], d);
      if Stamped(s, d) {
        StampStays(env, s, steps[0], d);
      }
    }
  }

  // ---------------------------------------------------------------------
  // What a replay gives.

  /** A replay makes its event claimable at that very moment, whatever the row was, and keeps its attempt count. */
  lemma ReplayMakesClaimable(env: Env, s: State, d: nat, who: string)
    requires Enabled(env, s, Replay(d, who))
    ensures var s' := Apply(env, s, Replay(d, who));
            var id := s.deadletters[d].payload.event.eventId;
            && id in s'.outbox && Claimable(s'.outbox[id], s'.now) && s'.outbox[id].payload.Readable?
            && s'.outbox[id].attemptCount == (if id in s.outbox then s.outbox[id].attemptCount else 0)
            && s'.outbox.Keys == s.outbox.Keys + {id}
            && forall k :: k in s.outbox && k != id ==> s'.outbox[k] == s.outbox[k]
  {
  }

  /** The count is not reset: an event replayed after its retries ran out gets one try. Whatever call of it comes next,
      if its send does not succeed and its mark lands the event is deadlettered again. */
  lemma ReplayGivesOneTry(env: Env, s: State, d: nat, who: string, worker: string, until: Time, log: Log,
                          io: PublishIo, at: Time)
    requires Enabled(env, s, Replay(d, who))
    requires var id := s.deadletters[d].payload.event.eventId;
             id in s.outbox && env.kafka.retryMaxAttempts <= s.outbox[id].attemptCount <= MAX_I32
    ensures var s' := Apply(env, s, Replay(d, who));
            var id := s.deadletters[d].payload.event.eventId;
            && id in s'.outbox && Claimable(s'.outbox[id], s'.now)
            && var c := Returned(s'.outbox, id, until);
               var rows := Claim(s'.outbox, [id], worker, until);
               && Exhausted(env, c)
               && (!io.send.Delivered? && MarkLands(rows, c, io) ==>
                     id in rows && OutboxAfterCall(env, rows, log, c, io, at)[id].status == Deadlettered)
  {
  }

  // ---------------------------------------------------------------------
  // Replay needs a record that was not replayed yet. The exhausted branch inserts the deadletter before it marks the
  // row, and sends to the deadletter topic in between; the encode branch marks first; and a failing insert is only
  // logged in both.

  /** When a call deadletters an event without a record: its mark lands, its insert does not, and the payload decodes
      but is refused by the encoder or fails its last send. */
  lemma CallLosesRecordExactly(env: Env, rows: Outbox, deadletters: Deadletters, log: Log, c: Claimed, io: PublishIo,
                               now: Time)
    requires c.eventId in rows && rows[c.eventId].status != Deadlettered
    ensures var rows' := OutboxAfterCall(env, rows, log, c, io, now);
            c.eventId in rows' &&
            (rows'[c.eventId].status == Deadlettered &&
             DeadlettersAfterCall(env, deadletters, c, io) == deadletters <==>
             && MarkLands(rows, c, io) && !io.fileOk && c.payload.Readable?
             && (!Encodes(env, c.payload.event) || (!io.send.Delivered? && Exhausted(env, c))))
  {
  }

  // What is stored of an event reads back exactly when the event does, so what decodes once can be replayed.

  predicate Honest(env: Env, payload: Payload) {
    payload == Stored(env, payload.event)
  }

  predicate RowsHonest(env: Env, rows: Outbox) {
    forall id :: id in rows ==> Honest(env, rows[id].payload)
  }

  ghost predicate AllHonest(env: Env, s: State) {
    && RowsHonest(env, s.outbox)
    && (forall w, i :: w in s.publishers && 0 <= i < |s.publishers[w].todo| ==>
        Honest(env, s.publishers[w].todo[i].payload))
    && (forall i :: 0 <= i < |s.deadletters| ==> Honest(env, s.deadletters[i].payload))
  }

  lemma {:induction false} PersistStaysHonest(env: Env, rows: Outbox, events: seq<CommonEvent>, now: Time)
    requires RowsHonest(env, rows)
    ensures RowsHonest(env, Persist(env, rows, events, now))
  {
    if events != [] {
      var event, before := events[|events| - 1], Persist(env, rows, events[..|events| - 1], now);
      PersistStaysHonest(env, rows, events[..|events| - 1], now);
      assert Persist(env, rows, events, now) == InsertIfAbsent(env, before, event, now);
    }
  }

  lemma PublisherStaysHonest(env: Env, s: State, w: string, act: PublisherAct)
    requires AllHonest(env, s) && PublisherEnabled(env, s, w, act)
    ensures AllHonest(env, ApplyPublisher(env, s, w, act))
  {
    var s' := ApplyPublisher(env, s, w, act);
    forall x, i | x in s'.publishers && 0 <= i < |s'.publishers[x].todo|
      ensures Honest(env, s'.publishers[x].todo[i].payload)
    {
      if x == w && act.ClaimBatch? {
        assert act.ids[i] in act.ids;
      }
    }
  }

  lemma StepStaysHonest(env: Env, s: State, step: Step)
    requires AllHonest(env, s) && Enabled(env, s, step)
    ensures AllHonest(env, Apply(env, s, step))
  {
    if step.ByPublisher? {
      PublisherStaysHonest(env, s, step.worker, step.act);
    } else {
      OthersStayHonest(env, s, step);
    }
  }

  lemma OthersStayHonest(env: Env, s: State, step: Step)
    requires AllHonest(env, s) && Enabled(env, s, step) && !step.ByPublisher?
    ensures AllHonest(env, Apply(env, s, step))
  {
    assert Apply(env, s, step).publishers == s.publishers;
    if step.PersistSnapshot? {
      PersistStaysHonest(env, s.outbox, step.events, s.now);
    }
  }

  // ---------------------------------------------------------------------
  // The record of one event.

  /** Some deadletter row of the event can be replayed. */
  predicate OnRecord(rows: Deadletters, id: string) {
    exists i :: 0 <= i < |rows| && Replayable(rows, i) && rows[i].eventId == id
  }

  /** Some worker has marked the row and is about to insert its deadletter. */
  ghost predicate Pending(s: State, id: string) {
    exists w :: PendingAt(s, w, id)
  }

  predicate PendingAt(s: State, w: string, id: string) {
    Busy(s, w) && s.publishers[w].phase.Refused? && Head(s, w).eventId == id
  }

  /** The worker has inserted the deadletter, or tried to, and is about to mark the row. */
  predicate FiledAt(s: State, w: string, id: string) {
    Busy(s, w) && (s.publishers[w].phase.Filed? || s.publishers[w].phase.Relayed?) && Head(s, w).eventId == id
  }

  /** The event can be replayed once it is deadlettered: it is on record, or its insert is what some worker does next;
      and where a worker is about to deadletter it, it is on record already. */
  ghost predicate RecordKept(s: State, id: string) {
    && (id in s.outbox && s.outbox[id].status == Deadlettered ==> OnRecord(s.deadletters, id) || Pending(s, id))
    && (forall w :: FiledAt(s, w, id) ==> OnRecord(s.deadletters, id))
  }

  /** The steps that lose the record: an insert before the mark that fails when there is no other record; the insert
      after the mark that fails, or is never reached, when nothing else is on record or pending; and a replay, between
      insert and mark, of the only record. */
  ghost predicate LosesRecord(s: State, step: Step, id: string) {
    match step
    case ByPublisher(w, act) =>
      && Busy(s, w) && Head(s, w).eventId == id && !OnRecord(s.deadletters, id)
      && (|| (act.FileExhausted? && !act.dbOk)
          || (&& PendingAt(s, w, id) && ((act.FileRefused? && !act.dbOk) || act.CrashPublisher?)
              && id in s.outbox && s.outbox[id].status == Deadlettered && forall x :: PendingAt(s, x, id) ==> x == w))
    case Replay(d, who) =>
      && d < |s.deadletters| && (exists w :: FiledAt(s, w, id))
      && !OnRecord(StampReplayed(s.deadletters, d, who, s.now), id)
    case _ => false
  }

  lemma RecordStays(rows: Deadletters, rows': Deadletters, id: string)
    requires |rows| <= |rows'| && (forall i :: 0 <= i < |rows| ==> rows'[i] == rows[i]) && OnRecord(rows, id)
    ensures OnRecord(rows', id)
  {
    var i :| 0 <= i < |rows| && Replayable(rows, i) && rows[i].eventId == id;
    assert Replayable(rows', i);
  }

  lemma OthersStayPut(env: Env, s: State, w: string, act: PublisherAct, x: string)
    requires PublisherEnabled(env, s, w, act) && x != w
    ensures var s' := ApplyPublisher(env, s, w, act);
            (x in s'.publishers <==> x in s.publishers) && (x in s.publishers ==> s'.publishers[x] == s.publishers[x])
  {
  }

  /** An insert of the event that reaches the table puts it on record, and one that does not changes nothing. */
  lemma FilingRecords(env: Env, s: State, w: string, act: PublisherAct)
    requires Safe(env, s) && AllHonest(env, s) && PublisherEnabled(env, s, w, act) &&
             (act.FileRefused? || act.FileExhausted?)
    ensures act.dbOk ==> OnRecord(DeadlettersAfter(env, s, w, act), Head(s, w).eventId)
    ensures !act.dbOk ==> DeadlettersAfter(env, s, w, act) == s.deadletters
  {
    assert PublisherOk(env, s.publishers[w], s.outbox, s.log);
    assert ClaimedOk(s.publishers[w].todo[0], s.outbox);
    var rows := DeadlettersAfter(env, s, w, act);
    if act.dbOk {
      assert Honest(env, s.publishers[w].todo[0].payload);
      assert Replayable(rows, |s.deadletters|) && rows[|s.deadletters|].eventId == Head(s, w).eventId;
    }
  }

  /** No publisher step takes a record away. */
  lemma PublisherKeepsRows(env: Env, s: State, w: string, act: PublisherAct, id: string)
    requires PublisherEnabled(env, s, w, act) && OnRecord(s.deadletters, id)
    ensures OnRecord(DeadlettersAfter(env, s, w, act), id)
  {
    RecordStays(s.deadletters, DeadlettersAfter(env, s, w, act), id);
  }

  /** Which workers are about to insert, or to mark, after a publisher step. */
  lemma PhasesAfter(env: Env, s: State, w: string, act: PublisherAct, id: string, x: string)
    requires PublisherEnabled(env, s, w, act)
    ensures var s' := ApplyPublisher(env, s, w, act);
            && (x != w ==> (PendingAt(s', x, id) <==> PendingAt(s, x, id)))
            && (x != w ==> (FiledAt(s', x, id) <==> FiledAt(s, x, id)))
            && (x == w ==> (PendingAt(s', x, id) <==> act.RefuseEncode? && Head(s, w).eventId == id))
            && (x == w ==> (FiledAt(s', x, id) <==>
                            (act.FileExhausted? || act.RelayExhausted?) && Head(s, w).eventId == id))
    ensures act.FileRefused? ==> PendingAt(s, w, Head(s, w).eventId)
    ensures act.RelayExhausted? || act.BuryExhausted? ==> FiledAt(s, w, Head(s, w).eventId)
    ensures PendingAt(s, w, id) ==> act.FileRefused? || act.CrashPublisher?
  {
    if x != w {
      OthersStayPut(env, s, w, act, x);
    }
  }

  /** Which publisher steps deadletter the event. */
  lemma DeadletteredAfter(env: Env, s: State, w: string, act: PublisherAct, id: string)
    requires PublisherEnabled(env, s, w, act)
    ensures var rows := OutboxAfter(env, s, w, act);
            && (id in rows && rows[id].status == Deadlettered ==>
                  || (id in s.outbox && s.outbox[id].status == Deadlettered)
                  || ((act.RefuseEncode? || act.BuryExhausted?) && Head(s, w).eventId == id))
            && (act.FileRefused? || act.FileExhausted? || act.CrashPublisher? ==> rows == s.outbox)
  {
  }

  lemma PublisherKeepsRecord(env: Env, s: State, w: string, act: PublisherAct, id: string)
    requires Safe(env, s) && AllHonest(env, s) && RecordKept(s, id)
    requires PublisherEnabled(env, s, w, act) && !LosesRecord(s, ByPublisher(w, act), id)
    ensures RecordKept(ApplyPublisher(env, s, w, act), id)
  {
    var s' := ApplyPublisher(env, s, w, act);
    PhasesAfter(env, s, w, act, id, w);
    DeadletteredAfter(env, s, w, act, id);
    if act.FileRefused? || act.FileExhausted? {
      FilingRecords(env, s, w, act);
    }
    if OnRecord(s.deadletters, id) {
      PublisherKeepsRows(env, s, w, act, id);
    } else if !OnRecord(s'.deadletters, id) {
      forall x | FiledAt(s', x, id) ensures false {
        PhasesAfter(env, s, w, act, id, x);
      }
      if id in s'.outbox && s'.outbox[id].status == Deadlettered {
        StaysPending(env, s, w, act, id);
      }
    }
  }

  /** Without a record, a deadlettered event stays pending through every step that does not lose it. */
  lemma StaysPending(env: Env, s: State, w: string, act: PublisherAct, id: string)
    requires RecordKept(s, id) && PublisherEnabled(env, s, w, act) && !LosesRecord(s, ByPublisher(w, act), id)
    requires !OnRecord(s.deadletters, id) && !OnRecord(DeadlettersAfter(env, s, w, act), id)
    requires Safe(env, s) && AllHonest(env, s)
    requires var rows := OutboxAfter(env, s, w, act); id in rows && rows[id].status == Deadlettered
    ensures Pending(ApplyPublisher(env, s, w, act), id)
  {
    var s' := ApplyPublisher(env, s, w, act);
    PhasesAfter(env, s, w, act, id, w);
    DeadletteredAfter(env, s, w, act, id);
    if act.RefuseEncode? && Head(s, w).eventId == id {
      assert PendingAt(s', w, id);
    } else {
      var x :| PendingAt(s, x, id) && (x != w || !(exists y :: y != w && PendingAt(s, y, id)));
      if x == w && act.FileRefused? {
        FilingRecords(env, s, w, act);
      }
      PhasesAfter(env, s, w, act, id, x);
      assert PendingAt(s', x, id);
    }
  }

  /** Nothing but a publisher deadletters an event. */
  lemma OutsideDeadlettersNone(env: Env, s: State, step: Step, id: string)
    requires Enabled(env, s, step) && !step.ByPublisher?
    ensures var s' := Apply(env, s, step);
            && s'.publishers == s.publishers
            && (id in s'.outbox && s'.outbox[id].status == Deadlettered ==>
                id in s.outbox && s.outbox[id].status == Deadlettered)
  {
    if step.PersistSnapshot? {
      NewRowsAreQueued(env, s.outbox, step.events, s.now);
    }
  }

  /** Outside the publishers only a replay touches deadletter rows that are there. */
  lemma OutsideRows(env: Env, s: State, step: Step, id: string)
    requires Enabled(env, s, step) && !step.ByPublisher? && !step.Replay? && OnRecord(s.deadletters, id)
    ensures OnRecord(Apply(env, s, step).deadletters, id)
  {
    RecordStays(s.deadletters, Apply(env, s, step).deadletters, id);
  }

  /** A replay of another event leaves the record; one of this event takes it out of the deadlettered status. */
  lemma ReplayRows(env: Env, s: State, d: nat, who: string, id: string)
    requires Safe(env, s) && Enabled(env, s, Replay(d, who))
    ensures var s' := Apply(env, s, Replay(d, who));
            && s'.deadletters == StampReplayed(s.deadletters, d, who, s.now)
            && (s.deadletters[d].payload.event.eventId != id && OnRecord(s.deadletters, id) ==>
                OnRecord(s'.deadletters, id))
            && (s.deadletters[d].payload.event.eventId == id ==> id in s'.outbox && s'.outbox[id].status == Queued)
  {
    var s' := Apply(env, s, Replay(d, who));
    if s.deadletters[d].payload.event.eventId != id && OnRecord(s.deadletters, id) {
      var i :| 0 <= i < |s.deadletters| && Replayable(s.deadletters, i) && s.deadletters[i].eventId == id;
      assert i != d && Replayable(s'.deadletters, i);
    }
  }

  lemma OutsideKeepsRecord(env: Env, s: State, step: Step, id: string)
    requires Safe(env, s) && RecordKept(s, id) && Enabled(env, s, step) && !step.ByPublisher? &&
             !LosesRecord(s, step, id)
    ensures RecordKept(Apply(env, s, step), id)
  {
    var s' := Apply(env, s, step);
    OutsideDeadlettersNone(env, s, step, id);
    if step.Replay? {
      ReplayRows(env, s, step.deadletter, step.who, id);
    } else if OnRecord(s.deadletters, id) {
      OutsideRows(env, s, step, id);
    }
    SamePhases(s, s', id);
  }

  lemma SamePhases(s: State, s': State, id: string)
    requires s'.publishers == s.publishers
    ensures (Pending(s, id) ==> Pending(s', id)) && forall x :: FiledAt(s', x, id) ==> FiledAt(s, x, id)
  {
    if x :| PendingAt(s, x, id) {
      assert PendingAt(s', x, id);
    }
  }

  lemma LosingPublisher(env: Env, s: State, w: string, act: PublisherAct, id: string)
    requires Safe(env, s) && AllHonest(env, s) && PublisherEnabled(env, s, w, act) &&
             LosesRecord(s, ByPublisher(w, act), id)
    ensures !RecordKept(ApplyPublisher(env, s, w, act), id)
  {
    var s' := ApplyPublisher(env, s, w, act);
    PhasesAfter(env, s, w, act, id, w);
    DeadletteredAfter(env, s, w, act, id);
    assert s'.deadletters == s.deadletters;
    if act.FileExhausted? {
      assert FiledAt(s', w, id);
    } else {
      forall x ensures !PendingAt(s', x, id) {
        PhasesAfter(env, s, w, act, id, x);
      }
    }
  }

  /** The record of an event ends, from any state that keeps it, by exactly these steps. */
  lemma RecordEndsExactly(env: Env, s: State, step: Step, id: string)
    requires Safe(env, s) && AllHonest(env, s) && RecordKept(s, id) && Enabled(env, s, step)
    ensures !RecordKept(Apply(env, s, step), id) <==> LosesRecord(s, step, id)
  {
    var s' := Apply(env, s, step);
    if !LosesRecord(s, step, id) {
      if step.ByPublisher? {
        PublisherKeepsRecord(env, s, step.worker, step.act, id);
      } else {
        OutsideKeepsRecord(env, s, step, id);
      }
    } else if step.ByPublisher? {
      LosingPublisher(env, s, step.worker, step.act, id);
    } else {
      var w :| FiledAt(s, w, id);
      assert FiledAt(s', w, id);
    }
  }

  lemma {:induction false} NewRowsAreQueued(env: Env, rows: Outbox, events: seq<CommonEvent>, now: Time)
    ensures var r := Persist(env, rows, events, now);
            forall id :: id in r ==> (id in rows && r[id] == rows[id]) || r[id].status == Queued
  {
    if events != [] {
      NewRowsAreQueued(env, rows, events[..|events| - 1], now);
    }
  }

  ghost function Recording(id: string): (State, Step) -> bool {
    (s: State, step: Step) => !LosesRecord(s, step, id)
  }

  /** In every run without a step that loses the event's record, the event, once deadlettered, has a deadletter row that
      can be replayed, or its insert is the next thing some worker does. */
  lemma DeadletteredIsOnRecord(env: Env, steps: seq<Step>, id: string)
    requires Run(env, Recording(id), Init(), steps)
    requires var s := Exec(env, Recording(id), Init(), steps); id in s.outbox && s.outbox[id].status == Deadlettered
    ensures var s := Exec(env, Recording(id), Init(), steps); OnRecord(s.deadletters, id) || Pending(s, id)
  {
    var inv := (x: State) => Safe(env, x) && AllHonest(env, x) && RecordKept(x, id);
    forall x: State, step: Step {:trigger Apply(env, x, step)} | inv(x) && Enabled(env, x, step) &&
      Recording(id)(x, step)
      ensures inv(Apply(env, x, step))
    {
      StepKeeps(env, x, step);
      StepStaysHonest(env, x, step);
      RecordEndsExactly(env, x, step, id);
    }
    InitIsSafe(env);
    Invariance(env, Recording(id), inv, Init(), steps);
  }
}
