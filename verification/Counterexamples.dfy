/** Runs that show why the hypotheses of the other modules are needed. */
module Counterexamples {
  import opened Wrappers
  import opened EventBus
  import opened Tables
  import opened Pipeline

  ghost predicate Takes(env: Env, s: State, step: Step, s': State) {
    Enabled(env, s, step) && Apply(env, s, step) == s'
  }

  /** s' can be reached from the empty system by these steps. */
  ghost predicate Reaches(env: Env, steps: seq<Step>, s': State) {
    Run(env, AnyStep(), Init(), steps) && Exec(env, AnyStep(), Init(), steps) == s'
  }

  lemma {:induction false} RunThenStep(env: Env, s: State, steps: seq<Step>, step: Step, s': State)
    requires Run(env, AnyStep(), s, steps) && Takes(env, Exec(env, AnyStep(), s, steps), step, s')
    ensures Run(env, AnyStep(), s, steps + [step]) && Exec(env, AnyStep(), s, steps + [step]) == s'
    decreases |steps|
  {
    if steps == [] {
      assert steps + [step] == [step] && [step][1..] == [];
      assert Run(env, AnyStep(), s', []);
    } else {
      RunThenStep(env, Apply(env, s, steps[0]), steps[1..], step, s');
      assert (steps + [step])[1..] == steps[1..] + [step];
    }
  }

  lemma Next(env: Env, steps: seq<Step>, s: State, step: Step, s': State)
    requires Reaches(env, steps, s) && Takes(env, s, step, s')
    ensures Reaches(env, steps + [step], s')
  {
    RunThenStep(env, Init(), steps, step, s');
  }

  // ---------------------------------------------------------------------
  // One event, claimed by worker a at time 0 with a 30 second lease.

  ghost function Row(env: Env, event: CommonEvent): OutboxRow {
    FreshRow(env, event, "t", "k", 0)
  }

  ghost function Hold(env: Env, event: CommonEvent, until: Time): Publisher {
    Publisher([Claimed(event.eventId, "t", "k", Stored(env, event), 0, until)], Ready)
  }

  ghost function Held(env: Env, event: CommonEvent): State {
    Init().(outbox := map[event.eventId := ClaimRow(Row(env, event), "a", 30 * SECOND)],
            publishers := map["a" := Hold(env, event, 30 * SECOND)])
  }

  lemma ReachHeld(env: Env, event: CommonEvent) returns (steps: seq<Step>)
    ensures Reaches(env, steps, Held(env, event))
  {
    var enqueue, claim := Enqueue(event, "t", "k"), ByPublisher("a", ClaimBatch([event.eventId], 1, 30));
    var s1 := Init().(outbox := map[event.eventId := Row(env, event)]);
    assert Takes(env, Init(), enqueue, s1);
    var s2 := Apply(env, s1, claim);
    assert s2.outbox == Held(env, event).outbox;
    assert s2.publishers["a"].todo == Hold(env, event, 30 * SECOND).todo;
    assert s2.publishers == Held(env, event).publishers;
    Next(env, [], Init(), enqueue, s1);
    Next(env, [] + [enqueue], s1, claim, Held(env, event));
    steps := [] + [enqueue] + [claim];
  }

  // ---------------------------------------------------------------------
  // A deadletter insert that fails.

  /** Nothing but this one event, with n attempts behind it, and no worker has it. */
  predicate Waits(env: Env, event: CommonEvent, s: State, n: nat) {
    && s.outbox.Keys == {event.eventId} && Untouched(s)
    && (forall w :: w in s.publishers ==> s.publishers[w].todo == [])
    && var row := s.outbox[event.eventId];
       (row.status == Queued || row.status == Failed) && row.attemptCount == n && row.lockedUntil.None? &&
         row.payload == Stored(env, event)
  }

  /** Worker a alone has it, in the given phase. */
  predicate AtWorker(env: Env, event: CommonEvent, s: State, n: nat, phase: Phase) {
    && s.outbox.Keys == {event.eventId}
    && s.outbox[event.eventId].attemptCount == n && s.outbox[event.eventId].payload == Stored(env, event)
    && (forall w :: w in s.publishers && w != "a" ==> s.publishers[w].todo == [])
    && "a" in s.publishers && |s.publishers["a"].todo| == 1 && s.publishers["a"].phase == phase
    && var c := s.publishers["a"].todo[0];
       c.eventId == event.eventId && c.attemptCount == n && c.payload == Stored(env, event)
  }

  predicate HasIt(env: Env, event: CommonEvent, s: State, n: nat, phase: Phase) {
    AtWorker(env, event, s, n, phase) && Untouched(s)
  }

  predicate Untouched(s: State) {
    s.deadletters == [] && s.log == map[]
  }

  /** Deadlettered, with nothing on record anywhere and no worker that could still put it there. */
  predicate LostForGood(event: CommonEvent, s: State) {
    && event.eventId in s.outbox && s.outbox[event.eventId].status == Deadlettered
    && Untouched(s) && forall w :: w in s.publishers ==> s.publishers[w].todo == []
  }

  lemma TakeStep(env: Env, steps: seq<Step>, s: State, step: Step) returns (steps': seq<Step>, s': State)
    requires Reaches(env, steps, s) && Enabled(env, s, step)
    ensures Reaches(env, steps', s') && s' == Apply(env, s, step)
  {
    s' := Apply(env, s, step);
    Next(env, steps, s, step, s');
    steps' := steps + [step];
  }

  lemma WaitsItOut(env: Env, event: CommonEvent, steps: seq<Step>, s: State, n: nat)
    returns (steps': seq<Step>, s': State)
    requires Reaches(env, steps, s) && Waits(env, event, s, n)
    ensures Reaches(env, steps', s') && Waits(env, event, s', n) && Claimable(s'.outbox[event.eventId], s'.now)
  {
    var row := s.outbox[event.eventId];
    var wait := if row.nextAttemptAt > s.now then row.nextAttemptAt - s.now else 0;
    steps', s' := TakeStep(env, steps, s, Tick(wait));
    TickOnly(env, event, s, wait, n);
  }

  lemma TickOnly(env: Env, event: CommonEvent, s: State, wait: nat, n: nat)
    requires Waits(env, event, s, n)
    ensures var s' := Apply(env, s, Tick(wait));
            Waits(env, event, s', n) && s'.outbox == s.outbox && s'.now == s.now + wait
  {
  }

  lemma ClaimWorks(env: Env, event: CommonEvent, s: State, n: nat)
    requires Waits(env, event, s, n) && Claimable(s.outbox[event.eventId], s.now)
    ensures var claim := ByPublisher("a", ClaimBatch([event.eventId], 1, 30));
            Enabled(env, s, claim) && HasIt(env, event, Apply(env, s, claim), n, Ready)
  {
  }

  lemma ClaimIt(env: Env, event: CommonEvent, steps: seq<Step>, s: State, n: nat) returns (steps': seq<Step>, s': State)
    requires Reaches(env, steps, s) && Waits(env, event, s, n)
    ensures Reaches(env, steps', s') && HasIt(env, event, s', n, Ready)
  {
    steps', s' := WaitsItOut(env, event, steps, s, n);
    ClaimWorks(env, event, s', n);
    steps', s' := TakeStep(env, steps', s', ByPublisher("a", ClaimBatch([event.eventId], 1, 30)));
  }

  lemma SendTimesOut(env: Env, event: CommonEvent, steps: seq<Step>, s: State, n: nat)
    returns (steps': seq<Step>, s': State)
    requires Reaches(env, steps, s) && HasIt(env, event, s, n, Ready) && env.readsBack(event) && Encodes(env, event)
    ensures Reaches(env, steps', s') && HasIt(env, event, s', n, SendFailed("timeout"))
  {
    steps', s' := TakeStep(env, steps, s, ByPublisher("a", Send(NotSent("timeout"))));
  }

  lemma TriesAgain(env: Env, event: CommonEvent, steps: seq<Step>, s: State, n: nat)
    returns (steps': seq<Step>, s': State)
    requires Reaches(env, steps, s) && HasIt(env, event, s, n, SendFailed("timeout"))
    requires n + 1 < env.kafka.retryMaxAttempts <= MAX_I32
    ensures Reaches(env, steps', s') && Waits(env, event, s', n + 1)
  {
    steps', s' := TakeStep(env, steps, s, ByPublisher("a", ScheduleRetry(true)));
  }

  lemma FilingFails(env: Env, event: CommonEvent, steps: seq<Step>, s: State, n: nat)
    returns (steps': seq<Step>, s': State)
    requires Reaches(env, steps, s) && HasIt(env, event, s, n, SendFailed("timeout"))
    requires n + 1 >= env.kafka.retryMaxAttempts && n < MAX_I32
    ensures Reaches(env, steps', s') && HasIt(env, event, s', n, Filed("timeout"))
  {
    steps', s' := TakeStep(env, steps, s, ByPublisher("a", FileExhausted(false)));
  }

  lemma RelayFails(env: Env, event: CommonEvent, steps: seq<Step>, s: State, n: nat)
    returns (steps': seq<Step>, s': State)
    requires Reaches(env, steps, s) && HasIt(env, event, s, n, Filed("timeout"))
    ensures Reaches(env, steps', s') && HasIt(env, event, s', n, Relayed("timeout"))
  {
    steps', s' := TakeStep(env, steps, s, ByPublisher("a", RelayExhausted(NotSent("timeout"))));
  }

  lemma IsBuried(env: Env, event: CommonEvent, steps: seq<Step>, s: State, n: nat)
    returns (steps': seq<Step>, s': State)
    requires Reaches(env, steps, s) && HasIt(env, event, s, n, Relayed("timeout")) && n < MAX_I32
    ensures Reaches(env, steps', s') && LostForGood(event, s')
  {
    steps', s' := TakeStep(env, steps, s, ByPublisher("a", BuryExhausted(true)));
  }

  lemma IsRefused(env: Env, event: CommonEvent, steps: seq<Step>, s: State) returns (steps': seq<Step>, s': State)
    requires Reaches(env, steps, s) && HasIt(env, event, s, 0, Ready) && env.readsBack(event) && !Encodes(env, event)
    ensures Reaches(env, steps', s') && LostForGood(event, s')
  {
    steps', s' := TakeStep(env, steps, s, ByPublisher("a", RefuseEncode("refused", true)));
    steps', s' := TakeStep(env, steps', s', ByPublisher("a", FileRefused(false)));
  }

  /** The event after n failed sends. */
  lemma {:induction false} AfterFailures(env: Env, event: CommonEvent, n: nat) returns (steps: seq<Step>, s: State)
    requires n > 0 ==> env.readsBack(event) && Encodes(env, event) && n < env.kafka.retryMaxAttempts <= MAX_I32
    ensures Reaches(env, steps, s) && Waits(env, event, s, n)
    decreases n
  {
    if n == 0 {
      assert Reaches(env, [], Init());
      steps, s := TakeStep(env, [], Init(), Enqueue(event, "t", "k"));
    } else {
      steps, s := AfterFailures(env, event, n - 1);
      steps, s := ClaimIt(env, event, steps, s, n - 1);
      steps, s := SendTimesOut(env, event, steps, s, n - 1);
      steps, s := TriesAgain(env, event, steps, s, n - 1);
    }
  }

  /** The last send that the retry limit allows has failed. */
  lemma LastSendFails(env: Env, event: CommonEvent) returns (n: nat, steps: seq<Step>, s: State)
    requires env.readsBack(event) && Encodes(env, event) && env.kafka.retryMaxAttempts <= MAX_I32
    ensures n < MAX_I32 && n + 1 >= env.kafka.retryMaxAttempts
    ensures Reaches(env, steps, s) && HasIt(env, event, s, n, SendFailed("timeout"))
  {
    n := if env.kafka.retryMaxAttempts == 0 then 0 else env.kafka.retryMaxAttempts - 1;
    steps, s := AfterFailures(env, event, n);
    steps, s := ClaimIt(env, event, steps, s, n);
    steps, s := SendTimesOut(env, event, steps, s, n);
  }

  /** A deadletter insert that fails is only logged, and the row is deadlettered all the same: for any event that reads
      back and any retry limit that attempt_count can reach, the event can end up out of the backlog, never on the log,
      with no worker that still has it and no deadletter record to replay. A refused event does so at any limit. */
  lemma DeadletteredWithoutRecord(env: Env, event: CommonEvent) returns (steps: seq<Step>, s: State)
    requires env.readsBack(event) && (Encodes(env, event) ==> env.kafka.retryMaxAttempts <= MAX_I32)
    ensures Reaches(env, steps, s)
    ensures event.eventId in s.outbox && s.outbox[event.eventId].status == Deadlettered
    ensures s.deadletters == [] && s.log == map[] && forall w :: w in s.publishers ==> s.publishers[w].todo == []
  {
    if !Encodes(env, event) {
      steps, s := AfterFailures(env, event, 0);
      steps, s := ClaimIt(env, event, steps, s, 0);
      steps, s := IsRefused(env, event, steps, s);
    } else {
      var n;
      n, steps, s := LastSendFails(env, event);
      steps, s := FilingFails(env, event, steps, s, n);
      steps, s := RelayFails(env, event, steps, s, n);
      steps, s := IsBuried(env, event, steps, s, n);
    }
  }

  // ---------------------------------------------------------------------
  // A replay between the insert and the mark.

  /** The one deadletter row there is, replayed or not. */
  predicate OneRow(env: Env, event: CommonEvent, s: State, replayed: bool) {
    && |s.deadletters| == 1 && s.deadletters[0].eventId == event.eventId &&
       s.deadletters[0].payload == Stored(env, event)
    && (s.deadletters[0].replayedAt.Some? <==> replayed)
  }

  lemma FilingWorks(env: Env, event: CommonEvent, steps: seq<Step>, s: State, n: nat)
    returns (steps': seq<Step>, s': State)
    requires Reaches(env, steps, s) && HasIt(env, event, s, n, SendFailed("timeout")) && env.readsBack(event)
    requires n + 1 >= env.kafka.retryMaxAttempts && n < MAX_I32
    ensures Reaches(env, steps', s') && AtWorker(env, event, s', n, Filed("timeout")) && OneRow(env, event, s', false)
  {
    steps', s' := TakeStep(env, steps, s, ByPublisher("a", FileExhausted(true)));
  }

  lemma IsReplayed(env: Env, event: CommonEvent, steps: seq<Step>, s: State, n: nat)
    returns (steps': seq<Step>, s': State)
    requires Reaches(env, steps, s) && AtWorker(env, event, s, n, Filed("timeout")) && OneRow(env, event, s, false)
    requires env.readsBack(event)
    ensures Reaches(env, steps', s') && AtWorker(env, event, s', n, Filed("timeout")) && OneRow(env, event, s', true)
  {
    steps', s' := TakeStep(env, steps, s, Replay(0, "admin"));
  }

  lemma RelayFailsLate(env: Env, event: CommonEvent, steps: seq<Step>, s: State, n: nat)
    returns (steps': seq<Step>, s': State)
    requires Reaches(env, steps, s) && AtWorker(env, event, s, n, Filed("timeout")) && OneRow(env, event, s, true)
    ensures Reaches(env, steps', s') && AtWorker(env, event, s', n, Relayed("timeout")) && OneRow(env, event, s', true)
  {
    steps', s' := TakeStep(env, steps, s, ByPublisher("a", RelayExhausted(NotSent("timeout"))));
  }

  lemma IsBuriedLate(env: Env, event: CommonEvent, steps: seq<Step>, s: State, n: nat)
    returns (steps': seq<Step>, s': State)
    requires Reaches(env, steps, s) && AtWorker(env, event, s, n, Relayed("timeout")) && OneRow(env, event, s, true) &&
             n < MAX_I32
    ensures Reaches(env, steps', s') && OneRow(env, event, s', true)
    ensures event.eventId in s'.outbox && s'.outbox[event.eventId].status == Deadlettered
    ensures forall w :: w in s'.publishers ==> s'.publishers[w].todo == []
  {
    steps', s' := TakeStep(env, steps, s, ByPublisher("a", BuryExhausted(true)));
  }

  /** The insert succeeds, and so does every other statement; an operator replays the record while the worker is waiting
      for the deadletter topic; then the worker marks the event. It ends deadlettered, its only record can never be
      replayed again, and no worker has it. */
  lemma ReplayInBetweenLosesRecord(env: Env, event: CommonEvent) returns (steps: seq<Step>, s: State)
    requires env.readsBack(event) && Encodes(env, event) && env.kafka.retryMaxAttempts <= MAX_I32
    ensures Reaches(env, steps, s)
    ensures event.eventId in s.outbox && s.outbox[event.eventId].status == Deadlettered
    ensures s.deadletters != [] && forall d :: 0 <= d < |s.deadletters| ==> s.deadletters[d].replayedAt.Some?
    ensures forall w :: w in s.publishers ==> s.publishers[w].todo == []
  {
    var n;
    n, steps, s := LastSendFails(env, event);
    steps, s := FilingWorks(env, event, steps, s, n);
    steps, s := IsReplayed(env, event, steps, s, n);
    steps, s := RelayFailsLate(env, event, steps, s, n);
    steps, s := IsBuriedLate(env, event, steps, s, n);
  }

  // ---------------------------------------------------------------------
  // A mark that comes after its lease.

  /** 31 seconds later worker b holds the event too. */
  ghost function HeldTwice(env: Env, event: CommonEvent): State {
    Held(env, event).(now := 31 * SECOND,
                      outbox := map[event.eventId := ClaimRow(Row(env, event), "b", 61 * SECOND)],
                      publishers := map["a" := Hold(env, event, 30 * SECOND), "b" := Hold(env, event, 61 * SECOND)])
  }

  lemma HeldTwiceFromHeld(env: Env, event: CommonEvent)
    ensures var late := Held(env, event).(now := 31 * SECOND);
            && Takes(env, Held(env, event), Tick(31 * SECOND), late)
            && Takes(env, late, ByPublisher("b", ClaimBatch([event.eventId], 1, 30)), HeldTwice(env, event))
  {
    var late := Held(env, event).(now := 31 * SECOND);
    var s := Apply(env, late, ByPublisher("b", ClaimBatch([event.eventId], 1, 30)));
    assert s.outbox == HeldTwice(env, event).outbox;
    assert s.publishers["b"].todo == Hold(env, event, 61 * SECOND).todo;
    assert s.publishers == HeldTwice(env, event).publishers;
  }

  ghost function OnLog(env: Env, event: CommonEvent): Log {
    map[("t", 0) := [Record("k", EventValue(event))]]
  }

  ghost function SentByB(env: Env, event: CommonEvent): State {
    HeldTwice(env, event).(log := OnLog(env, event), sends := multiset{event.eventId},
                           publishers := map["a" := Hold(env, event, 30 * SECOND),
                                             "b" := Hold(env, event, 61 * SECOND).(phase := Acked(Position(0, 0)))])
  }

  ghost function MarkedByB(env: Env, event: CommonEvent): State {
    var outbox := MarkPublished(HeldTwice(env, event).outbox, event.eventId, Position(0, 0), 31 * SECOND);
    SentByB(env, event).(outbox := outbox,
                         publishers := map["a" := Hold(env, event, 30 * SECOND), "b" := Publisher([], Ready)])
  }

  ghost function FailedByA(env: Env, event: CommonEvent): State {
    MarkedByB(env, event).(sends := multiset{event.eventId, event.eventId},
                           publishers := map["a" := Hold(env, event, 30 * SECOND).(phase := SendFailed("timeout")),
                                             "b" := Publisher([], Ready)])
  }

  ghost function MarkedByA(env: Env, event: CommonEvent): State {
    var outbox := MarkFailed(MarkedByB(env, event).outbox, event.eventId, "timeout", Backoff(1), 31 * SECOND);
    FailedByA(env, event).(outbox := outbox,
                           publishers := map["a" := Publisher([], Ready), "b" := Publisher([], Ready)])
  }

  lemma BSends(env: Env, event: CommonEvent)
    requires env.readsBack(event) && Encodes(env, event)
    ensures Takes(env, HeldTwice(env, event), ByPublisher("b", Send(Delivered(0))), SentByB(env, event))
  {
    var s := Apply(env, HeldTwice(env, event), ByPublisher("b", Send(Delivered(0))));
    assert s.publishers == SentByB(env, event).publishers;
    assert Contents(s.log, "t", 0) == [Record("k", EventValue(event))];
    assert s.log == SentByB(env, event).log;
  }

  lemma BMarks(env: Env, event: CommonEvent)
    ensures Takes(env, SentByB(env, event), ByPublisher("b", ConfirmPublished(true)), MarkedByB(env, event))
  {
    var s := Apply(env, SentByB(env, event), ByPublisher("b", ConfirmPublished(true)));
    assert s.publishers["b"] == Publisher([], Ready);
    assert s.publishers == MarkedByB(env, event).publishers;
    assert s.outbox == MarkedByB(env, event).outbox;
  }

  lemma ASends(env: Env, event: CommonEvent)
    requires env.readsBack(event) && Encodes(env, event)
    ensures Takes(env, MarkedByB(env, event), ByPublisher("a", Send(NotSent("timeout"))), FailedByA(env, event))
  {
    var s := Apply(env, MarkedByB(env, event), ByPublisher("a", Send(NotSent("timeout"))));
    assert s.publishers == FailedByA(env, event).publishers;
  }

  lemma AMarks(env: Env, event: CommonEvent)
    requires env.kafka.retryMaxAttempts >= 2
    ensures Takes(env, FailedByA(env, event), ByPublisher("a", ScheduleRetry(true)), MarkedByA(env, event))
  {
    var s := Apply(env, FailedByA(env, event), ByPublisher("a", ScheduleRetry(true)));
    assert s.publishers["a"] == Publisher([], Ready);
    assert s.publishers == MarkedByA(env, event).publishers;
    assert s.outbox == MarkedByA(env, event).outbox;
  }

  lemma ReachPublished(env: Env, event: CommonEvent) returns (steps: seq<Step>)
    requires env.readsBack(event) && Encodes(env, event)
    ensures Reaches(env, steps, MarkedByB(env, event))
  {
    steps := ReachHeld(env, event);
    var late := Held(env, event).(now := 31 * SECOND);
    HeldTwiceFromHeld(env, event);
    Next(env, steps, Held(env, event), Tick(31 * SECOND), late);
    steps := steps + [Tick(31 * SECOND)];
    Next(env, steps, late, ByPublisher("b", ClaimBatch([event.eventId], 1, 30)), HeldTwice(env, event));
    steps := steps + [ByPublisher("b", ClaimBatch([event.eventId], 1, 30))];
    BSends(env, event);
    BMarks(env, event);
    Next(env, steps, HeldTwice(env, event), ByPublisher("b", Send(Delivered(0))), SentByB(env, event));
    steps := steps + [ByPublisher("b", Send(Delivered(0)))];
    Next(env, steps, SentByB(env, event), ByPublisher("b", ConfirmPublished(true)), MarkedByB(env, event));
    steps := steps + [ByPublisher("b", ConfirmPublished(true))];
  }

  /** Marks are not guarded by the lease: a worker whose lease has ended takes an event that another worker has
      published back to failed. */
  lemma PublishedIsNotTerminal(env: Env, event: CommonEvent)
    returns (before: seq<Step>, after: seq<Step>, published: State, failed: State)
    requires env.readsBack(event) && Encodes(env, event) && env.kafka.retryMaxAttempts >= 2
    ensures Reaches(env, before, published) && Reaches(env, after, failed) && before < after
    ensures event.eventId in published.outbox && published.outbox[event.eventId].status == Published
    ensures event.eventId in failed.outbox && failed.outbox[event.eventId].status == Failed
  {
    before := ReachPublished(env, event);
    published := MarkedByB(env, event);
    ASends(env, event);
    AMarks(env, event);
    Next(env, before, published, ByPublisher("a", Send(NotSent("timeout"))), FailedByA(env, event));
    after := before + [ByPublisher("a", Send(NotSent("timeout")))];
    Next(env, after, FailedByA(env, event), ByPublisher("a", ScheduleRetry(true)), MarkedByA(env, event));
    after, failed := after + [ByPublisher("a", ScheduleRetry(true))], MarkedByA(env, event);
  }
}
