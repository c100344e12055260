/** Bounded retries: how often an event is sent and how long it waits. Every send is accounted for in every run; the
    bound holds in runs in which this one event is not marked late, replayed or revived, whatever happens to others. */
module Retries {
  import opened Wrappers
  import opened EventBus
  import opened Tables
  import opened Pipeline
  import opened Safety
  import opened Leases

  // ---------------------------------------------------------------------
  // The backoff itself.

  lemma BackoffBounds(k: nat, l: nat)
    requires 1 <= k <= l
    ensures 10 <= Backoff(k) <= Backoff(l) <= 320
  {
    assert Pow2(1) == 2 && Pow2(2) == 4 && Pow2(3) == 8 && Pow2(4) == 16;
    assert Pow2(5) == 32 && Pow2(6) == 64;
  }

  /** The seconds waited after the first n failures. */
  function TotalBackoff(n: nat): nat {
    if n == 0 then 0 else TotalBackoff(n - 1) + Backoff(n)
  }

  lemma {:induction false} TotalBackoffClosedForm(n: nat)
    ensures TotalBackoff(n) == if n <= 6 then 10 * (Pow2(n) - 1) else 630 + 320 * (n - 6)
  {
    assert Pow2(0) == 1 && Pow2(1) == 2 && Pow2(2) == 4 && Pow2(3) == 8;
    assert Pow2(4) == 16 && Pow2(5) == 32 && Pow2(6) == 64;
    if n > 0 {
      TotalBackoffClosedForm(n - 1);
    }
  }

  // ---------------------------------------------------------------------
  // Every send is accounted for.

  /** The workers that have sent the event and not marked the outcome yet. */
  function InFlight(s: State, id: string): set<string> {
    set w | w in s.publishers && HasSent(s, w) && Head(s, w).eventId == id
  }

  function Attempts(rows: Outbox, id: string): nat {
    if id in rows then rows[id].attemptCount else 0
  }

  predicate Accounted(s: State, id: string) {
    s.sends[id] <= Attempts(s.outbox, id) + s.lost[id] + |InFlight(s, id)|
  }

  /** How a publisher step changes who has the event in flight. */
  lemma InFlightAfter(env: Env, s: State, w: string, act: PublisherAct, id: string)
    requires PublisherEnabled(env, s, w, act)
    ensures var s' := ApplyPublisher(env, s, w, act);
            InFlight(s', id) == if act.Send? && Head(s, w).eventId == id then InFlight(s, id) + {w}
                                else if act.FileExhausted? || act.RelayExhausted? then InFlight(s, id)
                                else InFlight(s, id) - {w}
    ensures act.Send? ==> w !in InFlight(s, id)
  {
    var s' := ApplyPublisher(env, s, w, act);
    forall x | x != w ensures x in InFlight(s', id) <==> x in InFlight(s, id) {
    }
  }

  /** No step of the system lowers an event's attempt count, and a mark that lands raises it. */
  lemma AttemptsGrow(env: Env, s: State, step: Step, id: string)
    requires Enabled(env, s, step)
    ensures var s' := Apply(env, s, step);
            Attempts(s.outbox, id) <= Attempts(s'.outbox, id)
  {
    if step.ByPublisher? {
      PublisherAttemptsGrow(env, s, step.worker, step.act, id);
    } else if step.PersistSnapshot? {
      PersistAddsMissing(env, s.outbox, step.events, s.now);
    }
  }

  lemma PublisherAttemptsGrow(env: Env, s: State, w: string, act: PublisherAct, id: string)
    requires PublisherEnabled(env, s, w, act)
    ensures Attempts(s.outbox, id) <= Attempts(OutboxAfter(env, s, w, act), id)
  {
  }

  lemma MarkRaisesAttempts(env: Env, s: State, w: string, act: PublisherAct)
    requires PublisherEnabled(env, s, w, act) && IsMark(act) && act.dbOk && Head(s, w).eventId in s.outbox
    ensures Attempts(OutboxAfter(env, s, w, act), Head(s, w).eventId) == Attempts(s.outbox, Head(s, w).eventId) + 1
  {
  }

  /** A step that ends a worker's flight counts an attempt or a loss. */
  lemma FlightEnds(env: Env, s: State, w: string, act: PublisherAct)
    requires Safe(env, s) && PublisherEnabled(env, s, w, act) && HasSent(s, w) && !act.FileExhausted? &&
             !act.RelayExhausted?
    ensures var id := Head(s, w).eventId;
            var s' := ApplyPublisher(env, s, w, act);
            Attempts(s'.outbox, id) + s'.lost[id] == Attempts(s.outbox, id) + s.lost[id] + 1
  {
    assert PublisherOk(env, s.publishers[w], s.outbox, s.log);
    assert ClaimedOk(s.publishers[w].todo[0], s.outbox);
    if IsMark(act) && act.dbOk {
      MarkRaisesAttempts(env, s, w, act);
    }
  }

  lemma CountsAfter(env: Env, s: State, w: string, act: PublisherAct, id: string)
    requires PublisherEnabled(env, s, w, act)
    ensures var s' := ApplyPublisher(env, s, w, act);
            && s'.sends[id] == s.sends[id] + (if act.Send? && Head(s, w).eventId == id then 1 else 0)
            && s.lost[id] <= s'.lost[id]
  {
  }

  lemma PublisherAccounts(env: Env, s: State, w: string, act: PublisherAct, id: string)
    requires Safe(env, s) && Accounted(s, id) && PublisherEnabled(env, s, w, act)
    ensures Accounted(ApplyPublisher(env, s, w, act), id)
  {
    InFlightAfter(env, s, w, act, id);
    PublisherAttemptsGrow(env, s, w, act, id);
    CountsAfter(env, s, w, act, id);
    if w in InFlight(s, id) && !act.FileExhausted? && !act.RelayExhausted? {
      FlightEnds(env, s, w, act);
    }
  }

  lemma StepAccounts(env: Env, s: State, step: Step, id: string)
    requires Safe(env, s) && Accounted(s, id) && Enabled(env, s, step)
    ensures Accounted(Apply(env, s, step), id)
  {
    if step.ByPublisher? {
      PublisherAccounts(env, s, step.worker, step.act, id);
    } else {
      AttemptsGrow(env, s, step, id);
      OthersSendNothing(env, s, step, id);
    }
  }

  lemma OthersSendNothing(env: Env, s: State, step: Step, id: string)
    requires Enabled(env, s, step) && !step.ByPublisher?
    ensures var s' := Apply(env, s, step);
            s'.sends == s.sends && s'.lost == s.lost && InFlight(s', id) == InFlight(s, id)
  {
    assert Apply(env, s, step).publishers == s.publishers;
  }

  /** In every run whatever, the sends of an event are at most its marked attempts, the sends whose outcome was lost to
      a crash or a failed mark, and those still in flight. */
  lemma SendsAreAccounted(env: Env, rule: (State, Step) -> bool, steps: seq<Step>, id: string)
    requires Run(env, rule, Init(), steps)
    ensures var s := Exec(env, rule, Init(), steps); Safe(env, s) && Accounted(s, id)
  {
    var inv := (x: State) => Safe(env, x) && Accounted(x, id);
    forall x: State, step: Step {:trigger Apply(env, x, step)} | inv(x) && Enabled(env, x, step) && rule(x, step)
      ensures inv(Apply(env, x, step))
    {
      StepKeeps(env, x, step);
      StepAccounts(env, x, step, id);
    }
    InitIsSafe(env);
    Invariance(env, rule, inv, Init(), steps);
  }

  // ---------------------------------------------------------------------
  // The attempts of one event.

  /** What is asked about the event itself: it reads back, marks of it that land come before their claim's lease ends,
      and it is neither replayed nor re-inserted once deadlettered. */
  predicate SteadyStep(env: Env, id: string, s: State, step: Step) {
    match step
    case Tick(_) => true
    case Enqueue(event, _, _) =>
      event.eventId == id ==> env.readsBack(event) && (id in s.outbox ==> s.outbox[id].status != Deadlettered)
    case PersistSnapshot(events) => forall e :: e in events && e.eventId == id ==> env.readsBack(e)
    case Replay(d, _) => d < |s.deadletters| ==> s.deadletters[d].payload.event.eventId != id
    case ByPublisher(w, act) => IsMark(act) && act.dbOk && Busy(s, w) && Head(s, w).eventId == id ==>
      s.now < Head(s, w).leaseEnd
    case ByConsumer(_, _) => true
  }

  ghost function Steady(env: Env, id: string): (State, Step) -> bool {
    (s: State, step: Step) => SteadyStep(env, id, s, step)
  }

  /** max(1, retry_max_attempts). */
  function TryLimit(env: Env): nat {
    if env.kafka.retryMaxAttempts == 0 then 1 else env.kafka.retryMaxAttempts
  }

  predicate SteadyRow(env: Env, row: OutboxRow, now: Time) {
    && row.payload.Readable?
    && row.attemptCount <= TryLimit(env)
    && (InBacklog(row) ==> row.attemptCount < TryLimit(env))
    && (InBacklog(row) ==> row.createdAt + SECOND * TotalBackoff(row.attemptCount) <= row.nextAttemptAt)
    && (row.status == Publishing ==> row.nextAttemptAt <= now)
  }

  predicate Claims(s: State, w: string, i: nat, id: string) {
    w in s.publishers && i < |s.publishers[w].todo| && s.publishers[w].todo[i].eventId == id
  }

  /** A claim of the event, its lease ended or not: it has waited out the backoffs of its attempts. */
  predicate ClaimWaited(s: State, w: string, i: nat, id: string) requires Claims(s, w, i, id) {
    var c := s.publishers[w].todo[i];
    && id in s.outbox && c.payload.Readable?
    && s.outbox[id].createdAt + SECOND * TotalBackoff(c.attemptCount) <= s.now
  }

  /** A claim that still holds agrees with the row. */
  predicate HoldAgrees(s: State, w: string, i: nat, id: string) requires Claims(s, w, i, id) && Unmarked(s, w, i) {
    && HoldBacked(s, w, i) && InBacklog(s.outbox[id])
    && s.outbox[id].attemptCount == s.publishers[w].todo[i].attemptCount
    && s.outbox[id].nextAttemptAt <= s.now
  }

  ghost predicate InSteadyState(env: Env, s: State, id: string) {
    && (id in s.outbox ==> SteadyRow(env, s.outbox[id], s.now))
    && (forall w: string, i: nat :: Claims(s, w, i, id) ==> ClaimWaited(s, w, i, id))
    && (forall w: string, i: nat :: Claims(s, w, i, id) && Holds(s, w, i) ==> HoldAgrees(s, w, i, id))
    && (forall w :: w in s.publishers ==> BatchDistinct(s.publishers[w].todo))
  }

  lemma OneHoldPerEvent(env: Env, s: State, id: string, w: string, i: nat, x: string, j: nat)
    requires InSteadyState(env, s, id) && Claims(s, w, i, id) && Holds(s, w, i) && Claims(s, x, j, id) && Holds(s, x, j)
    ensures w == x && i == j
  {
    assert HoldAgrees(s, w, i, id) && HoldAgrees(s, x, j, id);
  }

  // A claim.

  lemma ClaimStaysSteady(env: Env, s: State, w: string, act: PublisherAct, id: string)
    requires InSteadyState(env, s, id) && act.ClaimBatch? && PublisherEnabled(env, s, w, act)
    ensures InSteadyState(env, ApplyPublisher(env, s, w, act), id)
  {
    var s' := ApplyPublisher(env, s, w, act);
    forall x: string, i: nat | Claims(s', x, i, id) ensures ClaimWaited(s', x, i, id) {
      if x == w {
        assert act.ids[i] in act.ids;
      } else {
        assert Claims(s, x, i, id) && ClaimWaited(s, x, i, id);
      }
    }
    forall x: string, i: nat | Claims(s', x, i, id) && Holds(s', x, i) ensures HoldAgrees(s', x, i, id) {
      if x == w {
        assert act.ids[i] in act.ids;
      } else {
        assert Claims(s, x, i, id) && HoldAgrees(s, x, i, id);
        assert id !in act.ids;
      }
    }
  }

  // A mark.

  /** The holder of the event's lease is the one that marks it, and its mark leaves the row steady: one more attempt,
      and either out of the backlog or failed with room for another try and the next backoff added. */
  lemma MarkedRowSteady(env: Env, s: State, w: string, act: PublisherAct, id: string)
    requires InSteadyState(env, s, id) && IsMark(act) && act.dbOk && PublisherEnabled(env, s, w, act)
    requires Head(s, w).eventId == id && s.now < Head(s, w).leaseEnd
    ensures Holds(s, w, 0) && Claims(s, w, 0, id) && id in s.outbox
    ensures var rows := OutboxAfter(env, s, w, act);
            && id in rows && rows[id].attemptCount == s.outbox[id].attemptCount + 1
            && rows[id].createdAt == s.outbox[id].createdAt
            && SteadyRow(env, rows[id], s.now)
  {
    assert Claims(s, w, 0, id) && Holds(s, w, 0);
    assert ClaimWaited(s, w, 0, id) && HoldAgrees(s, w, 0, id);
    var row := s.outbox[id];
    if act.ScheduleRetry? {
      BackoffBounds(row.attemptCount + 1, row.attemptCount + 1);
      assert TotalBackoff(row.attemptCount + 1) == TotalBackoff(row.attemptCount) + Backoff(row.attemptCount + 1);
    }
  }

  /** A step after which each claim of the event was one before, and the row is as it was. */
  lemma SameRowStaysSteady(env: Env, s: State, s': State, id: string)
    requires InSteadyState(env, s, id) && s.now <= s'.now
    requires id in s.outbox <==> id in s'.outbox
    requires id in s.outbox ==> s'.outbox[id] == s.outbox[id]
    requires forall w: string, i: nat :: Claims(s', w, i, id) ==>
               exists j: nat :: Claims(s, w, j, id) && s.publishers[w].todo[j] == s'.publishers[w].todo[i] &&
                                (Unmarked(s', w, i) ==> Unmarked(s, w, j))
    requires forall w :: w in s'.publishers ==> BatchDistinct(s'.publishers[w].todo)
    ensures InSteadyState(env, s', id)
  {
    forall w: string, i: nat | Claims(s', w, i, id) ensures ClaimWaited(s', w, i, id) {
      var j: nat :| Claims(s, w, j, id) && s.publishers[w].todo[j] == s'.publishers[w].todo[i];
      assert ClaimWaited(s, w, j, id);
    }
    forall w: string, i: nat | Claims(s', w, i, id) && Holds(s', w, i) ensures HoldAgrees(s', w, i, id) {
      var j: nat :| Claims(s, w, j, id) && s.publishers[w].todo[j] == s'.publishers[w].todo[i] && Unmarked(s, w, j);
      assert Holds(s, w, j) && HoldAgrees(s, w, j, id);
    }
  }

  /** Where a claim stood before a step that is not a claim. */
  lemma ClaimWasThere(env: Env, s: State, w: string, act: PublisherAct, id: string, x: string, i: nat) returns (j: nat)
    requires PublisherEnabled(env, s, w, act) && !act.ClaimBatch? && Claims(ApplyPublisher(env, s, w, act), x, i, id)
    ensures var s' := ApplyPublisher(env, s, w, act);
            && Claims(s, x, j, id) && s.publishers[x].todo[j] == s'.publishers[x].todo[i]
            && (Unmarked(s', x, i) ==> Unmarked(s, x, j))
            && (x == w && IsMark(act) && Unmarked(s', x, i) ==> j > 0)
  {
    var s' := ApplyPublisher(env, s, w, act);
    j := if x == w && |s'.publishers[w].todo| < |s.publishers[w].todo| then i + 1 else i;
  }

  lemma BatchesStayDistinct(env: Env, s: State, w: string, act: PublisherAct, x: string)
    requires PublisherEnabled(env, s, w, act) && forall y :: y in s.publishers ==> BatchDistinct(s.publishers[y].todo)
    requires x in ApplyPublisher(env, s, w, act).publishers
    ensures BatchDistinct(ApplyPublisher(env, s, w, act).publishers[x].todo)
  {
  }

  lemma OtherStaysSteady(env: Env, s: State, w: string, act: PublisherAct, id: string)
    requires InSteadyState(env, s, id) && PublisherEnabled(env, s, w, act) && !act.ClaimBatch?
    requires IsMark(act) && act.dbOk ==> Head(s, w).eventId != id
    ensures InSteadyState(env, ApplyPublisher(env, s, w, act), id)
  {
    var s' := ApplyPublisher(env, s, w, act);
    forall x: string, i: nat | Claims(s', x, i, id)
      ensures exists j: nat :: Claims(s, x, j, id) && s.publishers[x].todo[j] == s'.publishers[x].todo[i] &&
                               (Unmarked(s', x, i) ==> Unmarked(s, x, j))
    {
      var j := ClaimWasThere(env, s, w, act, id, x, i);
    }
    forall x | x in s'.publishers ensures BatchDistinct(s'.publishers[x].todo) {
      BatchesStayDistinct(env, s, w, act, x);
    }
    SameRowStaysSteady(env, s, s', id);
  }

  lemma MarkStaysSteady(env: Env, s: State, w: string, act: PublisherAct, id: string)
    requires InSteadyState(env, s, id) && IsMark(act) && act.dbOk && PublisherEnabled(env, s, w, act)
    requires Head(s, w).eventId == id && s.now < Head(s, w).leaseEnd
    ensures InSteadyState(env, ApplyPublisher(env, s, w, act), id)
  {
    var s' := ApplyPublisher(env, s, w, act);
    MarkedRowSteady(env, s, w, act, id);
    forall x: string, i: nat | Claims(s', x, i, id) ensures ClaimWaited(s', x, i, id) {
      var j := ClaimWasThere(env, s, w, act, id, x, i);
      assert ClaimWaited(s, x, j, id);
    }
    forall x: string, i: nat | Claims(s', x, i, id) ensures !Holds(s', x, i) {
      if Holds(s', x, i) {
        var j := ClaimWasThere(env, s, w, act, id, x, i);
        OneHoldPerEvent(env, s, id, x, j, w, 0);
      }
    }
    forall x | x in s'.publishers ensures BatchDistinct(s'.publishers[x].todo) {
      BatchesStayDistinct(env, s, w, act, x);
    }
  }

  // The other steps.

  /** The row may change under a claim as an enqueue changes it: the timers, the lease and the count stay. */
  lemma OutsideStaysSteady(env: Env, s: State, s': State, id: string)
    requires InSteadyState(env, s, id) && s'.publishers == s.publishers && s.now <= s'.now
    requires id in s'.outbox ==> SteadyRow(env, s'.outbox[id], s'.now)
    requires id in s.outbox ==>
               && id in s'.outbox
               && s'.outbox[id].attemptCount == s.outbox[id].attemptCount
               && s'.outbox[id].lockedBy == s.outbox[id].lockedBy &&
                  s'.outbox[id].lockedUntil == s.outbox[id].lockedUntil
               && s'.outbox[id].nextAttemptAt == s.outbox[id].nextAttemptAt &&
                  s'.outbox[id].createdAt == s.outbox[id].createdAt
               && (InBacklog(s.outbox[id]) ==> InBacklog(s'.outbox[id]))
    ensures InSteadyState(env, s', id)
  {
    forall w: string, i: nat | Claims(s', w, i, id) ensures ClaimWaited(s', w, i, id) {
      assert Claims(s, w, i, id) && ClaimWaited(s, w, i, id);
    }
    forall w: string, i: nat | Claims(s', w, i, id) && Holds(s', w, i) ensures HoldAgrees(s', w, i, id) {
      assert Claims(s, w, i, id) && Holds(s, w, i) && HoldAgrees(s, w, i, id);
    }
  }

  lemma {:induction false} PersistRowSteady(env: Env, rows: Outbox, events: seq<CommonEvent>, now: Time, id: string)
    requires id in rows ==> SteadyRow(env, rows[id], now)
    requires forall e :: e in events && e.eventId == id ==> env.readsBack(e)
    ensures var r := Persist(env, rows, events, now); id in r ==> SteadyRow(env, r[id], now)
  {
    if events != [] {
      PersistRowSteady(env, rows, events[..|events| - 1], now, id);
      assert TotalBackoff(0) == 0;
    }
  }

  lemma OutsideRowSteady(env: Env, s: State, step: Step, id: string)
    requires InSteadyState(env, s, id) && Enabled(env, s, step) && SteadyStep(env, id, s, step) && !step.ByPublisher?
    ensures var s' := Apply(env, s, step); id in s'.outbox ==> SteadyRow(env, s'.outbox[id], s'.now)
  {
    assert TotalBackoff(0) == 0;
    if step.PersistSnapshot? {
      PersistRowSteady(env, s.outbox, step.events, s.now, id);
    }
  }

  lemma StepStaysSteady(env: Env, s: State, step: Step, id: string)
    requires InSteadyState(env, s, id) && Enabled(env, s, step) && SteadyStep(env, id, s, step)
    ensures InSteadyState(env, Apply(env, s, step), id)
  {
    if step.ByPublisher? {
      if step.act.ClaimBatch? {
        ClaimStaysSteady(env, s, step.worker, step.act, id);
      } else if IsMark(step.act) && step.act.dbOk && Head(s, step.worker).eventId == id {
        MarkStaysSteady(env, s, step.worker, step.act, id);
      } else {
        OtherStaysSteady(env, s, step.worker, step.act, id);
      }
    } else {
      OutsideRowSteady(env, s, step, id);
      if step.PersistSnapshot? {
        PersistAddsMissing(env, s.outbox, step.events, s.now);
      }
      OutsideStaysSteady(env, s, Apply(env, s, step), id);
    }
  }

  lemma SteadyRuns(env: Env, steps: seq<Step>, id: string)
    requires Run(env, Steady(env, id), Init(), steps)
    ensures InSteadyState(env, Exec(env, Steady(env, id), Init(), steps), id)
  {
    var inv := (x: State) => InSteadyState(env, x, id);
    forall x: State, step: Step {:trigger Apply(env, x, step)} | inv(x) && Enabled(env, x, step) &&
      Steady(env, id)(x, step)
      ensures inv(Apply(env, x, step))
    {
      StepStaysSteady(env, x, step, id);
    }
    Invariance(env, Steady(env, id), inv, Init(), steps);
  }

  // ---------------------------------------------------------------------

  /** The workers that have sent the event, not marked it, and outlived their lease. */
  function Late(s: State, id: string): set<string> {
    set w | w in InFlight(s, id) && s.now > Head(s, w).leaseEnd
  }

  /** Bounded retries: in every run that is steady for the event, it is sent at most max(1, retry_max_attempts) times,
      not counting sends whose outcome never reached the row: lost to a crash or a failed mark, or with a worker that
      has outlived its lease. */
  lemma SendsAreBounded(env: Env, steps: seq<Step>, id: string)
    requires Run(env, Steady(env, id), Init(), steps)
    ensures var s := Exec(env, Steady(env, id), Init(), steps);
            s.sends[id] <= TryLimit(env) + s.lost[id] + |Late(s, id)|
  {
    SteadyRuns(env, steps, id);
    SendsAreAccounted(env, Steady(env, id), steps, id);
    OneOnTime(env, Exec(env, Steady(env, id), Init(), steps), id);
  }

  /** At most one worker that has the event in flight is within its lease, and then an attempt is left to be counted. */
  lemma OneOnTime(env: Env, s: State, id: string)
    requires InSteadyState(env, s, id)
    ensures Attempts(s.outbox, id) + |InFlight(s, id)| <= TryLimit(env) + |Late(s, id)|
  {
    var onTime := InFlight(s, id) - Late(s, id);
    assert InFlight(s, id) == Late(s, id) + onTime;
    DisjointSizes(Late(s, id), onTime);
    if onTime != {} {
      var w :| w in onTime;
      HolderHasTries(env, s, id, w);
      forall x | x in onTime ensures x == w {
        HolderHasTries(env, s, id, x);
        OneHoldPerEvent(env, s, id, w, 0, x, 0);
      }
      assert onTime == {w};
    }
  }

  lemma HolderHasTries(env: Env, s: State, id: string, w: string)
    requires InSteadyState(env, s, id) && w in InFlight(s, id) && w !in Late(s, id)
    ensures Claims(s, w, 0, id) && Holds(s, w, 0) && Attempts(s.outbox, id) < TryLimit(env)
  {
    assert Claims(s, w, 0, id) && Holds(s, w, 0);
    assert HoldAgrees(s, w, 0, id);
  }

  /** In every run that is steady for the event, any claim of it has waited out every backoff so far: n failed attempts
      cost at least the sum of the first n backoffs since the event was created. */
  lemma BackoffsAreWaitedOut(env: Env, steps: seq<Step>, id: string, w: string, i: nat)
    requires Run(env, Steady(env, id), Init(), steps) && Claims(Exec(env, Steady(env, id), Init(), steps), w, i, id)
    ensures var s := Exec(env, Steady(env, id), Init(), steps);
            && id in s.outbox
            && s.outbox[id].createdAt + SECOND * TotalBackoff(s.publishers[w].todo[i].attemptCount) <= s.now
  {
    SteadyRuns(env, steps, id);
    assert ClaimWaited(Exec(env, Steady(env, id), Init(), steps), w, i, id);
  }

  /** In every run that is steady for the event, a failed send of it that is not the last one schedules the next try
      after the backoff of the attempts made so far, which is within 10..320 seconds and no shorter than any earlier
      one. */
  lemma RetriesAreScheduled(env: Env, steps: seq<Step>, id: string, w: string, earlier: nat)
    requires Run(env, Steady(env, id), Init(), steps)
    requires var s := Exec(env, Steady(env, id), Init(), steps);
             && PublisherEnabled(env, s, w, ScheduleRetry(true)) && Head(s, w).eventId == id
             && s.now < Head(s, w).leaseEnd && 1 <= earlier <= Head(s, w).attemptCount
    ensures var s := Exec(env, Steady(env, id), Init(), steps);
            var rows := OutboxAfter(env, s, w, ScheduleRetry(true));
            && id in rows && rows[id].status == Failed
            && rows[id].attemptCount < TryLimit(env)
            && rows[id].nextAttemptAt == s.now + SECOND * Backoff(rows[id].attemptCount)
            && 10 <= Backoff(earlier) <= Backoff(rows[id].attemptCount) <= 320
  {
    SteadyRuns(env, steps, id);
    var s := Exec(env, Steady(env, id), Init(), steps);
    MarkedRowSteady(env, s, w, ScheduleRetry(true), id);
    assert HoldAgrees(s, w, 0, id);
    BackoffBounds(earlier, Head(s, w).attemptCount + 1);
  }
}
