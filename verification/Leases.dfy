/** Lease exclusivity. The marks of src/db.rs are keyed on event_id alone; when every mark that lands is issued before
    its claim's lease ends and no replay touches a leased row, they behave as if they were guarded by locked_by. */
module Leases {
  import opened Wrappers
  import opened EventBus
  import opened Tables
  import opened Pipeline
  import opened Safety

  predicate Leased(row: OutboxRow, now: Time) {
    row.lockedUntil.Some? && now <= row.lockedUntil.value
  }

  predicate LandingMark(act: PublisherAct) {
    IsMark(act) && act.dbOk
  }

  /** Marks that reach the database come before their claim's lease ends, replays leave leased rows alone. */
  predicate TimelyStep(s: State, step: Step) {
    match step
    case ByPublisher(w, act) => LandingMark(act) && Busy(s, w) ==> s.now < Head(s, w).leaseEnd
    case Replay(d, _) =>
      d < |s.deadletters| ==>
        var id := s.deadletters[d].payload.event.eventId;
        id in s.outbox ==> !Leased(s.outbox[id], s.now)
    case _ => true
  }

  ghost function Timely(): (State, Step) -> bool {
    (s: State, step: Step) => TimelyStep(s, step)
  }

  /** The i-th record of w's batch is claimed and not marked yet. */
  predicate Unmarked(s: State, w: string, i: nat) {
    w in s.publishers && i < |s.publishers[w].todo| && !(i == 0 && s.publishers[w].phase.Refused?)
  }

  /** ... and its lease has not ended. */
  predicate Holds(s: State, w: string, i: nat) {
    Unmarked(s, w, i) && s.now <= s.publishers[w].todo[i].leaseEnd
  }

  predicate HoldBacked(s: State, w: string, i: nat) requires Unmarked(s, w, i) {
    var c := s.publishers[w].todo[i];
    c.eventId in s.outbox && s.outbox[c.eventId].lockedBy == Some(w) &&
      s.outbox[c.eventId].lockedUntil == Some(c.leaseEnd)
  }

  predicate BatchDistinct(todo: seq<Claimed>) {
    forall i, j :: 0 <= i < j < |todo| ==> todo[i].eventId != todo[j].eventId
  }

  /** Every live hold is backed by the row's own lease columns. */
  ghost predicate LeasesBacked(s: State) {
    && (forall w: string, i: nat :: Holds(s, w, i) ==> HoldBacked(s, w, i))
    && (forall w :: w in s.publishers ==> BatchDistinct(s.publishers[w].todo))
  }

  // ---------------------------------------------------------------------

  /** A held event is not claimable. */
  lemma HeldIsNotClaimable(s: State, w: string, i: nat)
    requires LeasesBacked(s) && Holds(s, w, i)
    ensures s.publishers[w].todo[i].eventId in s.outbox
    ensures Leased(s.outbox[s.publishers[w].todo[i].eventId], s.now)
    ensures !Claimable(s.outbox[s.publishers[w].todo[i].eventId], s.now)
  {
    assert HoldBacked(s, w, i);
  }

  /** A step that leaves the publishers alone keeps the holds when it keeps the lease columns of held rows. */
  lemma RowsKeepBacking(s: State, s': State)
    requires LeasesBacked(s) && s'.publishers == s.publishers && s.now <= s'.now
    requires forall w: string, i: nat :: Holds(s, w, i) ==>
               var id := s.publishers[w].todo[i].eventId;
               id in s.outbox && id in s'.outbox && s'.outbox[id].lockedBy == s.outbox[id].lockedBy &&
               s'.outbox[id].lockedUntil == s.outbox[id].lockedUntil
    ensures LeasesBacked(s')
  {
    forall w: string, i: nat | Holds(s', w, i) ensures HoldBacked(s', w, i) {
      assert Holds(s, w, i) && HoldBacked(s, w, i);
    }
  }

  lemma ClaimKeepsBacking(env: Env, s: State, w: string, act: PublisherAct)
    requires LeasesBacked(s) && act.ClaimBatch? && PublisherEnabled(env, s, w, act)
    ensures LeasesBacked(ApplyPublisher(env, s, w, act))
  {
    var s' := ApplyPublisher(env, s, w, act);
    forall x: string, i: nat | Holds(s', x, i) ensures HoldBacked(s', x, i) {
      if x == w {
        assert act.ids[i] in act.ids;
      } else {
        assert Holds(s, x, i) && HoldBacked(s, x, i);
        HeldIsNotClaimable(s, x, i);
      }
    }
  }

  /** Under the timely rule a mark is issued by the holder of the row's lease. */
  lemma MarkerHoldsLease(env: Env, s: State, w: string, act: PublisherAct)
    requires LeasesBacked(s) && LandingMark(act) && PublisherEnabled(env, s, w, act) &&
             TimelyStep(s, ByPublisher(w, act))
    ensures Holds(s, w, 0) && HoldBacked(s, w, 0)
  {
  }

  lemma MarkKeepsBacking(env: Env, s: State, w: string, act: PublisherAct)
    requires LeasesBacked(s) && LandingMark(act) && PublisherEnabled(env, s, w, act) &&
             TimelyStep(s, ByPublisher(w, act))
    ensures LeasesBacked(ApplyPublisher(env, s, w, act))
  {
    var s' := ApplyPublisher(env, s, w, act);
    MarkShape(env, s, w, act);
    MarkerHoldsLease(env, s, w, act);
    var todo := s.publishers[w].todo;
    forall x: string, i: nat | Holds(s', x, i) ensures HoldBacked(s', x, i) {
      if x == w {
        var j := if act.RefuseEncode? then i else i + 1;
        assert s'.publishers[w].todo[i] == todo[j];
        assert Holds(s, w, j) && HoldBacked(s, w, j);
        assert todo[0].eventId != todo[j].eventId;
      } else {
        assert Holds(s, x, i) && HoldBacked(s, x, i);
        assert s.publishers[x].todo[i].eventId != todo[0].eventId;
      }
    }
  }

  /** A step that is neither a claim nor a landing mark leaves the table alone, and what is held after it was held
      before. */
  lemma HoldWasThere(env: Env, s: State, w: string, act: PublisherAct, x: string, i: nat) returns (j: nat)
    requires !LandingMark(act) && !act.ClaimBatch? && PublisherEnabled(env, s, w, act)
    requires Holds(ApplyPublisher(env, s, w, act), x, i)
    ensures OutboxAfter(env, s, w, act) == s.outbox
    ensures Holds(s, x, j) && ApplyPublisher(env, s, w, act).publishers[x].todo[i] == s.publishers[x].todo[j]
  {
    var s' := ApplyPublisher(env, s, w, act);
    j := if x == w && |s'.publishers[w].todo| < |s.publishers[w].todo| then i + 1 else i;
  }

  lemma DistinctStays(env: Env, s: State, w: string, act: PublisherAct)
    requires LeasesBacked(s) && PublisherEnabled(env, s, w, act) && !act.ClaimBatch?
    ensures var s' := ApplyPublisher(env, s, w, act);
            forall x :: x in s'.publishers ==> BatchDistinct(s'.publishers[x].todo)
  {
  }

  lemma OtherKeepsBacking(env: Env, s: State, w: string, act: PublisherAct)
    requires LeasesBacked(s) && !LandingMark(act) && !act.ClaimBatch? && PublisherEnabled(env, s, w, act)
    ensures LeasesBacked(ApplyPublisher(env, s, w, act))
  {
    var s' := ApplyPublisher(env, s, w, act);
    DistinctStays(env, s, w, act);
    forall x: string, i: nat | Holds(s', x, i) ensures HoldBacked(s', x, i) {
      var j := HoldWasThere(env, s, w, act, x, i);
      assert HoldBacked(s, x, j);
    }
  }

  lemma StepKeepsBacking(env: Env, s: State, step: Step)
    requires LeasesBacked(s) && Enabled(env, s, step) && TimelyStep(s, step)
    ensures LeasesBacked(Apply(env, s, step))
  {
    var s' := Apply(env, s, step);
    if step.ByPublisher? {
      if LandingMark(step.act) {
        MarkKeepsBacking(env, s, step.worker, step.act);
      } else if step.act.ClaimBatch? {
        ClaimKeepsBacking(env, s, step.worker, step.act);
      } else {
        OtherKeepsBacking(env, s, step.worker, step.act);
      }
    } else {
      if step.PersistSnapshot? {
        PersistAddsMissing(env, s.outbox, step.events, s.now);
      }
      forall w: string, i: nat | Holds(s, w, i)
        ensures var id := s.publishers[w].todo[i].eventId;
                id in s.outbox && id in s'.outbox && s'.outbox[id].lockedBy == s.outbox[id].lockedBy &&
                s'.outbox[id].lockedUntil == s.outbox[id].lockedUntil
      {
        HeldIsNotClaimable(s, w, i);
      }
      RowsKeepBacking(s, s');
    }
  }

  // ---------------------------------------------------------------------

  lemma TimelyRunsAreBacked(env: Env, steps: seq<Step>)
    requires Run(env, Timely(), Init(), steps)
    ensures LeasesBacked(Exec(env, Timely(), Init(), steps))
  {
    var inv := (x: State) => LeasesBacked(x);
    forall x: State, step: Step {:trigger Apply(env, x, step)} | inv(x) && Enabled(env, x, step) && Timely()(x, step)
      ensures inv(Apply(env, x, step))
    {
      StepKeepsBacking(env, x, step);
    }
    Invariance(env, Timely(), inv, Init(), steps);
  }

  /** In every timely run no event is held by two claims at once, and a claim starts only after the lease of every
      earlier unmarked claim of that event has ended, re-queued mid-lease or not. */
  lemma HoldsAreExclusive(env: Env, steps: seq<Step>, w: string, i: nat, x: string, j: nat)
    requires Run(env, Timely(), Init(), steps)
    ensures var s := Exec(env, Timely(), Init(), steps);
            Holds(s, w, i) && Holds(s, x, j) && s.publishers[w].todo[i].eventId == s.publishers[x].todo[j].eventId
            ==> w == x && i == j
    ensures var s := Exec(env, Timely(), Init(), steps);
            forall ids, limit, lockSeconds ::
              (&& Unmarked(s, w, i) && s.publishers[w].todo[i].eventId in ids
               && PublisherEnabled(env, s, x, ClaimBatch(ids, limit, lockSeconds)))
              ==> s.publishers[w].todo[i].leaseEnd < s.now
  {
    TimelyRunsAreBacked(env, steps);
    var s := Exec(env, Timely(), Init(), steps);
    if Holds(s, w, i) {
      HeldIsNotClaimable(s, w, i);
      assert HoldBacked(s, w, i);
    }
    if Holds(s, x, j) {
      assert HoldBacked(s, x, j);
    }
  }

  /** The same statement with a lease guard: UPDATE .. WHERE event_id = $1 AND locked_by = $worker. */
  function Guarded(rows: Outbox, rows': Outbox, id: string, w: string): Outbox {
    if id in rows && rows[id].lockedBy == Some(w) then rows' else rows
  }

  /** In every timely run each mark does what the lease-guarded statement would do. */
  lemma MarksActAsGuarded(env: Env, steps: seq<Step>, w: string, act: PublisherAct)
    requires Run(env, Timely(), Init(), steps)
    requires var s := Exec(env, Timely(), Init(), steps);
             IsMark(act) && PublisherEnabled(env, s, w, act) && TimelyStep(s, ByPublisher(w, act))
    ensures var s := Exec(env, Timely(), Init(), steps);
            OutboxAfter(env, s, w, act) == Guarded(s.outbox, OutboxAfter(env, s, w, act), Head(s, w).eventId, w)
  {
    TimelyRunsAreBacked(env, steps);
    if act.dbOk {
      MarkerHoldsLease(env, Exec(env, Timely(), Init(), steps), w, act);
    }
  }
}
