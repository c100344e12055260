/** When a published event stays published. No table constraint says so; the marks are keyed on event_id alone. */
module Published {
  import opened Wrappers
  import opened EventBus
  import opened Tables
  import opened Pipeline
  import opened Safety
  import opened Leases

  predicate IsPublished(rows: Outbox, id: string) {
    id in rows && rows[id].status == Status.Published
  }

  predicate ReplaysEvent(s: State, step: Step, id: string) {
    step.Replay? && step.deadletter < |s.deadletters| && s.deadletters[step.deadletter].payload.event.eventId == id
  }

  /** A mark that reaches the database and says something else than published. */
  predicate UnpublishingMark(s: State, step: Step, id: string) {
    && step.ByPublisher? && IsMark(step.act) && !step.act.ConfirmPublished? && step.act.dbOk
    && Busy(s, step.worker) && Head(s, step.worker).eventId == id
  }

  lemma MarksThatUnpublish(env: Env, s: State, w: string, act: PublisherAct, id: string)
    requires PublisherEnabled(env, s, w, act) && IsPublished(s.outbox, id)
    ensures !IsPublished(OutboxAfter(env, s, w, act), id) <==> UnpublishingMark(s, ByPublisher(w, act), id)
  {
    if act.ClaimBatch? {
      assert id !in act.ids;
    }
  }

  lemma WritesThatUnpublish(env: Env, s: State, step: Step, id: string)
    requires Enabled(env, s, step) && !step.ByPublisher? && IsPublished(s.outbox, id)
    ensures !IsPublished(Apply(env, s, step).outbox, id) <==> ReplaysEvent(s, step, id)
  {
    if step.PersistSnapshot? {
      PersistAddsMissing(env, s.outbox, step.events, s.now);
    }
  }

  /** A published row leaves that status by exactly two kinds of step: a replay of the event, and a mark of it by any
      worker whatever that does not confirm the publish. */
  lemma PublishedEndsExactly(env: Env, s: State, step: Step, id: string)
    requires Enabled(env, s, step) && IsPublished(s.outbox, id)
    ensures !IsPublished(Apply(env, s, step).outbox, id) <==> ReplaysEvent(s, step, id) || UnpublishingMark(s, step, id)
  {
    if step.ByPublisher? {
      MarksThatUnpublish(env, s, step.worker, step.act, id);
    } else {
      WritesThatUnpublish(env, s, step, id);
    }
  }

  // ---------------------------------------------------------------------
  // Under timely marks

  /** An event whose claim still holds is in the backlog. */
  ghost predicate HeldInBacklog(s: State) {
    forall w: string, i: nat :: Holds(s, w, i) ==>
      var id := s.publishers[w].todo[i].eventId; id in s.outbox && InBacklog(s.outbox[id])
  }

  lemma ClaimKeepsBacklog(env: Env, s: State, w: string, act: PublisherAct)
    requires LeasesBacked(s) && HeldInBacklog(s) && act.ClaimBatch? && PublisherEnabled(env, s, w, act)
    ensures HeldInBacklog(ApplyPublisher(env, s, w, act))
  {
    var s' := ApplyPublisher(env, s, w, act);
    forall x: string, i: nat | Holds(s', x, i)
      ensures var id := s'.publishers[x].todo[i].eventId; id in s'.outbox && InBacklog(s'.outbox[id])
    {
      if x == w {
        assert act.ids[i] in act.ids;
      } else {
        assert Holds(s, x, i);
      }
    }
  }

  lemma MarkKeepsBacklog(env: Env, s: State, w: string, act: PublisherAct)
    requires LeasesBacked(s) && HeldInBacklog(s)
    requires LandingMark(act) && PublisherEnabled(env, s, w, act) && TimelyStep(s, ByPublisher(w, act))
    ensures HeldInBacklog(ApplyPublisher(env, s, w, act))
  {
    var s' := ApplyPublisher(env, s, w, act);
    MarkShape(env, s, w, act);
    MarkerHoldsLease(env, s, w, act);
    var todo := s.publishers[w].todo;
    forall x: string, i: nat | Holds(s', x, i)
      ensures var id := s'.publishers[x].todo[i].eventId; id in s'.outbox && InBacklog(s'.outbox[id])
    {
      var j := if x == w && !act.RefuseEncode? then i + 1 else i;
      assert s'.publishers[x].todo[i] == s.publishers[x].todo[j];
      assert Holds(s, x, j) && HoldBacked(s, x, j);
      assert s.publishers[x].todo[j].eventId != todo[0].eventId;
    }
  }

  lemma OtherKeepsBacklog(env: Env, s: State, w: string, act: PublisherAct)
    requires HeldInBacklog(s) && !LandingMark(act) && !act.ClaimBatch? && PublisherEnabled(env, s, w, act)
    ensures HeldInBacklog(ApplyPublisher(env, s, w, act))
  {
    var s' := ApplyPublisher(env, s, w, act);
    forall x: string, i: nat | Holds(s', x, i)
      ensures var id := s'.publishers[x].todo[i].eventId; id in s'.outbox && InBacklog(s'.outbox[id])
    {
      var j := HoldWasThere(env, s, w, act, x, i);
    }
  }

  lemma StepKeepsBacklog(env: Env, s: State, step: Step)
    requires LeasesBacked(s) && HeldInBacklog(s) && Enabled(env, s, step) && TimelyStep(s, step)
    ensures HeldInBacklog(Apply(env, s, step))
  {
    if step.ByPublisher? {
      if LandingMark(step.act) {
        MarkKeepsBacklog(env, s, step.worker, step.act);
      } else if step.act.ClaimBatch? {
        ClaimKeepsBacklog(env, s, step.worker, step.act);
      } else {
        OtherKeepsBacklog(env, s, step.worker, step.act);
      }
    } else {
      if step.PersistSnapshot? {
        PersistAddsMissing(env, s.outbox, step.events, s.now);
      }
      var s' := Apply(env, s, step);
      forall w: string, i: nat | Holds(s', w, i)
        ensures var id := s'.publishers[w].todo[i].eventId; id in s'.outbox && InBacklog(s'.outbox[id])
      {
        assert Holds(s, w, i);
      }
    }
  }

  lemma TimelyRunsHoldBacklog(env: Env, steps: seq<Step>)
    requires Run(env, Timely(), Init(), steps)
    ensures var s := Exec(env, Timely(), Init(), steps); LeasesBacked(s) && HeldInBacklog(s)
  {
    var inv := (x: State) => LeasesBacked(x) && HeldInBacklog(x);
    forall x: State, step: Step {:trigger Apply(env, x, step)} | inv(x) && Enabled(env, x, step) && Timely()(x, step)
      ensures inv(Apply(env, x, step))
    {
      StepKeepsBacking(env, x, step);
      StepKeepsBacklog(env, x, step);
    }
    Invariance(env, Timely(), inv, Init(), steps);
  }

  /** In every timely run published is terminal but for replays: the next timely step takes a published row back
      exactly when it replays the event. */
  lemma OnlyReplayTakesBack(env: Env, steps: seq<Step>, step: Step, id: string)
    requires Run(env, Timely(), Init(), steps)
    requires var s := Exec(env, Timely(), Init(), steps);
             Enabled(env, s, step) && TimelyStep(s, step) && IsPublished(s.outbox, id)
    ensures var s := Exec(env, Timely(), Init(), steps);
            !IsPublished(Apply(env, s, step).outbox, id) <==> ReplaysEvent(s, step, id)
  {
    TimelyRunsHoldBacklog(env, steps);
    var s := Exec(env, Timely(), Init(), steps);
    PublishedEndsExactly(env, s, step, id);
    if UnpublishingMark(s, step, id) {
      MarkerHoldsLease(env, s, step.worker, step.act);
    }
  }

  // ---------------------------------------------------------------------
  // Over the rest of a run

  ghost predicate Replayed(env: Env, s: State, steps: seq<Step>, id: string)
    requires Run(env, Timely(), s, steps)
    decreases |steps|
  {
    steps != [] && (ReplaysEvent(s, steps[0], id) || Replayed(env, Apply(env, s, steps[0]), steps[1..], id))
  }

  lemma {:induction false} PublishedStays(env: Env, s: State, more: seq<Step>, id: string)
    requires LeasesBacked(s) && HeldInBacklog(s) && Run(env, Timely(), s, more)
    requires IsPublished(s.outbox, id) && !Replayed(env, s, more, id)
    ensures IsPublished(Exec(env, Timely(), s, more).outbox, id)
    decreases |more|
  {
    if more != [] {
      var step := more[0];
      PublishedEndsExactly(env, s, step, id);
      if UnpublishingMark(s, step, id) {
        MarkerHoldsLease(env, s, step.worker, step.act);
      }
      StepKeepsBacking(env, s, step);
      StepKeepsBacklog(env, s, step);
      PublishedStays(env, Apply(env, s, step), more[1..], id);
    }
  }

  /** In every timely run a published event stays published to the end of every continuation that does not replay it. */
  lemma PublishedIsTerminal(env: Env, steps: seq<Step>, more: seq<Step>, id: string)
    requires Run(env, Timely(), Init(), steps) && Run(env, Timely(), Exec(env, Timely(), Init(), steps), more)
    requires var s := Exec(env, Timely(), Init(), steps); IsPublished(s.outbox, id) && !Replayed(env, s, more, id)
    ensures IsPublished(Exec(env, Timely(), Exec(env, Timely(), Init(), steps), more).outbox, id)
  {
    TimelyRunsHoldBacklog(env, steps);
    PublishedStays(env, Exec(env, Timely(), Init(), steps), more, id);
  }
}
