/** start_channel and stop_channel of src/whatsapp.rs as concurrent steps: start_channel holds start_lock from its
    check to its insert, stop_channel only takes the supervisors lock, tasks end when they like. */
module Supervisors {
  import opened Wrappers

  type TaskId = nat

  datatype TaskState = Running | Finished | Aborted

  datatype Task = Task(channel: string, state: TaskState)

  /** Where a start_channel call stands: waiting for start_lock, holding it, past its check (the old entry removed),
      or with its task spawned but not inserted yet. */
  datatype Start =
    | Waiting(channel: string)
    | Entered(channel: string)
    | Cleared(channel: string)
    | Spawned(channel: string, task: TaskId)

  /** holder: the call that has start_lock. tasks: every task ever spawned, by number. */
  datatype Manager = Manager(
    supervisors: map<string, TaskId>,
    tasks: seq<Task>,
    holder: Option<nat>,
    starts: map<nat, Start>)

  function Init(): Manager {
    Manager(map[], [], None, map[])
  }

  datatype Step =
    | Call(id: nat, channel: string)
    | Acquire(id: nat)
    | Check(id: nat)
    | Spawn(id: nat)
    | Insert(id: nat)
    | GiveUp(id: nat)          // session store or bot builder failed, or the caller dropped the future at an await
    | Stop(channel: string)
    | Finish(task: TaskId)

  predicate IsRunning(m: Manager, t: TaskId) {
    t < |m.tasks| && m.tasks[t].state == Running
  }

  /** is_channel_active. */
  predicate IsActive(m: Manager, channel: string) {
    channel in m.supervisors && IsRunning(m, m.supervisors[channel])
  }

  predicate Enabled(m: Manager, step: Step) {
    match step
    case Call(id, _) => id !in m.starts
    case Acquire(id) => m.holder.None? && id in m.starts && m.starts[id].Waiting?
    case Check(id) => id in m.starts && m.starts[id].Entered?
    case Spawn(id) => id in m.starts && m.starts[id].Cleared?
    case Insert(id) => id in m.starts && m.starts[id].Spawned?
    case GiveUp(id) => id in m.starts && !m.starts[id].Spawned?
    case Stop(_) => true
    case Finish(t) => IsRunning(m, t)
  }

  /** The call returns, dropping start_lock if it has it. */
  function Leave(m: Manager, id: nat): Manager {
    m.(starts := m.starts - {id}, holder := if m.holder == Some(id) then None else m.holder)
  }

  function SetState(m: Manager, t: TaskId, state: TaskState): Manager
    requires t < |m.tasks|
  {
    m.(tasks := m.tasks[t := m.tasks[t].(state := state)])
  }

  function Apply(m: Manager, step: Step): Manager
    requires Enabled(m, step)
  {
    match step
    case Call(id, channel) => m.(starts := m.starts[id := Waiting(channel)])
    case Acquire(id) => m.(holder := Some(id), starts := m.starts[id := Entered(m.starts[id].channel)])
    case Check(id) =>
      var channel := m.starts[id].channel;
      if IsActive(m, channel) then Leave(m, id)
      else m.(supervisors := m.supervisors - {channel}, starts := m.starts[id := Cleared(channel)])
    case Spawn(id) =>
      var channel := m.starts[id].channel;
      m.(tasks := m.tasks + [Task(channel, Running)], starts := m.starts[id := Spawned(channel, |m.tasks|)])
    case Insert(id) =>
      Leave(m.(supervisors := m.supervisors[m.starts[id].channel := m.starts[id].task]), id)
    case GiveUp(id) => Leave(m, id)
    case Stop(channel) =>
      if channel !in m.supervisors then m
      else
        var t := m.supervisors[channel];
        var removed := m.(supervisors := m.supervisors - {channel});
        if IsRunning(m, t) then SetState(removed, t, Aborted) else removed
    case Finish(t) => SetState(m, t, Finished)
  }

  predicate Run(m: Manager, steps: seq<Step>)
    decreases |steps|
  {
    steps == [] || (Enabled(m, steps[0]) && Run(Apply(m, steps[0]), steps[1..]))
  }

  function Exec(m: Manager, steps: seq<Step>): Manager
    requires Run(m, steps)
    decreases |steps|
  {
    if steps == [] then m else Exec(Apply(m, steps[0]), steps[1..])
  }

  // ---------------------------------------------------------------------

  /** Only the holder of start_lock is past waiting. */
  predicate LockHeld(m: Manager) {
    && (forall id :: id in m.starts && !m.starts[id].Waiting? ==> m.holder == Some(id))
    && (m.holder.Some? ==> m.holder.value in m.starts && !m.starts[m.holder.value].Waiting?)
  }

  /** Entries lead to tasks of their channel; a channel being started has none. */
  predicate EntriesOk(m: Manager) {
    && (forall c :: c in m.supervisors ==> m.supervisors[c] < |m.tasks| && m.tasks[m.supervisors[c]].channel == c)
    && (forall id :: id in m.starts && (m.starts[id].Cleared? || m.starts[id].Spawned?) ==>
        m.starts[id].channel !in m.supervisors)
    && (forall id :: id in m.starts && m.starts[id].Spawned? ==>
          m.starts[id].task < |m.tasks| && m.tasks[m.starts[id].task].channel == m.starts[id].channel)
  }

  /** The task is registered, or it is the one the holder of start_lock is about to register. */
  predicate Tracked(m: Manager, t: TaskId)
    requires t < |m.tasks|
  {
    || (m.tasks[t].channel in m.supervisors && m.supervisors[m.tasks[t].channel] == t)
    || (m.holder.Some? && m.holder.value in m.starts && m.starts[m.holder.value] == Spawned(m.tasks[t].channel, t))
  }

  predicate AllTracked(m: Manager) {
    forall t :: 0 <= t < |m.tasks| && m.tasks[t].state == Running ==> Tracked(m, t)
  }

  predicate Inv(m: Manager) {
    LockHeld(m) && EntriesOk(m) && AllTracked(m)
  }

  lemma StepKeepsTracking(m: Manager, step: Step)
    requires Inv(m) && Enabled(m, step)
    ensures AllTracked(Apply(m, step))
  {
    var m' := Apply(m, step);
    forall t | 0 <= t < |m'.tasks| && m'.tasks[t].state == Running ensures Tracked(m', t) {
      if t < |m.tasks| {
        assert m.tasks[t].state == Running && Tracked(m, t);
      }
    }
  }

  lemma StepKeepsInv(m: Manager, step: Step)
    requires Inv(m) && Enabled(m, step)
    ensures Inv(Apply(m, step))
  {
    StepKeepsTracking(m, step);
  }

  lemma {:induction false} RunKeepsInv(m: Manager, steps: seq<Step>)
    requires Inv(m) && Run(m, steps)
    ensures Inv(Exec(m, steps))
    decreases |steps|
  {
    if steps != [] {
      StepKeepsInv(m, steps[0]);
      RunKeepsInv(Apply(m, steps[0]), steps[1..]);
    }
  }

  /** One live client per channel, in every interleaving; and while nobody holds start_lock, the live ones are
      exactly the registered ones, so is_channel_active tells the truth. */
  lemma SingleLiveClient(steps: seq<Step>, t: TaskId, u: TaskId, channel: string)
    requires Run(Init(), steps)
    ensures var m := Exec(Init(), steps);
            IsRunning(m, t) && IsRunning(m, u) && m.tasks[t].channel == m.tasks[u].channel ==> t == u
    ensures var m := Exec(Init(), steps);
            m.holder.None? && IsRunning(m, t) && m.tasks[t].channel == channel ==>
              IsActive(m, channel) && m.supervisors[channel] == t
  {
    RunKeepsInv(Init(), steps);
    var m := Exec(Init(), steps);
    if IsRunning(m, t) {
      assert Tracked(m, t);
    }
    if IsRunning(m, u) {
      assert Tracked(m, u);
    }
  }

  /** A call has spawned its task for this channel and not registered it yet. */
  predicate Registering(m: Manager, channel: string, t: TaskId) {
    exists id :: id in m.starts && m.starts[id] == Spawned(channel, t)
  }

  /** What is live right after a stop: exactly the task that a concurrent start has spawned but not registered. */
  lemma StopLeavesUnregistered(steps: seq<Step>, channel: string, t: TaskId)
    requires Run(Init(), steps)
    ensures var m := Exec(Init(), steps);
            var m' := Apply(m, Stop(channel));
            (IsRunning(m', t) && m'.tasks[t].channel == channel) <==> (IsRunning(m, t) && Registering(m, channel, t))
    ensures var m := Exec(Init(), steps); channel !in Apply(m, Stop(channel)).supervisors
  {
    RunKeepsInv(Init(), steps);
    var m := Exec(Init(), steps);
    if IsRunning(m, t) {
      assert Tracked(m, t);
    }
  }

  // ---------------------------------------------------------------------
  // Stops that do not last

  predicate IsCallOn(step: Step, channel: string) {
    step.Call? && step.channel == channel
  }

  /** The channel can become active without any further call of start_channel for it. */
  ghost predicate CanBecomeActive(m: Manager, channel: string) {
    exists steps :: ActiveAfter(m, steps, channel)
  }

  predicate ActiveAfter(m: Manager, steps: seq<Step>, channel: string) {
    Run(m, steps) && (forall i :: 0 <= i < |steps| ==> !IsCallOn(steps[i], channel)) &&
      IsActive(Exec(m, steps), channel)
  }

  /** The call is a start of the channel that can still go through: one in any phase, unless it has spawned its task
      and that task has already ended. */
  predicate CanStillStart(m: Manager, channel: string, id: nat) {
    && id in m.starts && m.starts[id].channel == channel
    && (m.starts[id].Spawned? ==> IsRunning(m, m.starts[id].task))
  }

  lemma ActiveByStep(m: Manager, step: Step, channel: string)
    requires Enabled(m, step) && !IsCallOn(step, channel) && CanBecomeActive(Apply(m, step), channel)
    ensures CanBecomeActive(m, channel)
  {
    var steps :| ActiveAfter(Apply(m, step), steps, channel);
    assert ([step] + steps)[1..] == steps;
    assert ActiveAfter(m, [step] + steps, channel);
  }

  lemma ActiveAlready(m: Manager, channel: string)
    requires IsActive(m, channel)
    ensures CanBecomeActive(m, channel)
  {
    assert ActiveAfter(m, [], channel);
  }

  /** The holder of start_lock gets to the end of its call. */
  lemma HolderStarts(m: Manager, channel: string, id: nat)
    requires Inv(m) && CanStillStart(m, channel, id) && !m.starts[id].Waiting?
    ensures CanBecomeActive(m, channel)
    decreases if m.starts[id].Entered? then 2 else if m.starts[id].Cleared? then 1 else 0
  {
    if IsActive(m, channel) {
      ActiveAlready(m, channel);
    } else {
      var step := if m.starts[id].Entered? then Check(id) else if m.starts[id].Cleared? then Spawn(id) else Insert(id);
      StepKeepsInv(m, step);
      if step.Insert? {
        ActiveAlready(Apply(m, step), channel);
      } else {
        HolderStarts(Apply(m, step), channel, id);
      }
      ActiveByStep(m, step, channel);
    }
  }

  lemma WaiterStarts(m: Manager, channel: string, id: nat)
    requires Inv(m) && m.holder.None? && id in m.starts && m.starts[id] == Waiting(channel)
    ensures CanBecomeActive(m, channel)
  {
    StepKeepsInv(m, Acquire(id));
    HolderStarts(Apply(m, Acquire(id)), channel, id);
    ActiveByStep(m, Acquire(id), channel);
  }

  /** A start that can still go through may do so: whoever holds the lock leaves first. */
  lemma PendingStarts(m: Manager, channel: string, id: nat)
    requires Inv(m) && CanStillStart(m, channel, id)
    ensures CanBecomeActive(m, channel)
  {
    if !m.starts[id].Waiting? {
      HolderStarts(m, channel, id);
    } else if m.holder.None? {
      WaiterStarts(m, channel, id);
    } else {
      var h := m.holder.value;
      var leave := if m.starts[h].Spawned? then Insert(h) else GiveUp(h);
      StepKeepsInv(m, leave);
      WaiterStarts(Apply(m, leave), channel, id);
      ActiveByStep(m, leave, channel);
    }
  }

  /** No client of the channel is live and no start of it can still go through. */
  predicate Quiet(m: Manager, channel: string) {
    && Inv(m)
    && (forall t :: 0 <= t < |m.tasks| && m.tasks[t].channel == channel ==> m.tasks[t].state != Running)
    && (forall id :: id in m.starts ==> !CanStillStart(m, channel, id))
  }

  lemma StepKeepsQuiet(m: Manager, step: Step, channel: string)
    requires Quiet(m, channel) && Enabled(m, step) && !IsCallOn(step, channel)
    ensures Quiet(Apply(m, step), channel)
  {
    StepKeepsInv(m, step);
    var m' := Apply(m, step);
    forall id | id in m'.starts ensures !CanStillStart(m', channel, id) {
      assert id in m.starts ==> !CanStillStart(m, channel, id);
    }
  }

  lemma {:induction false} QuietStays(m: Manager, steps: seq<Step>, channel: string)
    requires Quiet(m, channel) && Run(m, steps) && forall i :: 0 <= i < |steps| ==> !IsCallOn(steps[i], channel)
    ensures Quiet(Exec(m, steps), channel)
    decreases |steps|
  {
    if steps != [] {
      StepKeepsQuiet(m, steps[0], channel);
      QuietStays(Apply(m, steps[0]), steps[1..], channel);
    }
  }

  /** When a stop can be outrun, in every reachable state: the channel may become active again without another call
      for it exactly when some start of it was under way at the stop - waiting for start_lock, holding it, past its
      check, or with its task spawned and still running. */
  lemma StopIsOutrunExactly(steps: seq<Step>, channel: string)
    requires Run(Init(), steps)
    ensures var m := Exec(Init(), steps);
            CanBecomeActive(Apply(m, Stop(channel)), channel) <==> exists id :: CanStillStart(m, channel, id)
  {
    RunKeepsInv(Init(), steps);
    var m := Exec(Init(), steps);
    var m' := Apply(m, Stop(channel));
    StepKeepsInv(m, Stop(channel));
    if id :| CanStillStart(m, channel, id) {
      assert CanStillStart(m', channel, id);
      PendingStarts(m', channel, id);
    } else {
      forall id | id in m'.starts ensures !CanStillStart(m', channel, id) {
        assert !CanStillStart(m, channel, id);
      }
      forall t | 0 <= t < |m'.tasks| && m'.tasks[t].channel == channel ensures m'.tasks[t].state != Running {
        if m'.tasks[t].state == Running {
          assert Tracked(m', t);
          assert CanStillStart(m', channel, m'.holder.value);
        }
      }
      forall more | ActiveAfter(m', more, channel) ensures false {
        QuietStays(m', more, channel);
      }
    }
  }

  lemma Prepend(m: Manager, step: Step, rest: seq<Step>)
    requires Enabled(m, step) && Run(Apply(m, step), rest)
    ensures Run(m, [step] + rest) && Exec(m, [step] + rest) == Exec(Apply(m, step), rest)
  {
    assert ([step] + rest)[1..] == rest;
  }

  /** Two such runs: the start has spawned its task at the stop, or it is still building its client. */
  lemma StopCanBeOutrun(channel: string)
    ensures var steps := [Call(0, channel), Acquire(0), Check(0), Spawn(0), Stop(channel), Insert(0)];
            Run(Init(), steps) && IsActive(Exec(Init(), steps), channel)
    ensures var steps := [Call(0, channel), Acquire(0), Check(0), Stop(channel), Spawn(0), Insert(0)];
            Run(Init(), steps) && IsActive(Exec(Init(), steps), channel)
  {
    assert {Spawn(0), Stop(channel)} == {Stop(channel), Spawn(0)};
    OutrunBy(channel, Spawn(0), Stop(channel));
    OutrunBy(channel, Stop(channel), Spawn(0));
  }

  lemma OutrunBy(channel: string, a: Step, b: Step)
    requires {a, b} == {Spawn(0), Stop(channel)}
    ensures var steps := [Call(0, channel), Acquire(0), Check(0), a, b, Insert(0)];
            Run(Init(), steps) && IsActive(Exec(Init(), steps), channel)
  {
    var building := Manager(map[], [], Some(0), map[0 := Cleared(channel)]);
    LastSteps(channel, a, b);
    FirstSteps(channel, building, [a, b, Insert(0)]);
    assert [Call(0, channel), Acquire(0), Check(0)] + [a, b, Insert(0)] ==
      [Call(0, channel), Acquire(0), Check(0), a, b, Insert(0)];
  }

  lemma LastSteps(channel: string, a: Step, b: Step)
    requires {a, b} == {Spawn(0), Stop(channel)}
    ensures var building := Manager(map[], [], Some(0), map[0 := Cleared(channel)]);
            Run(building, [a, b, Insert(0)]) && IsActive(Exec(building, [a, b, Insert(0)]), channel)
  {
    var building := Manager(map[], [], Some(0), map[0 := Cleared(channel)]);
    var spawned := Apply(Apply(building, a), b);
    assert spawned == Manager(map[], [Task(channel, Running)], Some(0), map[0 := Spawned(channel, 0)]);
    Prepend(spawned, Insert(0), []);
    assert [Insert(0)] + [] == [Insert(0)] && [b] + [Insert(0)] == [b, Insert(0)] &&
      [a] + [b, Insert(0)] == [a, b, Insert(0)];
    Prepend(Apply(building, a), b, [Insert(0)]);
    Prepend(building, a, [b, Insert(0)]);
  }

  lemma FirstSteps(channel: string, building: Manager, rest: seq<Step>)
    requires building == Manager(map[], [], Some(0), map[0 := Cleared(channel)]) && Run(building, rest)
    ensures var steps := [Call(0, channel), Acquire(0), Check(0)] + rest;
            Run(Init(), steps) && Exec(Init(), steps) == Exec(building, rest)
  {
    var m1 := Apply(Init(), Call(0, channel));
    var m2 := Apply(m1, Acquire(0));
    assert Apply(m2, Check(0)) == building;
    Prepend(m2, Check(0), rest);
    Prepend(m1, Acquire(0), [Check(0)] + rest);
    Prepend(Init(), Call(0, channel), [Acquire(0)] + ([Check(0)] + rest));
    assert [Call(0, channel)] + ([Acquire(0)] + ([Check(0)] + rest)) == [Call(0, channel), Acquire(0), Check(0)] + rest;
  }
}
