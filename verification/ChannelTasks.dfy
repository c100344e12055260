/** start_channel and stop_channel as they change the supervisors map. Each critical section is a method and takes
    the step of Supervisors with the same name, whoever else is at work in between. */
module ChannelTasks {
  import opened Wrappers
  import opened Supervisors

  class ChannelTasks {
    var supervisors: map<string, TaskId>
    var tasks: seq<Task>

    constructor ()
      ensures supervisors == map[] && tasks == []
    {
      supervisors, tasks := map[], [];
    }

    /** The fields are those of this state of the manager. */
    predicate Are(m: Manager)
      reads this
    {
      supervisors == m.supervisors && tasks == m.tasks
    }

    /** The same fields as a state of the manager in which nobody is starting. */
    function State(): Manager
      reads this
    {
      Manager(supervisors, tasks, None, map[])
    }

    method StopChannel(channel: string)
      modifies this
      ensures forall m :: old(Are(m)) ==> Are(Apply(m, Stop(channel)))
    {
      if channel in supervisors {
        var t := supervisors[channel];
        supervisors := supervisors - {channel};
        if t < |tasks| && tasks[t].state == Running {
          tasks := tasks[t := tasks[t].(state := Aborted)];
        }
      }
    }

    /** The first section of start_channel: leave if the channel is active, else drop its finished entry. */
    method ClearFinished(channel: string) returns (active: bool)
      modifies this
      ensures forall m, id :: old(Are(m)) && id in m.starts && m.starts[id] == Entered(channel) ==>
                Are(Apply(m, Check(id))) && (active <==> id !in Apply(m, Check(id)).starts)
      ensures active == IsActive(old(State()), channel)
      ensures tasks == old(tasks) && supervisors == if active then old(supervisors) else old(supervisors) - {channel}
    {
      active := channel in supervisors && supervisors[channel] < |tasks| &&
        tasks[supervisors[channel]].state == Running;
      if !active {
        supervisors := supervisors - {channel};
      }
    }

    method SpawnTask(channel: string) returns (t: TaskId)
      modifies this
      ensures t == old(|tasks|) && tasks == old(tasks) + [Task(channel, Running)] && supervisors == old(supervisors)
      ensures forall m, id :: old(Are(m)) && id in m.starts && m.starts[id] == Cleared(channel) ==>
                Are(Apply(m, Spawn(id))) && Apply(m, Spawn(id)).starts[id] == Spawned(channel, t)
    {
      t := |tasks|;
      tasks := tasks + [Task(channel, Running)];
    }

    method Register(channel: string, t: TaskId)
      modifies this
      ensures supervisors == old(supervisors)[channel := t] && tasks == old(tasks)
      ensures forall m, id :: old(Are(m)) && id in m.starts && m.starts[id] == Spawned(channel, t) ==>
              Are(Apply(m, Insert(id)))
    {
      supervisors := supervisors[channel := t];
    }

    /** start_channel with nothing else at work: built says whether the session store and the bot came up. The channel
        is active afterwards exactly when it was before or the bot came up; an active channel keeps its client, and no
        other channel's client is touched. */
    method StartChannel(channel: string, built: bool) returns (ok: bool)
      modifies this
      ensures ok <==> IsActive(State(), channel)
      ensures ok <==> IsActive(old(State()), channel) || built
      ensures IsActive(old(State()), channel) ==> State() == old(State())
      ensures old(tasks) <= tasks &&
              |tasks| == old(|tasks|) + (if built && !IsActive(old(State()), channel) then 1 else 0)
      ensures supervisors - {channel} == old(supervisors) - {channel}
    {
      var active := ClearFinished(channel);
      if active {
        return true;
      }
      if !built {
        return false;
      }
      var t := SpawnTask(channel);
      Register(channel, t);
      return true;
    }
  }
}
