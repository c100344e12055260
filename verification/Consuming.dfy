/** consume_one_message_with_inbox, with handle_message as its handler, as a sequence of steps. */
module Consuming {
  import opened Wrappers
  import opened EventBus
  import opened Tables
  import opened Pipeline

  /** What the outside does during one call: whether the inbox query, the deadletter insert, the inbox insert and the
      offset commit go through, and how the handler itself fails, if it does. */
  datatype ConsumeIo = ConsumeIo(checkOk: bool, failure: Option<string>, fileOk: bool, markOk: bool, commitOk: bool)

  function Outcome(io: ConsumeIo): HandlerOutcome {
    if io.failure.None? then Succeeded
    else if io.fileOk then FailedFiled(io.failure.value)
    else FailedUnfiled(io.failure.value)
  }

  /** The message decodes and its group's inbox could be read. */
  predicate Checked(env: Env, value: WireValue, io: ConsumeIo) {
    DecodeEvent(env, value).Some? && io.checkOk
  }

  predicate Duplicated(inbox: Inbox, slot: Slot, offset: nat, value: WireValue) {
    value.EventValue? && InboxProcessed(inbox, slot.group, value.event.eventId, SourceOf(slot, offset))
  }

  /** The handler runs. */
  predicate Runs(env: Env, inbox: Inbox, slot: Slot, offset: nat, value: WireValue, io: ConsumeIo) {
    Checked(env, value, io) && !Duplicated(inbox, slot, offset, value)
  }

  /** The handler ended with success or a stored deadletter, and the inbox insert goes through. */
  predicate Marks(env: Env, inbox: Inbox, slot: Slot, offset: nat, value: WireValue, io: ConsumeIo) {
    && Runs(env, inbox, slot, offset, value, io) && !Outcome(io).FailedUnfiled?
    && io.markOk && !OffsetTaken(inbox, slot.group, value.event.eventId, SourceOf(slot, offset))
  }

  predicate Commits(env: Env, inbox: Inbox, slot: Slot, offset: nat, value: WireValue, io: ConsumeIo) {
    && io.commitOk && Checked(env, value, io)
    && (Duplicated(inbox, slot, offset, value) || Marks(env, inbox, slot, offset, value, io))
  }

  function InboxAfterConsume(env: Env, inbox: Inbox, slot: Slot, offset: nat, value: WireValue, io: ConsumeIo): Inbox {
    if Marks(env, inbox, slot, offset, value, io)
    then MarkProcessed(inbox, slot.group, value.event.eventId, SourceOf(slot, offset)) else inbox
  }

  function DeadlettersAfterConsume(env: Env, rows: Deadletters, inbox: Inbox, slot: Slot, offset: nat, value: WireValue,
                                   io: ConsumeIo): Deadletters {
    if Runs(env, inbox, slot, offset, value, io) && Outcome(io).FailedFiled?
    then InsertDeadletter(env, rows, DeadLetterEnvelope(value.event, 1, io.failure.value), Some(slot.topic),
                          env.keyOf(value.event))
    else rows
  }

  /** The steps one call takes. */
  function ConsumeTrace(env: Env, inbox: Inbox, slot: Slot, offset: nat, value: WireValue,
                        io: ConsumeIo): seq<ConsumerAct> {
    if DecodeEvent(env, value).None? then [Deliver(offset)]
    else if !io.checkOk then [Deliver(offset), CheckInbox(false)]
    else if Duplicated(inbox, slot, offset, value) then [Deliver(offset), CheckInbox(true), CommitOffset(io.commitOk)]
    else if Outcome(io).FailedUnfiled? then [Deliver(offset), CheckInbox(true), Handle(Outcome(io))]
    else if !Marks(env, inbox, slot, offset, value, io) then
      [Deliver(offset), CheckInbox(true), Handle(Outcome(io)), MarkInbox(false)]
    else [Deliver(offset), CheckInbox(true), Handle(Outcome(io)), MarkInbox(true), CommitOffset(io.commitOk)]
  }

  ghost predicate MovesRun(env: Env, s: State, slot: Slot, moves: seq<ConsumerAct>)
    decreases |moves|
  {
    moves == [] ||
    (ConsumerEnabled(s, slot, moves[0]) && MovesRun(env, ApplyConsumer(env, s, slot, moves[0]), slot, moves[1..]))
  }

  ghost function ExecMoves(env: Env, s: State, slot: Slot, moves: seq<ConsumerAct>): State
    requires MovesRun(env, s, slot, moves)
    decreases |moves|
  {
    if moves == [] then s else ExecMoves(env, ApplyConsumer(env, s, slot, moves[0]), slot, moves[1..])
  }

  /** What is left of a call once the consumer has reached the given delivery. */
  ghost predicate RestGives(env: Env, s: State, slot: Slot, moves: seq<ConsumerAct>, inbox: Inbox,
                            deadletters: Deadletters, committed: set<(string, SourceOffset)>) {
    && MovesRun(env, s, slot, moves)
    && var s' := ExecMoves(env, s, slot, moves);
       && s'.inbox == inbox && s'.deadletters == deadletters && s'.committed == committed
       && slot !in s'.consumers && forall x :: x != slot ==> (x in s'.consumers <==> x in s.consumers)
  }

  lemma FirstMove(env: Env, s: State, slot: Slot, move: ConsumerAct, rest: seq<ConsumerAct>, inbox: Inbox,
                  deadletters: Deadletters, committed: set<(string, SourceOffset)>)
    requires ConsumerEnabled(s, slot, move)
    requires RestGives(env, ApplyConsumer(env, s, slot, move), slot, rest, inbox, deadletters, committed)
    ensures RestGives(env, s, slot, [move] + rest, inbox, deadletters, committed)
  {
    assert ([move] + rest)[1..] == rest;
  }

  lemma NoMoves(env: Env, s: State, slot: Slot)
    requires slot !in s.consumers
    ensures RestGives(env, s, slot, [], s.inbox, s.deadletters, s.committed)
  {
  }

  function CommittedWith(s: State, slot: Slot, offset: nat, ok: bool): set<(string, SourceOffset)> {
    if ok then s.committed + {(slot.group, SourceOf(slot, offset))} else s.committed
  }

  lemma FromCommitting(env: Env, s: State, slot: Slot, offset: nat, event: CommonEvent, ok: bool)
    requires slot in s.consumers && s.consumers[slot] == Committing(offset, event)
    ensures RestGives(env, s, slot, [CommitOffset(ok)], s.inbox, s.deadletters, CommittedWith(s, slot, offset, ok))
  {
    NoMoves(env, ApplyConsumer(env, s, slot, CommitOffset(ok)), slot);
    FirstMove(env, s, slot, CommitOffset(ok), [], s.inbox, s.deadletters, CommittedWith(s, slot, offset, ok));
    assert [CommitOffset(ok)] + [] == [CommitOffset(ok)];
  }

  lemma FromHandled(env: Env, s: State, slot: Slot, offset: nat, event: CommonEvent, status: HandlerStatus,
                    marks: bool, ok: bool)
    requires slot in s.consumers && s.consumers[slot] == Handled(offset, event, status)
    requires marks ==> !OffsetTaken(s.inbox, slot.group, event.eventId, SourceOf(slot, offset))
    ensures !marks ==> RestGives(env, s, slot, [MarkInbox(false)], s.inbox, s.deadletters, s.committed)
    ensures marks ==> RestGives(env, s, slot, [MarkInbox(true), CommitOffset(ok)],
                                MarkProcessed(s.inbox, slot.group, event.eventId, SourceOf(slot, offset)),
                                s.deadletters, CommittedWith(s, slot, offset, ok))
  {
    var s1 := ApplyConsumer(env, s, slot, MarkInbox(marks));
    if marks {
      FromCommitting(env, s1, slot, offset, event, ok);
      FirstMove(env, s, slot, MarkInbox(true), [CommitOffset(ok)], s1.inbox, s.deadletters,
                CommittedWith(s, slot, offset, ok));
      assert [MarkInbox(true)] + [CommitOffset(ok)] == [MarkInbox(true), CommitOffset(ok)];
    } else {
      NoMoves(env, s1, slot);
      FirstMove(env, s, slot, MarkInbox(false), [], s.inbox, s.deadletters, s.committed);
      assert [MarkInbox(false)] + [] == [MarkInbox(false)];
    }
  }

  /** The moves lead from s to the tables a call leaves. */
  ghost predicate CallEnds(env: Env, s: State, slot: Slot, offset: nat, value: WireValue, io: ConsumeIo,
                           moves: seq<ConsumerAct>) {
    RestGives(env, s, slot, moves, InboxAfterConsume(env, s.inbox, slot, offset, value, io),
              DeadlettersAfterConsume(env, s.deadletters, s.inbox, slot, offset, value, io),
              CommittedWith(s, slot, offset, Commits(env, s.inbox, slot, offset, value, io)))
  }

  /** The last moves of a call whose handler runs. */
  function HandlerMoves(io: ConsumeIo, marks: bool): seq<ConsumerAct> {
    [Handle(Outcome(io))] +
    (if Outcome(io).FailedUnfiled? then [] else if !marks then [MarkInbox(false)]
     else [MarkInbox(true), CommitOffset(io.commitOk)])
  }

  lemma FromHandling(env: Env, s: State, slot: Slot, offset: nat, value: WireValue, io: ConsumeIo)
    requires Runs(env, s.inbox, slot, offset, value, io)
    requires slot in s.consumers && s.consumers[slot] == Handling(offset, value.event)
    ensures CallEnds(env, s, slot, offset, value, io, HandlerMoves(io, Marks(env, s.inbox, slot, offset, value, io)))
  {
    var move := Handle(Outcome(io));
    var s1 := ApplyConsumer(env, s, slot, move);
    var marks := Marks(env, s.inbox, slot, offset, value, io);
    if Outcome(io).FailedUnfiled? {
      NoMoves(env, s1, slot);
    } else {
      FromHandled(env, s1, slot, offset, value.event, if io.failure.None? then Processed else DeadLettered, marks,
                  io.commitOk);
    }
    FirstMove(env, s, slot, move, HandlerMoves(io, marks)[1..],
              InboxAfterConsume(env, s.inbox, slot, offset, value, io),
              DeadlettersAfterConsume(env, s.deadletters, s.inbox, slot, offset, value, io),
              CommittedWith(s, slot, offset, Commits(env, s.inbox, slot, offset, value, io)));
    assert [move] + HandlerMoves(io, marks)[1..] == HandlerMoves(io, marks);
  }

  /** A move that leaves the tables alone. */
  lemma FirstQuietMove(env: Env, s: State, slot: Slot, offset: nat, value: WireValue, io: ConsumeIo, move: ConsumerAct,
                       rest: seq<ConsumerAct>)
    requires (move.CheckInbox? || move.Deliver?) && ConsumerEnabled(s, slot, move)
    requires CallEnds(env, ApplyConsumer(env, s, slot, move), slot, offset, value, io, rest)
    ensures CallEnds(env, s, slot, offset, value, io, [move] + rest)
  {
    FirstMove(env, s, slot, move, rest, InboxAfterConsume(env, s.inbox, slot, offset, value, io),
              DeadlettersAfterConsume(env, s.deadletters, s.inbox, slot, offset, value, io),
              CommittedWith(s, slot, offset, Commits(env, s.inbox, slot, offset, value, io)));
  }

  lemma FromReceived(env: Env, s: State, slot: Slot, offset: nat, value: WireValue, io: ConsumeIo)
    requires DecodeEvent(env, value).Some?
    requires slot in s.consumers && s.consumers[slot] == Received(offset, value.event)
    ensures CallEnds(env, s, slot, offset, value, io, ConsumeTrace(env, s.inbox, slot, offset, value, io)[1..])
  {
    var trace := ConsumeTrace(env, s.inbox, slot, offset, value, io);
    FromChecked(env, s, slot, offset, value, io);
    FirstQuietMove(env, s, slot, offset, value, io, CheckInbox(io.checkOk), trace[2..]);
    assert [CheckInbox(io.checkOk)] + trace[2..] == trace[1..];
  }

  lemma FromChecked(env: Env, s: State, slot: Slot, offset: nat, value: WireValue, io: ConsumeIo)
    requires DecodeEvent(env, value).Some?
    requires slot in s.consumers && s.consumers[slot] == Received(offset, value.event)
    ensures CallEnds(env, ApplyConsumer(env, s, slot, CheckInbox(io.checkOk)), slot, offset, value, io,
                     ConsumeTrace(env, s.inbox, slot, offset, value, io)[2..])
  {
    var trace := ConsumeTrace(env, s.inbox, slot, offset, value, io);
    var s1 := ApplyConsumer(env, s, slot, CheckInbox(io.checkOk));
    if !io.checkOk {
      NoMoves(env, s1, slot);
    } else if Duplicated(s.inbox, slot, offset, value) {
      FromCommitting(env, s1, slot, offset, value.event, io.commitOk);
    } else {
      FromHandling(env, s1, slot, offset, value, io);
      assert trace[2..] == HandlerMoves(io, Marks(env, s.inbox, slot, offset, value, io));
    }
  }

  /** Every branch of consume_one_message_with_inbox is a sequence of allowed steps: it frees the slot and leaves
      inbox, deadletters and commits as the functions above say. */
  lemma ConsumeIsSteps(env: Env, s: State, slot: Slot, offset: nat, io: ConsumeIo)
    requires slot !in s.consumers && offset < |Contents(s.log, slot.topic, slot.partition)|
    ensures var value := Contents(s.log, slot.topic, slot.partition)[offset].value;
            CallEnds(env, s, slot, offset, value, io, ConsumeTrace(env, s.inbox, slot, offset, value, io))
  {
    var value := Contents(s.log, slot.topic, slot.partition)[offset].value;
    var trace := ConsumeTrace(env, s.inbox, slot, offset, value, io);
    var s1 := ApplyConsumer(env, s, slot, Deliver(offset));
    if DecodeEvent(env, value).Some? {
      FromReceived(env, s1, slot, offset, value, io);
    } else {
      NoMoves(env, s1, slot);
    }
    FirstQuietMove(env, s, slot, offset, value, io, Deliver(offset), trace[1..]);
    assert [Deliver(offset)] + trace[1..] == trace;
  }
}
