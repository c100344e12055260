/** publish_outbox_record as a sequence of steps, and what it leaves in the outbox. */
module Publishing {
  import opened Wrappers
  import opened EventBus
  import opened Tables
  import opened Pipeline

  /** What the outside does during one call: the text of a local error, the two sends, and whether the deadletter
      insert and the mark reach the database. */
  datatype PublishIo = PublishIo(error: string, send: SendOutcome, relay: SendOutcome, fileOk: bool, markOk: bool)

  /** A mark takes effect when the database is reached and attempt_count can still grow. */
  predicate MarkLands(rows: Outbox, c: Claimed, io: PublishIo) {
    io.markOk && CountFits(rows, c.eventId)
  }

  /** publish_deadletter encodes before it sends. */
  function RelayOutcome(env: Env, c: Claimed, io: PublishIo): SendOutcome {
    if io.send.Delivered? || EncodeDeadletter(env, ExhaustedEnvelope(c, io.send.error)).Err? then
      NotSent("not encodable")
    else io.relay
  }

  /** The steps one call takes, branch by branch. */
  function Trace(env: Env, rows: Outbox, c: Claimed, io: PublishIo): seq<PublisherAct> {
    var lands := MarkLands(rows, c, io);
    if c.payload.Unreadable? then [MarkUndecodable(io.error, lands)]
    else if !Encodes(env, c.payload.event) then [RefuseEncode(io.error, lands), FileRefused(io.fileOk)]
    else if io.send.Delivered? then [Send(io.send), ConfirmPublished(lands)]
    else if Exhausted(env, c) then
      [Send(io.send), FileExhausted(io.fileOk), RelayExhausted(RelayOutcome(env, c, io)), BuryExhausted(lands)]
    else [Send(io.send), ScheduleRetry(lands)]
  }

  ghost predicate ActsRun(env: Env, s: State, w: string, acts: seq<PublisherAct>)
    decreases |acts|
  {
    acts == [] ||
    (PublisherEnabled(env, s, w, acts[0]) && ActsRun(env, ApplyPublisher(env, s, w, acts[0]), w, acts[1..]))
  }

  ghost function ExecActs(env: Env, s: State, w: string, acts: seq<PublisherAct>): State
    requires ActsRun(env, s, w, acts)
    decreases |acts|
  {
    if acts == [] then s else ExecActs(env, ApplyPublisher(env, s, w, acts[0]), w, acts[1..])
  }

  /** event_outbox after the call. position is where an acknowledged record went. */
  function OutboxAfterCall(env: Env, rows: Outbox, log: Log, c: Claimed, io: PublishIo, now: Time): Outbox {
    if !MarkLands(rows, c, io) then rows
    else if c.payload.Unreadable? then MarkFailed(rows, c.eventId, io.error, 60, now)
    else if !Encodes(env, c.payload.event) then MarkDeadlettered(rows, c.eventId, io.error)
    else if io.send.Delivered? then
      MarkPublished(rows, c.eventId, Position(io.send.partition, |Contents(log, c.topic, io.send.partition)|), now)
    else if Exhausted(env, c) then MarkDeadlettered(rows, c.eventId, io.send.error)
    else MarkFailed(rows, c.eventId, io.send.error, Backoff(NextAttempt(c.attemptCount)), now)
  }

  /** kafka_deadletters after the call. */
  function DeadlettersAfterCall(env: Env, rows: Deadletters, c: Claimed, io: PublishIo): Deadletters {
    if c.payload.Unreadable? || !io.fileOk then rows
    else if !Encodes(env, c.payload.event) then
      InsertDeadletter(env, rows, DeadLetterEnvelope(c.payload.event, c.attemptCount + 1, io.error), Some(c.topic),
                       c.partitionKey)
    else if io.send.Delivered? || !Exhausted(env, c) then rows
    else InsertDeadletter(env, rows, ExhaustedEnvelope(c, io.send.error), Some(c.topic), c.partitionKey)
  }

  /** The broker's log after the call. */
  function LogAfterCall(env: Env, log: Log, c: Claimed, io: PublishIo): Log {
    if c.payload.Unreadable? || !Encodes(env, c.payload.event) then log
    else
      var sent := AfterSend(log, c.topic, Record(c.partitionKey, EventValue(c.payload.event)), io.send);
      if io.send.Delivered? || !Exhausted(env, c) then sent
      else AfterSend(sent, DeadletterTopic(env.kafka),
                     Record(env.keyOf(c.payload.event), EnvelopeValue(ExhaustedEnvelope(c, io.send.error))),
                     RelayOutcome(env, c, io))
  }

  /** The worker is about to publish the first record of its batch. */
  predicate AtRecord(s: State, w: string, c: Claimed) {
    Busy(s, w) && s.publishers[w].phase.Ready? && Head(s, w) == c
  }

  lemma RunOne(env: Env, s: State, w: string, act: PublisherAct)
    requires PublisherEnabled(env, s, w, act)
    ensures ActsRun(env, s, w, [act]) && ExecActs(env, s, w, [act]) == ApplyPublisher(env, s, w, act)
  {
    assert ActsRun(env, ApplyPublisher(env, s, w, act), w, []);
    assert [act][1..] == [];
  }

  lemma RunTwo(env: Env, s: State, s1: State, w: string, a: PublisherAct, b: PublisherAct)
    requires PublisherEnabled(env, s, w, a) && s1 == ApplyPublisher(env, s, w, a)
    requires PublisherEnabled(env, s1, w, b)
    ensures ActsRun(env, s, w, [a, b])
    ensures ExecActs(env, s, w, [a, b]) == ApplyPublisher(env, s1, w, b)
  {
    assert [a, b][1..] == [b];
    RunOne(env, s1, w, b);
  }

  lemma RunFour(env: Env, s: State, s1: State, s2: State, s3: State, w: string,
                a: PublisherAct, b: PublisherAct, c: PublisherAct, d: PublisherAct)
    requires PublisherEnabled(env, s, w, a) && s1 == ApplyPublisher(env, s, w, a)
    requires PublisherEnabled(env, s1, w, b) && s2 == ApplyPublisher(env, s1, w, b)
    requires PublisherEnabled(env, s2, w, c) && s3 == ApplyPublisher(env, s2, w, c)
    requires PublisherEnabled(env, s3, w, d)
    ensures ActsRun(env, s, w, [a, b, c, d])
    ensures ExecActs(env, s, w, [a, b, c, d]) == ApplyPublisher(env, s3, w, d)
  {
    RunTwo(env, s2, s3, w, c, d);
    assert [a, b, c, d][1..] == [b, c, d];
    assert [b, c, d][1..] == [c, d];
  }

  /** The state after the call, if the call's steps can be taken from s. */
  ghost predicate CallGives(env: Env, s: State, w: string, c: Claimed, io: PublishIo) {
    var acts := Trace(env, s.outbox, c, io);
    && ActsRun(env, s, w, acts)
    && var s' := ExecActs(env, s, w, acts);
       && s'.outbox == OutboxAfterCall(env, s.outbox, s.log, c, io, s.now)
       && s'.deadletters == DeadlettersAfterCall(env, s.deadletters, c, io)
       && s'.log == LogAfterCall(env, s.log, c, io)
       && s'.publishers == s.publishers[w := Publisher(s.publishers[w].todo[1..], Ready)]
  }

  /** The worker stands in the given phase of the same record; only its own counter differs from before. */
  ghost predicate Moved(s: State, s': State, w: string, phase: Phase) {
    && Busy(s, w) && s'.outbox == s.outbox && s'.now == s.now
    && s'.publishers == s.publishers[w := s.publishers[w].(phase := phase)]
  }

  /** The phase a send leads to. */
  function PhaseAfterSend(s: State, c: Claimed, outcome: SendOutcome): Phase {
    if outcome.Delivered? then Acked(Position(outcome.partition, |Contents(s.log, c.topic, outcome.partition)|))
    else SendFailed(outcome.error)
  }

  lemma SendMoves(env: Env, s: State, w: string, outcome: SendOutcome)
    requires PublisherEnabled(env, s, w, Send(outcome))
    ensures var s1 := ApplyPublisher(env, s, w, Send(outcome));
            var c := Head(s, w);
            && Moved(s, s1, w, PhaseAfterSend(s, c, outcome)) && s1.deadletters == s.deadletters
            && s1.log == AfterSend(s.log, c.topic, Record(c.partitionKey, EventValue(c.payload.event)), outcome)
  {
  }

  /** The marks that end a call. */
  lemma MarkFinishes(env: Env, s: State, s1: State, w: string, phase: Phase, mark: PublisherAct)
    requires Moved(s, s1, w, phase) && (mark.ConfirmPublished? || mark.ScheduleRetry? || mark.BuryExhausted?)
    requires PublisherEnabled(env, s1, w, mark)
    ensures var s2 := ApplyPublisher(env, s1, w, mark);
            var c := Head(s, w);
            && s2.deadletters == s1.deadletters && s2.log == s1.log
            && s2.publishers == s.publishers[w := Publisher(s.publishers[w].todo[1..], Ready)]
            && s2.outbox == if !mark.dbOk then s.outbox
                            else if mark.ConfirmPublished? then
                              MarkPublished(s.outbox, c.eventId, phase.position, s.now)
                            else if mark.BuryExhausted? then MarkDeadlettered(s.outbox, c.eventId, phase.error)
                            else MarkFailed(s.outbox, c.eventId, phase.error, Backoff(NextAttempt(c.attemptCount)),
                                            s.now)
  {
  }

  lemma UndecodableCall(env: Env, s: State, w: string, c: Claimed, io: PublishIo)
    requires AtRecord(s, w, c) && c.payload.Unreadable?
    ensures CallGives(env, s, w, c, io)
  {
    RunOne(env, s, w, MarkUndecodable(io.error, MarkLands(s.outbox, c, io)));
  }

  lemma RefusedCall(env: Env, s: State, w: string, c: Claimed, io: PublishIo)
    requires AtRecord(s, w, c) && c.payload.Readable? && !Encodes(env, c.payload.event)
    ensures CallGives(env, s, w, c, io)
  {
    var refuse := RefuseEncode(io.error, MarkLands(s.outbox, c, io));
    RunTwo(env, s, ApplyPublisher(env, s, w, refuse), w, refuse, FileRefused(io.fileOk));
  }

  /** A send and a mark. */
  lemma SentAndMarked(env: Env, s: State, w: string, c: Claimed, outcome: SendOutcome, mark: PublisherAct)
    requires AtRecord(s, w, c) && c.payload.Readable? && Encodes(env, c.payload.event)
    requires if outcome.Delivered? then mark.ConfirmPublished? else mark.ScheduleRetry? && !Exhausted(env, c)
    requires mark.dbOk ==> CountFits(s.outbox, c.eventId)
    ensures ActsRun(env, s, w, [Send(outcome), mark])
    ensures var s' := ExecActs(env, s, w, [Send(outcome), mark]);
            var phase := PhaseAfterSend(s, c, outcome);
            && s'.deadletters == s.deadletters
            && s'.log == AfterSend(s.log, c.topic, Record(c.partitionKey, EventValue(c.payload.event)), outcome)
            && s'.publishers == s.publishers[w := Publisher(s.publishers[w].todo[1..], Ready)]
            && s'.outbox == if !mark.dbOk then s.outbox
                            else if outcome.Delivered? then MarkPublished(s.outbox, c.eventId, phase.position, s.now)
                            else MarkFailed(s.outbox, c.eventId, phase.error, Backoff(NextAttempt(c.attemptCount)),
                                            s.now)
  {
    SendMoves(env, s, w, outcome);
    var s1 := ApplyPublisher(env, s, w, Send(outcome));
    MarkFinishes(env, s, s1, w, PhaseAfterSend(s, c, outcome), mark);
    RunTwo(env, s, s1, w, Send(outcome), mark);
  }

  lemma PublishedCall(env: Env, s: State, w: string, c: Claimed, io: PublishIo)
    requires AtRecord(s, w, c) && c.payload.Readable? && Encodes(env, c.payload.event) && io.send.Delivered?
    ensures CallGives(env, s, w, c, io)
  {
    SentAndMarked(env, s, w, c, io.send, ConfirmPublished(MarkLands(s.outbox, c, io)));
  }

  lemma RetriedCall(env: Env, s: State, w: string, c: Claimed, io: PublishIo)
    requires AtRecord(s, w, c) && c.payload.Readable? && Encodes(env, c.payload.event) && !io.send.Delivered?
    requires !Exhausted(env, c)
    ensures CallGives(env, s, w, c, io)
  {
    SentAndMarked(env, s, w, c, io.send, ScheduleRetry(MarkLands(s.outbox, c, io)));
  }

  lemma FilingMoves(env: Env, s: State, s1: State, w: string, error: string, fileOk: bool)
    requires Moved(s, s1, w, SendFailed(error)) && PublisherEnabled(env, s1, w, FileExhausted(fileOk))
    ensures var s2 := ApplyPublisher(env, s1, w, FileExhausted(fileOk));
            var c := Head(s, w);
            && Moved(s, s2, w, Filed(error)) && s2.log == s1.log
            && s2.deadletters == if fileOk then
               InsertDeadletter(env, s1.deadletters, ExhaustedEnvelope(c, error), Some(c.topic), c.partitionKey)
                                 else s1.deadletters
  {
  }

  lemma RelayMoves(env: Env, s: State, s2: State, w: string, error: string, outcome: SendOutcome)
    requires Moved(s, s2, w, Filed(error)) && PublisherEnabled(env, s2, w, RelayExhausted(outcome))
    ensures var s3 := ApplyPublisher(env, s2, w, RelayExhausted(outcome));
            var c := Head(s, w);
            && Moved(s, s3, w, Relayed(error)) && s3.deadletters == s2.deadletters
            && s3.log == AfterSend(s2.log, DeadletterTopic(env.kafka),
                                   Record(env.keyOf(c.payload.event), EnvelopeValue(ExhaustedEnvelope(c, error))),
                                   outcome)
  {
  }

  lemma ExhaustedPath(env: Env, s: State, w: string, c: Claimed, io: PublishIo)
    returns (s1: State, s2: State, s3: State)
    requires AtRecord(s, w, c) && c.payload.Readable? && Encodes(env, c.payload.event) && !io.send.Delivered?
    requires Exhausted(env, c)
    ensures PublisherEnabled(env, s, w, Send(io.send)) && s1 == ApplyPublisher(env, s, w, Send(io.send))
    ensures PublisherEnabled(env, s1, w, FileExhausted(io.fileOk)) &&
            s2 == ApplyPublisher(env, s1, w, FileExhausted(io.fileOk))
    ensures var relay := RelayExhausted(RelayOutcome(env, c, io));
            PublisherEnabled(env, s2, w, relay) && s3 == ApplyPublisher(env, s2, w, relay)
    ensures Moved(s, s3, w, Relayed(io.send.error))
    ensures s3.deadletters == DeadlettersAfterCall(env, s.deadletters, c, io) &&
            s3.log == LogAfterCall(env, s.log, c, io)
  {
    var error, relay := io.send.error, RelayOutcome(env, c, io);
    SendMoves(env, s, w, io.send);
    s1 := ApplyPublisher(env, s, w, Send(io.send));
    FilingMoves(env, s, s1, w, error, io.fileOk);
    s2 := ApplyPublisher(env, s1, w, FileExhausted(io.fileOk));
    RelayMoves(env, s, s2, w, error, relay);
    s3 := ApplyPublisher(env, s2, w, RelayExhausted(relay));
  }

  lemma ExhaustedCall(env: Env, s: State, w: string, c: Claimed, io: PublishIo)
    requires AtRecord(s, w, c) && c.payload.Readable? && Encodes(env, c.payload.event) && !io.send.Delivered?
    requires Exhausted(env, c)
    ensures CallGives(env, s, w, c, io)
  {
    var s1, s2, s3 := ExhaustedPath(env, s, w, c, io);
    var lands := MarkLands(s.outbox, c, io);
    MarkFinishes(env, s, s3, w, Relayed(io.send.error), BuryExhausted(lands));
    RunFour(env, s, s1, s2, s3, w,
            Send(io.send), FileExhausted(io.fileOk), RelayExhausted(RelayOutcome(env, c, io)), BuryExhausted(lands));
  }

  /** Every branch of publish_outbox_record is a sequence of allowed steps: it finishes the record, moves the worker
      to the next one, and leaves the tables and the log as the three functions above say. */
  lemma CallIsSteps(env: Env, s: State, w: string, c: Claimed, io: PublishIo)
    requires AtRecord(s, w, c)
    ensures CallGives(env, s, w, c, io)
  {
    if c.payload.Unreadable? {
      UndecodableCall(env, s, w, c, io);
    } else if !Encodes(env, c.payload.event) {
      RefusedCall(env, s, w, c, io);
    } else if io.send.Delivered? {
      PublishedCall(env, s, w, c, io);
    } else if Exhausted(env, c) {
      ExhaustedCall(env, s, w, c, io);
    } else {
      RetriedCall(env, s, w, c, io);
    }
  }
}
