/** The event tables as the mutable store of src/db.rs. Each method is one statement or one transaction; reached is
    false when the database cannot be reached, in which case nothing changes. */
module MetadataDb {
  import opened Wrappers
  import opened EventBus
  import opened Tables
  import opened Progress

  class MetadataDb {
    const env: Env
    var outbox: Outbox
    var deadletters: Deadletters
    var inbox: Inbox
    var snapshot: set<string>

    constructor (env: Env)
      ensures this.env == env && outbox == map[] && deadletters == [] && inbox == map[] && snapshot == {}
    {
      this.env := env;
      outbox, deadletters, inbox, snapshot := map[], [], map[], {};
    }

    method InsertEventOutbox(event: CommonEvent, topic: string, key: string, now: Time, reached: bool)
      returns (ok: bool)
      modifies this`outbox
      ensures ok == reached
      ensures outbox == if ok then Insert(env, old(outbox), event, topic, key, now) else old(outbox)
    {
      ok := reached;
      if !reached {
        return;
      }
      var id := event.eventId;
      if id in outbox {
        var row := outbox[id];
        var status := if row.status == Published then Published else Queued;
        outbox := outbox[id := row.(eventType := event.eventType, topic := topic, partitionKey := key,
                                    payload := Stored(env, event), status := status)];
      } else {
        outbox := outbox[id := FreshRow(env, event, topic, key, now)];
      }
    }

    /** choice is what the SELECT .. FOR UPDATE SKIP LOCKED of the claim returned; locked are the rows that other
        transactions have locked at that moment. */
    method ClaimEventOutboxBatch(worker: string, limit: nat, lockSeconds: int, now: Time, locked: set<string>,
                                 choice: seq<string>)
      returns (records: seq<Claimed>)
      requires ValidChoice(outbox - locked, choice, limit, now)
      modifies this`outbox
      ensures outbox == Claim(old(outbox), choice, worker, SecondsFrom(now, lockSeconds))
      ensures forall x, y :: x in choice && y in old(outbox) && y !in locked && y !in choice ==>
                var claimed, waiting := old(outbox)[x], old(outbox)[y];
                Claimable(claimed, now) &&
                (Claimable(waiting, now) ==>
                   && |choice| == limit
                   && (|| claimed.availableAt < waiting.availableAt
                       || (claimed.availableAt == waiting.availableAt && claimed.createdAt <= waiting.createdAt)))
      ensures records == Batch(old(outbox), choice, SecondsFrom(now, lockSeconds))
    {
      OldestFirst(outbox - locked, choice, limit, now);
      var until := SecondsFrom(now, lockSeconds);
      records := [];
      var i := 0;
      while i < |choice|
        invariant 0 <= i <= |choice|
        invariant outbox == Claim(old(outbox), choice[..i], worker, until)
        invariant records == Batch(old(outbox), choice, until)[..i]
      {
        var id := choice[i];
        assert id in choice;
        assert choice[..i + 1] == choice[..i] + [id];
        assert id !in choice[..i];
        outbox := outbox[id := ClaimRow(outbox[id], worker, until)];
        records := records + [Returned(outbox, id, until)];
        i := i + 1;
      }
      assert choice[..i] == choice;
    }

    method MarkEventOutboxPublished(id: string, position: Position, now: Time, reached: bool) returns (ok: bool)
      modifies this`outbox
      ensures ok == (reached && CountFits(old(outbox), id))
      ensures outbox == if ok then MarkPublished(old(outbox), id, position, now) else old(outbox)
    {
      ok := reached && CountFits(outbox, id);
      if ok && id in outbox {
        var row := outbox[id];
        outbox := outbox[id := row.(status := Published, attemptCount := row.attemptCount + 1,
                                    recorded := Some(position), lastError := None, publishedAt := Some(now))];
      }
    }

    method MarkEventOutboxFailed(id: string, error: string, retryAfterSeconds: int, now: Time, reached: bool)
      returns (ok: bool)
      modifies this`outbox
      ensures ok == (reached && CountFits(old(outbox), id))
      ensures outbox == if ok then MarkFailed(old(outbox), id, error, retryAfterSeconds, now) else old(outbox)
    {
      ok := reached && CountFits(outbox, id);
      if ok && id in outbox {
        var row := outbox[id];
        outbox := outbox[id := row.(status := Failed, attemptCount := row.attemptCount + 1, lastError := Some(error),
                                    lockedBy := None, lockedUntil := None,
                                    nextAttemptAt := SecondsFrom(now, retryAfterSeconds))];
      }
    }

    method MarkEventOutboxDeadlettered(id: string, error: string, reached: bool) returns (ok: bool)
      modifies this`outbox
      ensures ok == (reached && CountFits(old(outbox), id))
      ensures outbox == if ok then MarkDeadlettered(old(outbox), id, error) else old(outbox)
    {
      ok := reached && CountFits(outbox, id);
      if ok && id in outbox {
        var row := outbox[id];
        outbox := outbox[id := row.(status := Deadlettered, attemptCount := row.attemptCount + 1,
                                    lastError := Some(error), lockedBy := None, lockedUntil := None)];
      }
    }

    method InsertKafkaDeadletter(envelope: DeadLetterEnvelope, topic: Option<string>, key: string, reached: bool)
      returns (ok: bool)
      modifies this`deadletters
      ensures ok == reached
      ensures deadletters == if ok then InsertDeadletter(env, old(deadletters), envelope, topic, key)
              else old(deadletters)
    {
      ok := reached;
      if reached {
        deadletters := deadletters +
          [DeadletterRow(envelope.event.eventId, topic, key, envelope.retryCount, envelope.errorCode,
                                                    Stored(env, envelope.event), None, None)];
      }
    }

    method EventInboxProcessed(group: string, eventId: string, at: SourceOffset, reached: bool)
      returns (r: Result<bool, EventBusError>)
      ensures r == if reached then Ok(InboxProcessed(inbox, group, eventId, at))
              else Err(Kafka("failed to check Kafka inbox event"))
    {
      if !reached {
        return Err(Kafka("failed to check Kafka inbox event"));
      }
      return Ok(InboxProcessed(inbox, group, eventId, at));
    }

    /** Fails on UNIQUE(consumer_group, topic, partition, offset_value) as well as when the database is away. */
    method MarkEventInboxProcessed(group: string, eventId: string, at: SourceOffset, reached: bool) returns (ok: bool)
      modifies this`inbox
      ensures ok == (reached && !OffsetTaken(old(inbox), group, eventId, at))
      ensures inbox == if ok then MarkProcessed(old(inbox), group, eventId, at) else old(inbox)
    {
      ok := reached && !OffsetTaken(inbox, group, eventId, at);
      if ok {
        inbox := inbox[(group, eventId) := at];
      }
    }

    /** Ok(None): no such row, or replayed already. Err: the stored payload does not decode, or no database. */
    method ReplayKafkaDeadletter(id: nat, who: string, now: Time, reached: bool)
      returns (r: Result<Option<string>, EventBusError>)
      modifies this`outbox, this`deadletters
      ensures r.Err? || r == Ok(None) ==> outbox == old(outbox) && deadletters == old(deadletters)
      ensures r == Ok(None) <==> reached && (id >= |old(deadletters)| || old(deadletters)[id].replayedAt.Some?)
      ensures r.Ok? && r.value.Some? <==> reached && Replayable(old(deadletters), id)
      ensures r.Ok? && r.value.Some? ==>
                && r.value.value == old(deadletters)[id].payload.event.eventId
                && outbox == Requeue(env, old(outbox), old(deadletters)[id].payload.event,
                                     old(deadletters)[id].payload, now)
                && deadletters == StampReplayed(old(deadletters), id, who, now)
    {
      if !reached {
        return Err(Kafka("failed to begin replay transaction"));
      }
      if id >= |deadletters| || deadletters[id].replayedAt.Some? {
        return Ok(None);
      }
      var payload := deadletters[id].payload;
      if payload.Unreadable? {
        return Err(Kafka("failed to decode Kafka deadletter payload"));
      }
      var event := payload.event;
      if event.eventId in outbox {
        var row := outbox[event.eventId];
        var requeued := row.(status := Queued, topic := env.topicOf(event), partitionKey := env.keyOf(event),
                             payload := payload, nextAttemptAt := now, lockedBy := None, lockedUntil := None);
        outbox := outbox[event.eventId := requeued];
      } else {
        var added := FreshRow(env, event, env.topicOf(event), env.keyOf(event), now);
        outbox := outbox[event.eventId := added.(payload := payload)];
      }
      deadletters := deadletters[id := deadletters[id].(replayedAt := Some(now), replayedBy := Some(who))];
      return Ok(Some(event.eventId));
    }

    /** One transaction: the snapshot row and every event, or nothing. */
    method PersistSnapshotAndOutbox(events: seq<CommonEvent>, now: Time, commits: bool) returns (ok: bool)
      modifies this`outbox, this`snapshot
      ensures ok == commits
      ensures !ok ==> outbox == old(outbox) && snapshot == old(snapshot)
      ensures ok ==> outbox == Persist(env, old(outbox), events, now) && snapshot == Ids(events)
      ensures ok ==> snapshot <= outbox.Keys == old(outbox).Keys + Ids(events)
      ensures ok ==> forall i: nat :: FirstMissing(old(outbox), events, i) ==>
                events[i].eventId in outbox && Claimable(outbox[events[i].eventId], now) &&
                JustQueued(env, outbox[events[i].eventId], events[i], env.topicOf(events[i]), env.keyOf(events[i]), now)
      ensures forall id :: id in old(outbox) ==> id in outbox && outbox[id] == old(outbox)[id]
    {
      var rows := outbox;
      var i := 0;
      while i < |events|
        invariant 0 <= i <= |events|
        invariant rows == Persist(env, old(outbox), events[..i], now)
        invariant outbox == old(outbox) && snapshot == old(snapshot)
      {
        var event := events[i];
        assert events[..i + 1][..i] == events[..i];
        if event.eventId !in rows {
          rows := rows[event.eventId := FreshRow(env, event, env.topicOf(event), env.keyOf(event), now)];
        }
        i := i + 1;
      }
      assert events[..i] == events;
      PersistAddsMissing(env, old(outbox), events, now);
      forall j: nat | FirstMissing(old(outbox), events, j)
        ensures events[j].eventId in rows && Claimable(rows[events[j].eventId], now)
        ensures JustQueued(env, rows[events[j].eventId], events[j], env.topicOf(events[j]), env.keyOf(events[j]), now)
      {
        PersistedIsClaimable(env, old(outbox), events, now, j);
      }
      ok := commits;
      if commits {
        outbox, snapshot := rows, set e | e in events :: e.eventId;
      }
    }

    method OutboxBacklogCount() returns (n: nat)
      ensures n == BacklogCount(outbox)
      ensures n + |WithStatus(outbox, Published)| + |WithStatus(outbox, Deadlettered)| == |outbox.Keys|
    {
      n := |set id | id in outbox && InBacklog(outbox[id])|;
      BacklogConservation(outbox);
    }
  }
}
