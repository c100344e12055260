/** The event tables of migrations/202604280001_kafka_eventbus.sql and the statements
    of src/db.rs, each as a function from table contents to table contents. */
module Tables {
  import opened Wrappers
  import opened Sql
  import opened EventBus

  /** now(), in microseconds. */
  type Time = int
  const SECOND: Time := 1_000_000

  /** payload_json: always the JSON of an event, which the running build may or may not read back. */
  datatype Payload = Readable(event: CommonEvent) | Unreadable(event: CommonEvent)

  function Stored(env: Env, event: CommonEvent): Payload {
    if env.readsBack(event) then Readable(event) else Unreadable(event)
  }

  datatype Status = Queued | Publishing | Failed | Published | Deadlettered

  datatype Position = Position(partition: nat, offset: nat)

  datatype OutboxRow = OutboxRow(
    eventType: string,
    topic: string,
    partitionKey: string,
    payload: Payload,
    status: Status,
    attemptCount: nat,
    recorded: Option<Position>,
    lockedBy: Option<string>,
    lockedUntil: Option<Time>,
    nextAttemptAt: Time,
    lastError: Option<string>,
    availableAt: Time,
    publishedAt: Option<Time>,
    createdAt: Time)

  type Outbox = map<string, OutboxRow>

  /** The columns claim_event_outbox_batch returns, with the lease it was given. */
  datatype Claimed = Claimed(
    eventId: string,
    topic: string,
    partitionKey: string,
    payload: Payload,
    attemptCount: nat,
    leaseEnd: Time)

  // ---------------------------------------------------------------------
  // event_outbox

  function FreshRow(env: Env, event: CommonEvent, topic: string, key: string, now: Time): OutboxRow {
    OutboxRow(event.eventType, topic, key, Stored(env, event), Queued, 0, None, None, None, now, None, now, None, now)
  }

  /** insert_event_outbox: upsert that re-queues everything but a published row. */
  function Insert(env: Env, rows: Outbox, event: CommonEvent, topic: string, key: string, now: Time): Outbox {
    var id := event.eventId;
    if id in rows then
      rows[id := rows[id].(eventType := event.eventType, topic := topic, partitionKey := key,
                           payload := Stored(env, event),
                           status := if rows[id].status == Published then Published else Queued)]
    else rows[id := FreshRow(env, event, topic, key, now)]
  }

  /** The row persist_snapshot_and_outbox inserts for an event. */
  function EnqueuedRow(env: Env, event: CommonEvent, now: Time): OutboxRow {
    FreshRow(env, event, env.topicOf(event), env.keyOf(event), now)
  }

  /** The INSERT .. ON CONFLICT DO NOTHING of persist_snapshot_and_outbox. */
  function InsertIfAbsent(env: Env, rows: Outbox, event: CommonEvent, now: Time): Outbox {
    if event.eventId in rows then rows
    else rows[event.eventId := EnqueuedRow(env, event, now)]
  }

  /** The whole outbox part of persist_snapshot_and_outbox. */
  function Persist(env: Env, rows: Outbox, events: seq<CommonEvent>, now: Time): Outbox {
    if events == [] then rows
    else InsertIfAbsent(env, Persist(env, rows, events[..|events| - 1], now), events[|events| - 1], now)
  }

  /** The WHERE clause of the claim, term by term. */
  function ClaimClause(row: OutboxRow, now: Time): Truth {
    And(Or(And(Of(row.status == Queued || row.status == Failed), Of(row.nextAttemptAt <= now)),
           And(Of(row.status == Publishing), Less(row.lockedUntil, now))),
        Or(IsNull(row.lockedUntil), Less(row.lockedUntil, now)))
  }

  predicate Claimable(row: OutboxRow, now: Time) {
    ClaimClause(row, now) == True
  }

  predicate InBacklog(row: OutboxRow) {
    row.status == Queued || row.status == Failed || row.status == Publishing
  }

  /** outbox_backlog_count. */
  function BacklogCount(rows: Outbox): nat {
    |set id | id in rows && InBacklog(rows[id])|
  }

  /** now() + the given seconds, which the source raises to at least one. */
  function SecondsFrom(now: Time, seconds: int): Time {
    now + (if seconds < 1 then 1 else seconds) * SECOND
  }

  function ClaimRow(row: OutboxRow, worker: string, until: Time): OutboxRow {
    row.(status := Publishing, lockedBy := Some(worker), lockedUntil := Some(until))
  }

  /** The UPDATE of claim_event_outbox_batch, for the ids its SELECT chose. */
  function Claim(rows: Outbox, ids: seq<string>, worker: string, until: Time): Outbox {
    map id | id in rows :: if id in ids then ClaimRow(rows[id], worker, until) else rows[id]
  }

  /** One row of RETURNING. */
  function Returned(rows: Outbox, id: string, until: Time): Claimed
    requires id in rows
  {
    Claimed(id, rows[id].topic, rows[id].partitionKey, rows[id].payload, rows[id].attemptCount, until)
  }

  /** attempt_count is an integer column: attempt_count + 1 fails on its last value. */
  predicate CountFits(rows: Outbox, id: string) {
    id in rows ==> rows[id].attemptCount < MAX_I32
  }

  function MarkPublished(rows: Outbox, id: string, position: Position, now: Time): Outbox {
    if id !in rows then rows
    else rows[id := rows[id].(status := Published, attemptCount := rows[id].attemptCount + 1,
                              recorded := Some(position), lastError := None, publishedAt := Some(now))]
  }

  function MarkFailed(rows: Outbox, id: string, error: string, retryAfterSeconds: int, now: Time): Outbox {
    if id !in rows then rows
    else rows[id := rows[id].(status := Failed, attemptCount := rows[id].attemptCount + 1,
                              lastError := Some(error), lockedBy := None, lockedUntil := None,
                              nextAttemptAt := SecondsFrom(now, retryAfterSeconds))]
  }

  function MarkDeadlettered(rows: Outbox, id: string, error: string): Outbox {
    if id !in rows then rows
    else rows[id := rows[id].(status := Deadlettered, attemptCount := rows[id].attemptCount + 1,
                              lastError := Some(error), lockedBy := None, lockedUntil := None)]
  }

  /** The upsert inside replay_kafka_deadletter. */
  function Requeue(env: Env, rows: Outbox, event: CommonEvent, payload: Payload, now: Time): Outbox {
    var id := event.eventId;
    var topic := env.topicOf(event);
    if id in rows then
      rows[id := rows[id].(status := Queued, topic := topic, partitionKey := env.keyOf(event), payload := payload,
                           nextAttemptAt := now, lockedBy := None, lockedUntil := None)]
    else rows[id := FreshRow(env, event, topic, env.keyOf(event), now).(payload := payload)]
  }

  // ---------------------------------------------------------------------
  // kafka_deadletters: rows are only appended and stamped; a row's id is its place in the list.

  datatype DeadletterRow = DeadletterRow(
    eventId: string,
    sourceTopic: Option<string>,
    partitionKey: string,
    retryCount: nat,
    errorCode: string,
    payload: Payload,
    replayedAt: Option<Time>,
    replayedBy: Option<string>)

  type Deadletters = seq<DeadletterRow>

  function InsertDeadletter(env: Env, rows: Deadletters, envelope: DeadLetterEnvelope,
                            sourceTopic: Option<string>, key: string): Deadletters {
    rows + [DeadletterRow(envelope.event.eventId, sourceTopic, key, envelope.retryCount, envelope.errorCode,
                          Stored(env, envelope.event), None, None)]
  }

  /** What replay_kafka_deadletter's first SELECT returns, and whether its payload decodes. */
  predicate Replayable(rows: Deadletters, id: nat) {
    id < |rows| && rows[id].replayedAt.None? && rows[id].payload.Readable?
  }

  function StampReplayed(rows: Deadletters, id: nat, who: string, now: Time): Deadletters
    requires id < |rows|
  {
    rows[id := rows[id].(replayedAt := Some(now), replayedBy := Some(who))]
  }

  // ---------------------------------------------------------------------
  // event_inbox, keyed by its UNIQUE(consumer_group, event_id)

  datatype SourceOffset = SourceOffset(topic: string, partition: nat, offset: nat)

  type Inbox = map<(string, string), SourceOffset>

  /** event_inbox_processed. */
  predicate InboxProcessed(inbox: Inbox, group: string, eventId: string, at: SourceOffset) {
    (group, eventId) in inbox || exists k :: k in inbox && k.0 == group && inbox[k] == at
  }

  /** UNIQUE(consumer_group, topic, partition, offset_value): another event's row already sits at this offset. */
  predicate OffsetTaken(inbox: Inbox, group: string, eventId: string, at: SourceOffset) {
    exists k :: k in inbox && k.0 == group && k.1 != eventId && inbox[k] == at
  }

  /** mark_event_inbox_processed. */
  function MarkProcessed(inbox: Inbox, group: string, eventId: string, at: SourceOffset): Inbox {
    inbox[(group, eventId) := at]
  }

  /** The test asks for a row of the group with this event or at this offset. */
  lemma InboxTestMeans(inbox: Inbox, group: string, eventId: string, at: SourceOffset)
    ensures InboxProcessed(inbox, group, eventId, at) <==>
            exists k :: k in inbox && k.0 == group && (k.1 == eventId || inbox[k] == at)
    ensures OffsetTaken(inbox, group, eventId, at) <==>
            exists k :: k in inbox && k.0 == group && k.1 != eventId && inbox[k] == at
  {
    if (group, eventId) in inbox {
      assert (group, eventId).0 == group;
    }
    if k :| k in inbox && k.0 == group && k.1 == eventId {
      assert k == (group, eventId);
    }
  }

  /** Once an event is marked at an offset, the test finds this event and this offset, in this group, and nothing else
      that it did not find without the event's own row. */
  lemma MarkedIsProcessed(inbox: Inbox, group: string, eventId: string, at: SourceOffset, g: string, id: string,
                          offset: SourceOffset)
    ensures InboxProcessed(MarkProcessed(inbox, group, eventId, at), g, id, offset) <==>
            || (g == group && (id == eventId || offset == at))
            || InboxProcessed(inbox - {(group, eventId)}, g, id, offset)
  {
    var without, marked := inbox - {(group, eventId)}, MarkProcessed(inbox, group, eventId, at);
    assert marked == without[(group, eventId) := at];
    InboxTestMeans(marked, g, id, offset);
    InboxTestMeans(without, g, id, offset);
    assert (group, eventId) in marked && marked[(group, eventId)] == at;
    if k :| k in without && k.0 == g && (k.1 == id || without[k] == offset) {
      assert k in marked && marked[k] == without[k];
    }
  }

  // ---------------------------------------------------------------------

  /** The claim predicate in two-valued terms. */
  lemma ClaimableMeans(row: OutboxRow, now: Time)
    ensures Claimable(row, now) <==>
            && (row.lockedUntil.Some? ==> row.lockedUntil.value < now)
            && (|| ((row.status == Queued || row.status == Failed) && row.nextAttemptAt <= now)
                || (row.status == Publishing && row.lockedUntil.Some?))
  {
  }

  /** The first instant from which a row's own timers no longer hold it back. */
  function HeldUntil(row: OutboxRow): Time {
    if row.lockedUntil.Some? && row.lockedUntil.value > row.nextAttemptAt then row.lockedUntil.value
    else row.nextAttemptAt
  }

  /** A backlog row that is not waiting on a NULL lease becomes claimable and stays so;
      a publishing row whose lease is NULL is never claimable again. Published and deadlettered rows never are. */
  lemma EventuallyClaimable(row: OutboxRow)
    ensures InBacklog(row) && !(row.status == Publishing && row.lockedUntil.None?) <==>
            forall t: Time :: t > HeldUntil(row) ==> Claimable(row, t)
    ensures !InBacklog(row) || (row.status == Publishing && row.lockedUntil.None?) ==>
            forall t: Time :: !Claimable(row, t)
  {
    if forall t: Time :: t > HeldUntil(row) ==> Claimable(row, t) {
      assert Claimable(row, HeldUntil(row) + 1);
    }
  }

  // ---------------------------------------------------------------------
  // persist_snapshot_and_outbox

  function Ids(events: seq<CommonEvent>): set<string> {
    set e | e in events :: e.eventId
  }

  /** Re-persisting any event list, duplicates and handled events included, changes no existing row
      and adds exactly the missing ids. */
  lemma {:induction false} PersistAddsMissing(env: Env, rows: Outbox, events: seq<CommonEvent>, now: Time)
    ensures var r := Persist(env, rows, events, now);
            && r.Keys == rows.Keys + Ids(events)
            && forall id :: id in rows ==> r[id] == rows[id]
  {
    if events != [] {
      var last := |events| - 1;
      PersistAddsMissing(env, rows, events[..last], now);
      assert events == events[..last] + [events[last]];
      assert Ids(events) == Ids(events[..last]) + {events[last].eventId};
    }
  }

  /** The i-th event is the first of the list with its id, and the table does not have that id yet. */
  predicate FirstMissing(rows: Outbox, events: seq<CommonEvent>, i: nat) {
    && i < |events| && events[i].eventId !in rows
    && forall j :: 0 <= j < i ==> events[j].eventId != events[i].eventId
  }

  /** Each added row is queued, and comes from the first event of the list that carries its id. */
  lemma {:induction false} PersistQueuesFirst(env: Env, rows: Outbox, events: seq<CommonEvent>, now: Time, i: nat)
    requires FirstMissing(rows, events, i)
    ensures var r := Persist(env, rows, events, now);
            events[i].eventId in r && r[events[i].eventId] == EnqueuedRow(env, events[i], now)
  {
    var last := |events| - 1;
    var init := events[..last];
    PersistAddsMissing(env, rows, init, now);
    if i < last {
      assert init[i] == events[i];
      PersistQueuesFirst(env, rows, init, now, i);
    } else {
      assert forall j :: 0 <= j < last ==> init[j] == events[j];
      assert events[i].eventId !in Ids(init);
    }
  }

  /** A row as it is first queued: its event's own columns, due at once, never tried, never leased. */
  predicate JustQueued(env: Env, row: OutboxRow, event: CommonEvent, topic: string, key: string, now: Time) {
    && row.status == Queued && row.attemptCount == 0 && row.recorded.None? && row.publishedAt.None?
    && row.lastError.None? && row.lockedBy.None? && row.lockedUntil.None?
    && row.availableAt == row.createdAt == row.nextAttemptAt == now
    && row.topic == topic && row.partitionKey == key && row.eventType == event.eventType
    && row.payload == (if env.readsBack(event) then Readable(event) else Unreadable(event))
  }

  /** Each event that a snapshot adds can be claimed at that very moment and ever after, and stands under its own topic
      and key. */
  lemma PersistedIsClaimable(env: Env, rows: Outbox, events: seq<CommonEvent>, now: Time, i: nat)
    requires FirstMissing(rows, events, i)
    ensures var r := Persist(env, rows, events, now);
            var id := events[i].eventId;
            && id in r && JustQueued(env, r[id], events[i], env.topicOf(events[i]), env.keyOf(events[i]), now)
            && forall t: Time :: Claimable(r[id], t) <==> t >= now
  {
    PersistQueuesFirst(env, rows, events, now, i);
  }

  // ---------------------------------------------------------------------
  // From when on each statement leaves a row claimable

  /** What a statement does not write. */
  predicate SamePlace(row: OutboxRow, row': OutboxRow) {
    && row'.availableAt == row.availableAt && row'.createdAt == row.createdAt
    && row'.attemptCount == row.attemptCount && row'.recorded == row.recorded && row'.publishedAt == row.publishedAt
  }

  predicate SameMessage(row: OutboxRow, row': OutboxRow) {
    && row'.eventType == row.eventType && row'.topic == row.topic && row'.partitionKey == row.partitionKey
    && row'.payload == row.payload && row'.availableAt == row.availableAt && row'.createdAt == row.createdAt
  }

  predicate OthersKept(rows: Outbox, rows': Outbox, id: string) {
    (forall k :: k in rows && k != id ==> k in rows' && rows'[k] == rows[k]) && rows'.Keys <= rows.Keys + {id}
  }

  /** A new event is due at once. One that is there takes the new topic, key, type and payload; it is due again when its
      old lease and its old timer have run out, whatever it was before, unless it is published: then it stays so. */
  lemma InsertRequeues(env: Env, rows: Outbox, event: CommonEvent, topic: string, key: string, now: Time)
    ensures var r := Insert(env, rows, event, topic, key, now);
            var id := event.eventId;
            && id in r && OthersKept(rows, r, id)
            && (id !in rows ==> JustQueued(env, r[id], event, topic, key, now))
            && (id in rows ==>
                  && SamePlace(rows[id], r[id]) && r[id].lockedBy == rows[id].lockedBy
                  && r[id].topic == topic && r[id].partitionKey == key && r[id].eventType == event.eventType
                  && r[id].payload == (if env.readsBack(event) then Readable(event) else Unreadable(event))
                  && (rows[id].status == Published <==> r[id].status == Published))
    ensures var r := Insert(env, rows, event, topic, key, now);
            var id := event.eventId;
            forall t: Time :: Claimable(r[id], t) <==>
              if id !in rows then t >= now
              else && rows[id].status != Published && rows[id].nextAttemptAt <= t
                   && (rows[id].lockedUntil.Some? ==> rows[id].lockedUntil.value < t)
  {
  }

  /** A claimed row is out of reach until its lease ends, under the claiming worker's name. */
  lemma ClaimLeases(rows: Outbox, ids: seq<string>, worker: string, until: Time, id: string)
    requires id in rows
    ensures var r := Claim(rows, ids, worker, until);
            && r.Keys == rows.Keys && (id !in ids ==> r[id] == rows[id])
            && (id in ids ==>
                  && SamePlace(rows[id], r[id]) && SameMessage(rows[id], r[id]) && r[id].lockedBy == Some(worker)
                  && r[id].lastError == rows[id].lastError
                  && forall t: Time :: Claimable(r[id], t) <==> t > until)
    ensures id in ids ==>
              var c := Returned(Claim(rows, ids, worker, until), id, until);
              && c.eventId == id && c.topic == rows[id].topic && c.partitionKey == rows[id].partitionKey
              && c.payload == rows[id].payload && c.attemptCount == rows[id].attemptCount && c.leaseEnd == until
  {
  }

  /** A row marked published or deadlettered is never claimed again, and a published one carries where and when. */
  lemma FinalMarksEnd(rows: Outbox, id: string, position: Position, error: string, now: Time)
    requires id in rows
    ensures var r := MarkPublished(rows, id, position, now);
            && id in r && OthersKept(rows, r, id) && SameMessage(rows[id], r[id])
            && r[id].attemptCount == rows[id].attemptCount + 1 && r[id].recorded == Some(position)
            && r[id].publishedAt == Some(now) && r[id].lastError.None?
            && r[id].lockedBy == rows[id].lockedBy && r[id].lockedUntil == rows[id].lockedUntil
            && r[id].status == Published && forall t: Time :: !Claimable(r[id], t)
    ensures var r := MarkDeadlettered(rows, id, error);
            && id in r && OthersKept(rows, r, id) && SameMessage(rows[id], r[id])
            && r[id].attemptCount == rows[id].attemptCount + 1 && r[id].recorded == rows[id].recorded
            && r[id].lastError == Some(error) && r[id].lockedBy.None?
            && r[id].status == Deadlettered && forall t: Time :: !Claimable(r[id], t)
  {
  }

  /** A row marked failed can be claimed again exactly from its delay on, of a second at least, leased before or not. */
  lemma FailedIsDueAfterDelay(rows: Outbox, id: string, error: string, seconds: int, now: Time)
    requires id in rows
    ensures var r := MarkFailed(rows, id, error, seconds, now);
            && id in r && OthersKept(rows, r, id) && SameMessage(rows[id], r[id]) && r[id].status == Failed
            && r[id].attemptCount == rows[id].attemptCount + 1 && r[id].recorded == rows[id].recorded
            && r[id].lastError == Some(error) && r[id].lockedBy.None?
            && forall t: Time :: Claimable(r[id], t) <==> t >= now + 1_000_000 && t >= now + seconds * 1_000_000
  {
  }

  /** A replayed row can be claimed at once, with its old count if it is there, under the topic and key of the event. */
  lemma RequeuedIsClaimable(env: Env, rows: Outbox, event: CommonEvent, payload: Payload, now: Time)
    ensures var r := Requeue(env, rows, event, payload, now);
            var id := event.eventId;
            && id in r && OthersKept(rows, r, id)
            && r[id].topic == env.topicOf(event) && r[id].partitionKey == env.keyOf(event) && r[id].payload == payload
            && r[id].lockedBy.None? && (forall t: Time :: Claimable(r[id], t) <==> t >= now)
            && (if id in rows then SamePlace(rows[id], r[id])
                else r[id].attemptCount == 0 && r[id].availableAt == r[id].createdAt == now
                     && r[id].eventType == event.eventType)
  {
  }

  /** A deadletter row carries its envelope, can be replayed at once if its event reads back, and once stamped never
      again. */
  lemma DeadlettersAreReplayable(env: Env, rows: Deadletters, envelope: DeadLetterEnvelope, topic: Option<string>,
                                 key: string, who: string, now: Time)
    ensures var r := InsertDeadletter(env, rows, envelope, topic, key);
            && |r| == |rows| + 1 && rows <= r && (Replayable(r, |rows|) <==> env.readsBack(envelope.event))
            && r[|rows|].payload.event == envelope.event && r[|rows|].eventId == envelope.event.eventId
            && r[|rows|].retryCount == envelope.retryCount && r[|rows|].errorCode == envelope.errorCode
            && r[|rows|].sourceTopic == topic && r[|rows|].partitionKey == key && r[|rows|].replayedBy.None?
    ensures var r := InsertDeadletter(env, rows, envelope, topic, key);
            var stamped := StampReplayed(r, |rows|, who, now);
            && |stamped| == |r| && rows <= stamped && !Replayable(stamped, |rows|)
            && stamped[|rows|] == r[|rows|].(replayedAt := Some(now), replayedBy := Some(who))
  {
  }

  // ---------------------------------------------------------------------

  /** Persisting the same snapshot again adds nothing. */
  lemma PersistTwice(env: Env, rows: Outbox, events: seq<CommonEvent>, now: Time, later: Time)
    ensures var once := Persist(env, rows, events, now); Persist(env, once, events, later) == once
  {
    var once := Persist(env, rows, events, now);
    PersistAddsMissing(env, rows, events, now);
    PersistAddsMissing(env, once, events, later);
  }

  lemma DisjointSizes<T>(a: set<T>, b: set<T>)
    requires a !! b
    ensures |a + b| == |a| + |b|
  {
  }

  function WithStatus(rows: Outbox, status: Status): set<string> {
    set id | id in rows && rows[id].status == status
  }

  /** Every outbox row is in exactly one of backlog, published and deadlettered. */
  lemma BacklogConservation(rows: Outbox)
    ensures BacklogCount(rows) + |WithStatus(rows, Published)| + |WithStatus(rows, Deadlettered)| == |rows.Keys|
  {
    var b := set id | id in rows && InBacklog(rows[id]);
    var p, d := WithStatus(rows, Published), WithStatus(rows, Deadlettered);
    DisjointSizes(b, p);
    DisjointSizes(b + p, d);
    assert b + p + d == rows.Keys;
  }
}
