/** Progress without starvation: one publisher loop, no crash, every statement succeeds. A round of
    spawn_outbox_publisher claims a batch in (available_at, created_at) order and publishes it record by record. */
module Progress {
  import opened Wrappers
  import opened EventBus
  import opened Tables
  import opened Pipeline
  import opened Publishing

  // ---------------------------------------------------------------------
  // One round.

  /** ORDER BY available_at, created_at; rows that tie come in any order. */
  predicate Before(a: OutboxRow, b: OutboxRow) {
    a.availableAt < b.availableAt || (a.availableAt == b.availableAt && a.createdAt < b.createdAt)
  }

  /** What SELECT .. ORDER BY .. LIMIT may return: claimable rows, and if it leaves a claimable row out then it is
      full of rows that do not come after it. */
  predicate ValidChoice(rows: Outbox, ids: seq<string>, limit: nat, now: Time) {
    && Distinct(ids) && |ids| <= limit
    && (forall id :: id in ids ==> id in rows && Claimable(rows[id], now))
    && forall id :: id in rows && Claimable(rows[id], now) && id !in ids ==>
         |ids| == limit && forall other :: other in ids ==> !Before(rows[id], rows[other])
  }

  /** The claim takes the oldest rows: one that it takes became available before one that it leaves waiting, or then,
      and was created no later. */
  lemma OldestFirst(rows: Outbox, ids: seq<string>, limit: nat, now: Time)
    requires ValidChoice(rows, ids, limit, now)
    ensures forall x, y :: x in ids && y in rows && y !in ids && Claimable(rows[y], now) ==>
              && x in rows && |ids| == limit
              && (|| rows[x].availableAt < rows[y].availableAt
                  || (rows[x].availableAt == rows[y].availableAt && rows[x].createdAt <= rows[y].createdAt))
  {
  }

  /** One call of publish_outbox_record: its outside, the log it saw and the time of its mark. */
  datatype Call = Call(io: PublishIo, log: Log, at: Time)

  /** The batch, published record by record. */
  function Drain(env: Env, rows: Outbox, batch: seq<Claimed>, calls: seq<Call>): Outbox
    requires |batch| == |calls|
  {
    if batch == [] then rows
    else Drain(env, OutboxAfterCall(env, rows, calls[0].log, batch[0], calls[0].io, calls[0].at), batch[1..],
               calls[1..])
  }

  /** arrivals: rows enqueued since the last round. */
  datatype Round = Round(arrivals: Outbox, now: Time, worker: string, ids: seq<string>, limit: nat, lockSeconds: int,
                         calls: seq<Call>)

  function Seen(rows: Outbox, r: Round): Outbox {
    rows + r.arrivals
  }

  function Batch(rows: Outbox, ids: seq<string>, until: Time): seq<Claimed>
    requires forall id :: id in ids ==> id in rows
  {
    seq(|ids|, i requires 0 <= i < |ids| => assert ids[i] in ids; Returned(rows, ids[i], until))
  }

  predicate RoundOk(rows: Outbox, r: Round) {
    && r.limit >= 1 && rows.Keys !! r.arrivals.Keys
    && ValidChoice(Seen(rows, r), r.ids, r.limit, r.now)
    && |r.calls| == |r.ids|
    && forall i :: 0 <= i < |r.calls| ==> r.calls[i].io.markOk && r.now <= r.calls[i].at
  }

  /** The time of the last mark. */
  function Finished(now: Time, calls: seq<Call>): (t: Time)
    ensures now <= t && forall i :: 0 <= i < |calls| ==> calls[i].at <= t
    ensures t == now || exists i :: 0 <= i < |calls| && calls[i].at == t
  {
    if calls == [] then now
    else
      var last, before := calls[|calls| - 1].at, Finished(now, calls[..|calls| - 1]);
      if last > before then last else before
  }

  function AfterRound(env: Env, rows: Outbox, r: Round): Outbox
    requires RoundOk(rows, r)
  {
    var until := SecondsFrom(r.now, r.lockSeconds);
    Drain(env, Claim(Seen(rows, r), r.ids, r.worker, until), Batch(Seen(rows, r), r.ids, until), r.calls)
  }

  // ---------------------------------------------------------------------
  // What a round does to one row.

  /** The row after its own call. */
  function RowAfterCall(env: Env, row: OutboxRow, c: Claimed, call: Call): OutboxRow {
    var rows := OutboxAfterCall(env, map[c.eventId := row], call.log, c, call.io, call.at);
    if c.eventId in rows then rows[c.eventId] else row
  }

  predicate BatchIds(batch: seq<Claimed>) {
    forall i, j :: 0 <= i < j < |batch| ==> batch[i].eventId != batch[j].eventId
  }

  /** A call touches its own row only, and adds or drops none. */
  lemma CallIsLocal(env: Env, rows: Outbox, c: Claimed, call: Call, id: string)
    requires id in rows && c.eventId in rows
    ensures var r := OutboxAfterCall(env, rows, call.log, c, call.io, call.at);
            && r.Keys == rows.Keys
            && r[id] == if c.eventId == id then RowAfterCall(env, rows[id], c, call) else rows[id]
  {
  }

  /** Draining a batch changes each of its rows by that row's own call, and no other row. */
  lemma {:induction false} DrainIsPointwise(env: Env, rows: Outbox, batch: seq<Claimed>, calls: seq<Call>, id: string)
    requires |batch| == |calls| && BatchIds(batch) && id in rows
    requires forall i :: 0 <= i < |batch| ==> batch[i].eventId in rows
    ensures var r := Drain(env, rows, batch, calls);
            && r.Keys == rows.Keys
            && ((forall i :: 0 <= i < |batch| ==> batch[i].eventId != id) ==> r[id] == rows[id])
            && forall i :: 0 <= i < |batch| && batch[i].eventId == id ==>
               r[id] == RowAfterCall(env, rows[id], batch[i], calls[i])
  {
    if batch != [] {
      var rows1 := OutboxAfterCall(env, rows, calls[0].log, batch[0], calls[0].io, calls[0].at);
      CallIsLocal(env, rows, batch[0], calls[0], id);
      assert forall i :: 0 <= i < |batch[1..]| ==> batch[1..][i] == batch[i + 1];
      DrainIsPointwise(env, rows1, batch[1..], calls[1..], id);
      forall i | 0 <= i < |batch| && batch[i].eventId == id
        ensures Drain(env, rows, batch, calls)[id] == RowAfterCall(env, rows[id], batch[i], calls[i])
      {
        if i > 0 {
          assert batch[1..][i - 1] == batch[i] && calls[1..][i - 1] == calls[i];
        }
      }
    }
  }

  /** Attempts left before the row leaves the backlog for good; at least one while it is in there. */
  function Left(env: Env, row: OutboxRow): nat {
    if !InBacklog(row) then 0
    else if row.attemptCount < env.kafka.retryMaxAttempts then env.kafka.retryMaxAttempts - row.attemptCount
    else 1
  }

  /** The sum of the attempts left of the listed rows. */
  function Work(env: Env, rows: Outbox, ids: seq<string>): nat {
    if ids == [] then 0
    else (if ids[0] in rows then Left(env, rows[ids[0]]) else 0) + Work(env, rows, ids[1..])
  }

  /** A call that marks its row uses up an attempt of a decodable backlog row, and keeps its place in the order. */
  lemma CallUsesAttempt(env: Env, row: OutboxRow, c: Claimed, call: Call)
    requires InBacklog(row) && row.attemptCount < MAX_I32 && c.payload.Readable? && c.attemptCount == row.attemptCount
    requires call.io.markOk
    ensures var r := RowAfterCall(env, row, c, call);
            && Left(env, r) < Left(env, row) && r.attemptCount <= row.attemptCount + 1
            && r.availableAt == row.availableAt && r.createdAt == row.createdAt && r.payload == row.payload
  {
  }

  // ---------------------------------------------------------------------
  // The row that waits.

  /** The row does not come after the row of id, so it may be claimed before it. */
  predicate AheadOf(rows: Outbox, id: string, k: string)
    requires id in rows && k in rows
  {
    k != id && !Before(rows[id], rows[k])
  }

  /** The undecodable rows ahead: they are claimed again and again and never leave the backlog. */
  function Stuck(rows: Outbox, id: string): set<string>
    requires id in rows
  {
    set k | k in rows && rows[k].payload.Unreadable? && WillBeClaimable(rows[k]) && AheadOf(rows, id, k)
  }

  /** Tables.EventuallyClaimable: the row is claimable from some time on. */
  predicate WillBeClaimable(row: OutboxRow) {
    InBacklog(row) && !(row.status == Publishing && row.lockedUntil.None?)
  }

  /** ahead lists decodable rows of the table, among them every one in the backlog that does not come after id's. */
  predicate Covers(rows: Outbox, id: string, ahead: seq<string>) {
    && id in rows
    && (forall k :: k in ahead ==> k in rows && rows[k].payload.Readable?)
    && forall k :: k in rows && rows[k].payload.Readable? && InBacklog(rows[k]) && AheadOf(rows, id, k) ==> k in ahead
  }

  /** attempt_count can still grow on every decodable backlog row: their marks succeed. */
  predicate CountsFit(rows: Outbox) {
    forall k :: k in rows && rows[k].payload.Readable? && InBacklog(rows[k]) ==> rows[k].attemptCount < MAX_I32
  }

  predicate ArrivesBehind(rows: Outbox, id: string, r: Round) {
    id in rows && forall k :: k in r.arrivals ==> Before(rows[id], r.arrivals[k])
  }

  /** A schedule of rounds, one publisher loop: a round starts when the one before is done, and new rows queue up behind
      the row of id. */
  predicate Schedule(env: Env, rows: Outbox, rounds: seq<Round>, id: string, since: Time)
    decreases |rounds|
  {
    rounds == [] ||
    (&& RoundOk(rows, rounds[0]) && since <= rounds[0].now && ArrivesBehind(rows, id, rounds[0])
     && CountsFit(Seen(rows, rounds[0]))
     && Schedule(env, AfterRound(env, rows, rounds[0]), rounds[1..], id, Finished(rounds[0].now, rounds[0].calls)))
  }

  /** A claimable row stays claimable while nobody touches it. */
  lemma ClaimableLater(row: OutboxRow, t: Time, u: Time)
    requires Claimable(row, t) && t <= u
    ensures Claimable(row, u)
  {
  }

  /** What a round does to a row: nothing unless it claims it; never to its payload or its place in the order; a
      decodable row loses an attempt, and one that cannot be decoded stays in the backlog. */
  predicate Through(env: Env, row: OutboxRow, row': OutboxRow, claimed: bool) {
    && (!claimed ==> row' == row)
    && row'.payload == row.payload && row'.availableAt == row.availableAt && row'.createdAt == row.createdAt
    && (claimed && row.payload.Readable? && row.attemptCount < MAX_I32 ==> Left(env, row') < Left(env, row))
    && (claimed && row.payload.Unreadable? ==> WillBeClaimable(row'))
  }

  lemma CallKeepsUndecodable(env: Env, row: OutboxRow, c: Claimed, call: Call)
    requires WillBeClaimable(row) && c.payload.Unreadable?
    ensures var r := RowAfterCall(env, row, c, call);
            && WillBeClaimable(r) && r.payload == row.payload && r.availableAt == row.availableAt &&
               r.createdAt == row.createdAt
  {
  }

  /** What a round makes of a row: its own call's doing if it is claimed, and nothing otherwise. */
  lemma RowOfRound(env: Env, rows: Outbox, r: Round, k: string)
    requires RoundOk(rows, r) && k in Seen(rows, r)
    ensures var seen, after := Seen(rows, r), AfterRound(env, rows, r);
            && after.Keys == seen.Keys && (k !in r.ids ==> after[k] == seen[k])
            && forall i :: 0 <= i < |r.ids| && r.ids[i] == k ==> after[k] == ClaimedRow(env, seen, r, i)
  {
    var seen := Seen(rows, r);
    var until := SecondsFrom(r.now, r.lockSeconds);
    var claimed, batch := Claim(seen, r.ids, r.worker, until), Batch(seen, r.ids, until);
    assert forall i :: 0 <= i < |batch| ==> batch[i].eventId == r.ids[i] && r.ids[i] in r.ids;
    DrainIsPointwise(env, claimed, batch, r.calls, k);
    forall i | 0 <= i < |r.ids| && r.ids[i] == k ensures AfterRound(env, rows, r)[k] == ClaimedRow(env, seen, r, i) {
      assert batch[i] == Returned(seen, k, until) && claimed[k] == ClaimRow(seen[k], r.worker, until);
    }
  }

  /** The i-th row of the batch after its claim and its call. */
  function ClaimedRow(env: Env, seen: Outbox, r: Round, i: nat): OutboxRow
    requires i < |r.ids| && i < |r.calls| && r.ids[i] in seen
  {
    var until := SecondsFrom(r.now, r.lockSeconds);
    RowAfterCall(env, ClaimRow(seen[r.ids[i]], r.worker, until), Returned(seen, r.ids[i], until), r.calls[i])
  }

  lemma RowThroughRound(env: Env, rows: Outbox, r: Round, k: string)
    requires RoundOk(rows, r) && k in Seen(rows, r)
    ensures var after := AfterRound(env, rows, r);
            k in after && after.Keys == Seen(rows, r).Keys && Through(env, Seen(rows, r)[k], after[k], k in r.ids)
  {
    RowOfRound(env, rows, r, k);
    if k in r.ids {
      var i :| 0 <= i < |r.ids| && r.ids[i] == k;
      ClaimedThrough(env, Seen(rows, r), k, r.worker, SecondsFrom(r.now, r.lockSeconds), r.calls[i]);
    }
  }

  lemma ClaimedThrough(env: Env, seen: Outbox, k: string, worker: string, until: Time, call: Call)
    requires k in seen && InBacklog(seen[k]) && call.io.markOk
    ensures Through(env, seen[k], RowAfterCall(env, ClaimRow(seen[k], worker, until), Returned(seen, k, until), call),
                    true)
  {
    var claimed, c := ClaimRow(seen[k], worker, until), Returned(seen, k, until);
    if seen[k].payload.Unreadable? {
      CallKeepsUndecodable(env, claimed, c, call);
    } else if seen[k].attemptCount < MAX_I32 {
      CallUsesAttempt(env, claimed, c, call);
      assert Left(env, claimed) == Left(env, seen[k]);
    }
  }

  predicate AllThrough(env: Env, seen: Outbox, after: Outbox, ids: seq<string>) {
    after.Keys == seen.Keys && forall k :: k in seen ==> Through(env, seen[k], after[k], k in ids)
  }

  lemma RoundFacts(env: Env, rows: Outbox, r: Round)
    requires RoundOk(rows, r)
    ensures AllThrough(env, Seen(rows, r), AfterRound(env, rows, r), r.ids)
  {
    var seen, after := Seen(rows, r), AfterRound(env, rows, r);
    forall k | k in seen ensures k in after && after.Keys == seen.Keys && Through(env, seen[k], after[k], k in r.ids) {
      RowThroughRound(env, rows, r, k);
    }
    assert r.ids != [] ==> r.ids[0] in r.ids;
  }

  /** If no listed row gained attempts and one of them lost some, the sum dropped. */
  lemma {:induction false} WorkDrops(env: Env, rows: Outbox, rows': Outbox, ids: seq<string>, x: string)
    requires forall k :: k in ids && k in rows' ==> k in rows && Left(env, rows'[k]) <= Left(env, rows[k])
    ensures Work(env, rows', ids) <= Work(env, rows, ids)
    ensures x in ids && x in rows && x in rows' && Left(env, rows'[x]) < Left(env, rows[x]) ==>
              Work(env, rows', ids) < Work(env, rows, ids)
  {
    if ids != [] {
      assert forall k :: k in ids[1..] ==> k in ids;
      WorkDrops(env, rows, rows', ids[1..], x);
      assert x in ids ==> x == ids[0] || x in ids[1..];
    }
  }

  lemma {:induction false} DistinctSize(ids: seq<string>)
    requires Distinct(ids)
    ensures |set k | k in ids| == |ids|
  {
    if ids != [] {
      var front := ids[..|ids| - 1];
      DistinctSize(front);
      assert (set k | k in ids) == (set k | k in front) + {ids[|ids| - 1]};
    }
  }

  lemma SubsetSize<T>(a: set<T>, b: set<T>)
    requires a <= b
    ensures |a| <= |b|
  {
    assert b == a + (b - a);
    DisjointSizes(a, b - a);
  }

  /** When fewer undecodable rows are ahead than the claim takes, a round that leaves the row waiting claims a
      decodable one ahead of it. */
  lemma ClaimsDecodable(rows: Outbox, ids: seq<string>, limit: nat, now: Time, id: string) returns (x: string)
    requires ValidChoice(rows, ids, limit, now) && id in rows && Claimable(rows[id], now) && id !in ids
    requires |Stuck(rows, id)| < limit
    ensures x in ids && rows[x].payload.Readable? && AheadOf(rows, id, x)
  {
    DistinctSize(ids);
    if forall k :: k in ids ==> rows[k].payload.Unreadable? {
      forall k | k in ids ensures k in Stuck(rows, id) {
      }
      var chosen := set k | k in ids;
      SubsetSize(chosen, Stuck(rows, id));
      assert false;
    }
    x :| x in ids && rows[x].payload.Readable?;
  }

  /** A round that leaves a claimable row waiting keeps it as it is, keeps the list ahead of it complete, brings no
      further undecodable row ahead of it, and uses up at least one attempt on the list. */
  lemma WaitingRound(env: Env, rows: Outbox, r: Round, id: string, ahead: seq<string>)
    requires RoundOk(rows, r) && Covers(rows, id, ahead) && ArrivesBehind(rows, id, r) && CountsFit(Seen(rows, r))
    requires Claimable(rows[id], r.now) && id !in r.ids && |Stuck(rows, id)| < r.limit
    ensures var after := AfterRound(env, rows, r);
            && Covers(after, id, ahead) && after[id] == rows[id]
            && Stuck(after, id) <= Stuck(rows, id)
            && Work(env, after, ahead) < Work(env, rows, ahead)
  {
    RoundFacts(env, rows, r);
    WaitingTables(env, rows, Seen(rows, r), AfterRound(env, rows, r), r, id, ahead);
  }

  lemma WaitingTables(env: Env, rows: Outbox, seen: Outbox, after: Outbox, r: Round, id: string, ahead: seq<string>)
    requires seen == Seen(rows, r) && AllThrough(env, seen, after, r.ids) && ValidChoice(seen, r.ids, r.limit, r.now)
    requires rows.Keys !! r.arrivals.Keys && Covers(rows, id, ahead) && ArrivesBehind(rows, id, r) && CountsFit(seen)
    requires Claimable(rows[id], r.now) && id !in r.ids && |Stuck(rows, id)| < r.limit
    ensures Covers(after, id, ahead) && after[id] == rows[id]
    ensures Stuck(after, id) <= Stuck(rows, id)
    ensures Work(env, after, ahead) < Work(env, rows, ahead)
  {
    assert Stuck(seen, id) == Stuck(rows, id);
    var x := ClaimsDecodable(seen, r.ids, r.limit, r.now, id);
    RoundKeepsOrder(env, rows, seen, after, r.ids, id, ahead);
    RoundUsesWork(env, rows, seen, after, r.ids, ahead, x);
  }

  lemma RoundKeepsOrder(env: Env, rows: Outbox, seen: Outbox, after: Outbox, ids: seq<string>, id: string,
                        ahead: seq<string>)
    requires AllThrough(env, seen, after, ids) && Covers(rows, id, ahead) && id !in ids && rows.Keys <= seen.Keys
    requires forall k :: k in rows ==> seen[k] == rows[k]
    requires forall k :: k in seen && k !in rows ==> Before(rows[id], seen[k])
    requires forall k :: k in ids ==> k in seen && WillBeClaimable(seen[k])
    ensures Covers(after, id, ahead) && after[id] == rows[id] && Stuck(after, id) <= Stuck(rows, id)
  {
    forall k | k in after && after[k].payload.Readable? && InBacklog(after[k]) && AheadOf(after, id, k)
      ensures k in ahead
    {
      assert Through(env, seen[k], after[k], k in ids);
    }
    forall k | k in Stuck(after, id) ensures k in Stuck(rows, id) {
      assert Through(env, seen[k], after[k], k in ids);
    }
    forall k | k in ahead ensures k in after && after[k].payload.Readable? {
      assert Through(env, seen[k], after[k], k in ids);
    }
  }

  lemma RoundUsesWork(env: Env, rows: Outbox, seen: Outbox, after: Outbox, ids: seq<string>, ahead: seq<string>,
                      x: string)
    requires AllThrough(env, seen, after, ids) && CountsFit(seen) && rows.Keys <= seen.Keys
    requires forall k :: k in rows ==> seen[k] == rows[k]
    requires forall k :: k in ahead ==> k in rows && rows[k].payload.Readable?
    requires forall k :: k in ids ==> k in seen && InBacklog(seen[k])
    requires x in ids && x in ahead
    ensures Work(env, after, ahead) < Work(env, rows, ahead)
  {
    forall k | k in ahead ensures Left(env, after[k]) <= Left(env, rows[k]) {
      assert Through(env, seen[k], after[k], k in ids);
    }
    assert Through(env, seen[x], after[x], true);
    WorkDrops(env, rows, after, ahead, x);
  }

  /** Every round claims more rows than are stuck ahead of id's. */
  predicate Roomy(rows: Outbox, rounds: seq<Round>, id: string)
    requires id in rows
  {
    forall k :: 0 <= k < |rounds| ==> |Stuck(rows, id)| < rounds[k].limit
  }

  /** No starvation: when fewer undecodable rows are ahead of it than a round claims, a claimable row is claimed
      within Work rounds, the sum of the attempts left of the decodable rows ahead of it, however the rounds are
      spaced and whatever the broker does. */
  lemma {:induction false} EveryRowIsClaimed(env: Env, rows: Outbox, rounds: seq<Round>, id: string,
                                             ahead: seq<string>, since: Time)
    requires Schedule(env, rows, rounds, id, since) && Covers(rows, id, ahead) && Claimable(rows[id], since)
    requires Roomy(rows, rounds, id)
    requires |rounds| > Work(env, rows, ahead)
    ensures exists k :: 0 <= k <= Work(env, rows, ahead) && id in rounds[k].ids
    decreases |rounds|
  {
    var r := rounds[0];
    if id in r.ids {
      assert id in rounds[0].ids;
    } else {
      ClaimableLater(rows[id], since, r.now);
      WaitingRound(env, rows, r, id, ahead);
      var after := AfterRound(env, rows, r);
      SubsetSize(Stuck(after, id), Stuck(rows, id));
      ClaimableLater(rows[id], r.now, Finished(r.now, r.calls));
      EveryRowIsClaimed(env, after, rounds[1..], id, ahead, Finished(r.now, r.calls));
      var k :| 0 <= k <= Work(env, after, ahead) && id in rounds[1..][k].ids;
      assert id in rounds[k + 1].ids;
    }
  }

  // ---------------------------------------------------------------------
  // The same by the clock

  /** The new rows of a round were queued between the end of the last round and this one. */
  predicate QueuedSince(r: Round, since: Time) {
    forall k :: k in r.arrivals ==> since <= r.arrivals[k].availableAt <= r.now
  }

  /** A schedule of rounds in which rows are queued as time goes by, whatever their number. */
  predicate ClockedSchedule(env: Env, rows: Outbox, rounds: seq<Round>, since: Time)
    decreases |rounds|
  {
    rounds == [] ||
    (&& RoundOk(rows, rounds[0]) && since <= rounds[0].now && QueuedSince(rounds[0], since)
     && CountsFit(Seen(rows, rounds[0]))
     && ClockedSchedule(env, AfterRound(env, rows, rounds[0]), rounds[1..], Finished(rounds[0].now, rounds[0].calls)))
  }

  /** What is queued later comes behind. */
  lemma {:induction false} ClockedIsScheduled(env: Env, rows: Outbox, rounds: seq<Round>, id: string, since: Time)
    requires ClockedSchedule(env, rows, rounds, since) && id in rows && rows[id].availableAt < since
    ensures Schedule(env, rows, rounds, id, since)
    decreases |rounds|
  {
    if rounds != [] {
      var r := rounds[0];
      RowThroughRound(env, rows, r, id);
      ClockedIsScheduled(env, AfterRound(env, rows, r), rounds[1..], id, Finished(r.now, r.calls));
    }
  }

  /** First come, first served: a due row is claimed before what is queued after it, however much that is. With the rows
      that became available before it, or then and were created no later, as the only ones ahead, fewer undecodable ones
      among them than a round claims, it is claimed within as many rounds as the decodable ones have attempts left. */
  lemma {:induction false} OldRowsAreClaimed(env: Env, rows: Outbox, rounds: seq<Round>, id: string,
                                             older: seq<string>, since: Time)
    requires ClockedSchedule(env, rows, rounds, since)
    requires id in rows && Claimable(rows[id], since) && rows[id].availableAt < since
    requires forall k :: k in older ==> k in rows && rows[k].payload.Readable?
    requires forall k :: k in rows && k != id && rows[k].payload.Readable? && InBacklog(rows[k]) ==>
               rows[k].availableAt < rows[id].availableAt ||
               (rows[k].availableAt == rows[id].availableAt && rows[k].createdAt <= rows[id].createdAt) ==>
                 k in older
    requires var bad := set k | k in rows && k != id && rows[k].payload.Unreadable? && InBacklog(rows[k]) &&
                 (|| rows[k].availableAt < rows[id].availableAt
                  || (rows[k].availableAt == rows[id].availableAt && rows[k].createdAt <= rows[id].createdAt));
             forall i :: 0 <= i < |rounds| ==> |bad| < rounds[i].limit
    requires |rounds| > Work(env, rows, older)
    ensures exists i :: 0 <= i <= Work(env, rows, older) && id in rounds[i].ids
  {
    ClockedIsScheduled(env, rows, rounds, id, since);
    assert Covers(rows, id, older);
    StuckAreOlder(rows, id);
    EveryRowIsClaimed(env, rows, rounds, id, older, since);
  }

  lemma {:induction false} StuckAreOlder(rows: Outbox, id: string)
    requires id in rows
    ensures var bad := set k | k in rows && k != id && rows[k].payload.Unreadable? && InBacklog(rows[k]) &&
              (|| rows[k].availableAt < rows[id].availableAt
               || (rows[k].availableAt == rows[id].availableAt && rows[k].createdAt <= rows[id].createdAt));
            |Stuck(rows, id)| <= |bad|
  {
    var bad := set k | k in rows && k != id && rows[k].payload.Unreadable? && InBacklog(rows[k]) &&
      (|| rows[k].availableAt < rows[id].availableAt
       || (rows[k].availableAt == rows[id].availableAt && rows[k].createdAt <= rows[id].createdAt));
    assert Stuck(rows, id) <= bad;
    SubsetSize(Stuck(rows, id), bad);
  }
}
