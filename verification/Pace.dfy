/** Starvation and pace. An undecodable row that is claimed is put off for a minute, so how many of such rows it takes
    to starve another depends on how many rounds the loop gets through in a minute. */
module Pace {
  import opened Wrappers
  import opened EventBus
  import opened Tables
  import opened Pipeline
  import opened Publishing
  import opened Progress
  import opened Starvation

  const MINUTE: Time := 60 * SECOND

  // ---------------------------------------------------------------------
  // What a round of a minute spends

  /** The undecodable rows ahead that can still be claimed before the given time. */
  function Due(rows: Outbox, id: string, end: Time): set<string>
    requires id in rows
  {
    set k | k in Stuck(rows, id) && Claimable(rows[k], end - 1)
  }

  /** attempt_count can still grow n times on every undecodable row ahead: their marks succeed. */
  predicate HasRoom(rows: Outbox, id: string, n: nat)
    requires id in rows
  {
    forall k :: k in Stuck(rows, id) ==> rows[k].attemptCount + n <= MAX_I32
  }

  /** A claimed undecodable row whose mark lands is put off for a minute from then. */
  lemma PutOff(env: Env, seen: Outbox, r: Round, i: nat)
    requires i < |r.ids| && i < |r.calls| && r.ids[i] in seen && seen[r.ids[i]].payload.Unreadable?
    requires r.calls[i].io.markOk && seen[r.ids[i]].attemptCount < MAX_I32
    ensures var row := ClaimedRow(env, seen, r, i);
            && row.status == Failed && row.nextAttemptAt == r.calls[i].at + MINUTE
            && row.attemptCount == seen[r.ids[i]].attemptCount + 1
  {
  }

  /** How many of the listed ids are in the set. */
  function Among(ids: seq<string>, keys: set<string>): nat {
    if ids == [] then 0 else (if ids[0] in keys then 1 else 0) + Among(ids[1..], keys)
  }

  lemma {:induction false} AmongCovers(ids: seq<string>, keys: set<string>)
    requires forall k :: k in keys ==> k in ids
    ensures |keys| <= Among(ids, keys)
  {
    if ids == [] {
      assert keys == {};
    } else {
      var rest := keys - {ids[0]};
      forall k | k in rest ensures k in ids[1..] {
        assert k in ids && k != ids[0];
      }
      AmongCovers(ids[1..], rest);
      AmongGrows(ids[1..], rest, keys);
      assert keys <= rest + {ids[0]};
    }
  }

  lemma {:induction false} AmongGrows(ids: seq<string>, a: set<string>, b: set<string>)
    requires a <= b
    ensures Among(ids, a) <= Among(ids, b)
  {
    if ids != [] {
      AmongGrows(ids[1..], a, b);
    }
  }

  /** The listed rows that a round claims take at least one attempt each off the work. */
  lemma {:induction false} WorkDropsBy(env: Env, rows: Outbox, rows': Outbox, ids: seq<string>, claimed: set<string>)
    requires forall k :: k in ids ==> k in rows && k in rows' && Left(env, rows'[k]) <= Left(env, rows[k])
    requires forall k :: k in ids && k in claimed ==> Left(env, rows'[k]) < Left(env, rows[k])
    ensures Work(env, rows', ids) + Among(ids, claimed) <= Work(env, rows, ids)
  {
    if ids != [] {
      assert forall k :: k in ids[1..] ==> k in ids;
      WorkDropsBy(env, rows, rows', ids[1..], claimed);
      assert ids[0] in ids;
    }
  }

  /** A round that leaves the row waiting spends, of the work ahead and the undecodable rows still due before the end of
      the minute, as much as it claims. */
  lemma RoundSpends(env: Env, rows: Outbox, r: Round, id: string, ahead: seq<string>, end: Time, n: nat)
    requires RoundOk(rows, r) && Covers(rows, id, ahead) && ArrivesBehind(rows, id, r) && CountsFit(Seen(rows, r))
    requires Claimable(rows[id], r.now) && id !in r.ids && r.now < end <= r.now + MINUTE
    requires n >= 1 && HasRoom(rows, id, n)
    ensures var after := AfterRound(env, rows, r);
            && Covers(after, id, ahead) && after[id] == rows[id] && Stuck(after, id) <= Stuck(rows, id)
            && Work(env, after, ahead) + |Due(after, id, end)| + r.limit <=
               Work(env, rows, ahead) + |Due(rows, id, end)|
            && Work(env, after, ahead) <= Work(env, rows, ahead)
            && HasRoom(after, id, n - 1)
  {
    var seen, after := Seen(rows, r), AfterRound(env, rows, r);
    RoundFacts(env, rows, r);
    ClaimedAhead(rows, r, id, ahead);
    RoundKeepsOrder(env, rows, seen, after, r.ids, id, ahead);
    DueSpent(env, rows, r, id, end, n);
    SpentIsClaimed(env, rows, seen, after, r, id, ahead, Due(rows, id, end), Due(after, id, end));
  }

  /** What a round claims is either decodable or not, and both kinds are spent. */
  lemma SpentIsClaimed(env: Env, rows: Outbox, seen: Outbox, after: Outbox, r: Round, id: string, ahead: seq<string>,
                       due: set<string>, due': set<string>)
    requires AllThrough(env, seen, after, r.ids) && CountsFit(seen) && rows.Keys <= seen.Keys && Distinct(r.ids)
    requires forall k :: k in rows ==> seen[k] == rows[k]
    requires forall k :: k in ahead ==> k in rows && rows[k].payload.Readable?
    requires forall k :: k in r.ids ==> k in rows && InBacklog(rows[k])
    requires forall k :: k in r.ids && rows[k].payload.Readable? ==> k in ahead
    requires var unreadable := set k | k in r.ids && seen[k].payload.Unreadable?;
             unreadable <= due && due' <= due - unreadable
    ensures Work(env, after, ahead) + |due'| + |r.ids| <= Work(env, rows, ahead) + |due|
    ensures Work(env, after, ahead) <= Work(env, rows, ahead)
  {
    var readable := set k | k in r.ids && seen[k].payload.Readable?;
    var unreadable := set k | k in r.ids && seen[k].payload.Unreadable?;
    WorkSpent(env, rows, seen, after, r.ids, ahead, readable);
    BothKinds(r.ids, readable, unreadable, due, due');
  }

  lemma BothKinds(ids: seq<string>, readable: set<string>, unreadable: set<string>, due: set<string>, due': set<string>)
    requires Distinct(ids) && readable !! unreadable && (forall k :: k in ids <==> k in readable || k in unreadable)
    requires unreadable <= due && due' <= due - unreadable
    ensures |due'| + |ids| <= |readable| + |due|
  {
    DistinctSize(ids);
    assert (set k | k in ids) == readable + unreadable;
    DisjointSizes(readable, unreadable);
    SubsetSize(due', due - unreadable);
    DisjointSizes(due - unreadable, unreadable);
    assert due == (due - unreadable) + unreadable;
  }

  /** A full claim that leaves the row out takes rows ahead of it. */
  lemma ClaimedAhead(rows: Outbox, r: Round, id: string, ahead: seq<string>)
    requires RoundOk(rows, r) && Covers(rows, id, ahead) && ArrivesBehind(rows, id, r)
    requires Claimable(rows[id], r.now) && id !in r.ids
    ensures |r.ids| == r.limit
    ensures forall k :: k in r.ids ==>
            k in rows && Seen(rows, r)[k] == rows[k] && AheadOf(rows, id, k) && InBacklog(rows[k])
    ensures forall k :: k in r.ids && rows[k].payload.Readable? ==> k in ahead
    ensures forall k :: k in r.ids && rows[k].payload.Unreadable? ==> k in Stuck(rows, id)
  {
    var seen := Seen(rows, r);
    assert seen[id] == rows[id];
  }

  lemma WorkSpent(env: Env, rows: Outbox, seen: Outbox, after: Outbox, ids: seq<string>, ahead: seq<string>,
                  readable: set<string>)
    requires AllThrough(env, seen, after, ids) && CountsFit(seen) && rows.Keys <= seen.Keys
    requires forall k :: k in rows ==> seen[k] == rows[k]
    requires forall k :: k in ahead ==> k in rows && rows[k].payload.Readable?
    requires forall k :: k in ids ==> k in seen && InBacklog(seen[k])
    requires forall k :: k in readable ==> k in ids && k in ahead
    ensures Work(env, after, ahead) + |readable| <= Work(env, rows, ahead)
  {
    forall k | k in ahead
      ensures Left(env, after[k]) <= Left(env, rows[k]) && (k in ids ==> Left(env, after[k]) < Left(env, rows[k]))
    {
      assert Through(env, seen[k], after[k], k in ids);
    }
    WorkDropsBy(env, rows, after, ahead, readable);
    AmongCovers(ahead, readable);
  }

  lemma DueSpent(env: Env, rows: Outbox, r: Round, id: string, end: Time, n: nat)
    requires RoundOk(rows, r) && id in rows && ArrivesBehind(rows, id, r) && r.now < end <= r.now + MINUTE
    requires id !in r.ids && n >= 1 && HasRoom(rows, id, n) && id in AfterRound(env, rows, r)
    requires AfterRound(env, rows, r)[id] == rows[id] && Stuck(AfterRound(env, rows, r), id) <= Stuck(rows, id)
    requires forall k :: k in r.ids && k in rows && rows[k].payload.Unreadable? ==> k in Stuck(rows, id)
    requires forall k :: k in r.ids ==> k in rows && Seen(rows, r)[k] == rows[k]
    ensures var after := AfterRound(env, rows, r);
            var unreadable := set k | k in r.ids && Seen(rows, r)[k].payload.Unreadable?;
            && unreadable <= Due(rows, id, end) && Due(after, id, end) <= Due(rows, id, end) - unreadable
            && HasRoom(after, id, n - 1)
  {
    var seen, after := Seen(rows, r), AfterRound(env, rows, r);
    forall k | k in r.ids && seen[k].payload.Unreadable? ensures k in Due(rows, id, end) {
      ClaimableLater(rows[k], r.now, end - 1);
    }
    forall k | k in Stuck(after, id)
      ensures after[k].attemptCount <= rows[k].attemptCount + 1
      ensures k in r.ids ==> !Claimable(after[k], end - 1)
      ensures k !in r.ids ==> after[k] == rows[k]
    {
      RowPutOff(env, rows, r, k, end);
    }
  }

  lemma RowPutOff(env: Env, rows: Outbox, r: Round, k: string, end: Time)
    requires RoundOk(rows, r) && k in rows && rows[k].payload.Unreadable? && rows[k].attemptCount < MAX_I32 &&
             end <= r.now + MINUTE
    ensures var after := AfterRound(env, rows, r);
            && k in after && after[k].attemptCount <= rows[k].attemptCount + 1
            && (k in r.ids ==> !Claimable(after[k], end - 1)) && (k !in r.ids ==> after[k] == rows[k])
  {
    RowOfRound(env, rows, r, k);
    if k in r.ids {
      var i :| 0 <= i < |r.ids| && r.ids[i] == k;
      PutOff(env, Seen(rows, r), r, i);
    }
  }

  // ---------------------------------------------------------------------
  // Rounds within a minute

  predicate AtLeast(rounds: seq<Round>, limit: nat) {
    forall k :: 0 <= k < |rounds| ==> rounds[k].limit >= limit
  }

  /** The tables between two rounds, and the time from which the next one may start. */
  datatype Moment = Moment(rows: Outbox, since: Time)

  /** One round of a schedule, between two moments. */
  predicate RoundAt(env: Env, a: Moment, r: Round, b: Moment, id: string) {
    && RoundOk(a.rows, r) && a.since <= r.now && ArrivesBehind(a.rows, id, r) && CountsFit(Seen(a.rows, r))
    && b == Moment(AfterRound(env, a.rows, r), Finished(r.now, r.calls))
  }

  predicate Traced(env: Env, trace: seq<Moment>, rounds: seq<Round>, id: string) {
    |trace| == |rounds| + 1 && forall i :: 0 <= i < |rounds| ==> RoundAt(env, trace[i], rounds[i], trace[i + 1], id)
  }

  /** A schedule, moment by moment. */
  lemma {:induction false} HasTrace(env: Env, rows: Outbox, rounds: seq<Round>, id: string, since: Time)
    returns (trace: seq<Moment>)
    requires Schedule(env, rows, rounds, id, since)
    ensures Traced(env, trace, rounds, id) && trace[0] == Moment(rows, since)
    decreases |rounds|
  {
    var now := Moment(rows, since);
    if rounds == [] {
      trace := [now];
    } else {
      var r := rounds[0];
      var rest := HasTrace(env, AfterRound(env, rows, r), rounds[1..], id, Finished(r.now, r.calls));
      trace := [now] + rest;
      TraceFirst(env, now, r, rest, rounds[1..], id);
      assert [r] + rounds[1..] == rounds;
    }
  }

  lemma TraceFirst(env: Env, a: Moment, r: Round, trace: seq<Moment>, rounds: seq<Round>, id: string)
    requires Traced(env, trace, rounds, id) && RoundAt(env, a, r, trace[0], id)
    ensures Traced(env, [a] + trace, [r] + rounds, id)
  {
    var trace', rounds' := [a] + trace, [r] + rounds;
    forall i | 0 <= i < |rounds'| ensures RoundAt(env, trace'[i], rounds'[i], trace'[i + 1], id) {
      if i > 0 {
        assert RoundAt(env, trace[i - 1], rounds[i - 1], trace[i], id);
      }
    }
  }

  /** The row of id waits at this moment, behind the listed rows. */
  predicate Waits(a: Moment, id: string, ahead: seq<string>, n: nat) {
    Covers(a.rows, id, ahead) && Claimable(a.rows[id], a.since) && HasRoom(a.rows, id, n)
  }

  function Ahead(env: Env, a: Moment, id: string, ahead: seq<string>, end: Time): nat
    requires id in a.rows
  {
    Work(env, a.rows, ahead) + |Due(a.rows, id, end)|
  }

  /** A round that leaves the row waiting spends at least the limit. */
  lemma NextMoment(env: Env, a: Moment, r: Round, b: Moment, id: string, ahead: seq<string>, end: Time, limit: nat,
                   n: nat)
    requires RoundAt(env, a, r, b, id) && Waits(a, id, ahead, n) && n >= 1 && r.limit >= limit
    requires id !in r.ids && r.now < end <= r.now + MINUTE
    ensures Waits(b, id, ahead, n - 1)
    ensures Ahead(env, b, id, ahead, end) + limit <= Ahead(env, a, id, ahead, end)
    ensures Work(env, b.rows, ahead) <= Work(env, a.rows, ahead) && Stuck(b.rows, id) <= Stuck(a.rows, id)
  {
    ClaimableLater(a.rows[id], a.since, r.now);
    RoundSpends(env, a.rows, r, id, ahead, end, n);
    ClaimableLater(a.rows[id], r.now, b.since);
  }

  /** The j rounds from the given one on leave the row waiting, within the minute that ends then. */
  predicate PassBy(rounds: seq<Round>, at: nat, j: nat, id: string, end: Time) {
    at + j <= |rounds| && forall k :: at <= k < at + j ==>
      id !in rounds[k].ids && rounds[k].now < end <= rounds[k].now + MINUTE
  }

  /** The row waits, with no more work and no further undecodable rows ahead than at the start. */
  predicate StillWaits(env: Env, start: Moment, a: Moment, id: string, ahead: seq<string>, n: nat)
    requires id in start.rows
  {
    && Waits(a, id, ahead, n) && Work(env, a.rows, ahead) <= Work(env, start.rows, ahead)
    && Stuck(a.rows, id) <= Stuck(start.rows, id)
  }

  function Cost(env: Env, a: Moment, id: string, ahead: seq<string>, end: Time): nat {
    if id in a.rows then Ahead(env, a, id, ahead, end) else 0
  }

  lemma OneRound(env: Env, start: Moment, a: Moment, r: Round, b: Moment, id: string, ahead: seq<string>, end: Time,
                 limit: nat, n: nat)
    requires RoundAt(env, a, r, b, id) && id in start.rows && StillWaits(env, start, a, id, ahead, n) && n >= 1 &&
             r.limit >= limit
    requires id !in r.ids && r.now < end <= r.now + MINUTE
    ensures StillWaits(env, start, b, id, ahead, n - 1) &&
            Cost(env, b, id, ahead, end) + limit <= Cost(env, a, id, ahead, end)
  {
    NextMoment(env, a, r, b, id, ahead, end, limit, n);
  }

  /** Each step of a run that starts waiting costs at least the limit; n counts down. */
  lemma {:induction false} Countdown(trace: seq<Moment>, rounds: seq<Round>, link: (Moment, Round, Moment) -> bool,
                                     waits: (Moment, nat) -> bool, cost: Moment -> nat, limit: nat, n: nat, j: nat)
    requires Linked(trace, rounds, link) && j <= |rounds| && j <= n && waits(trace[0], n)
    requires forall a, r, b, left: nat :: link(a, r, b) && waits(a, left) && left >= 1 ==>
               waits(b, left - 1) && cost(b) + limit <= cost(a)
    ensures waits(trace[j], n - j) && cost(trace[j]) + j * limit <= cost(trace[0])
    decreases j
  {
    if j > 0 {
      Countdown(trace, rounds, link, waits, cost, limit, n, j - 1);
      assert link(trace[j - 1], rounds[j - 1], trace[j]);
      var left: nat := n - (j - 1);
      assert waits(trace[j - 1], left);
      assert j * limit == (j - 1) * limit + limit;
    }
  }

  predicate Linked(trace: seq<Moment>, rounds: seq<Round>, link: (Moment, Round, Moment) -> bool) {
    |trace| == |rounds| + 1 && forall i :: 0 <= i < |rounds| ==> link(trace[i], rounds[i], trace[i + 1])
  }

  /** A round of the minute that leaves the row waiting. */
  predicate Passing(env: Env, a: Moment, r: Round, b: Moment, id: string, end: Time, limit: nat) {
    RoundAt(env, a, r, b, id) && r.limit >= limit && id !in r.ids && r.now < end <= r.now + MINUTE
  }

  lemma PassingRounds(env: Env, trace: seq<Moment>, rounds: seq<Round>, at: nat, j: nat, id: string, end: Time,
                      limit: nat)
    requires Traced(env, trace, rounds, id) && AtLeast(rounds, limit) && PassBy(rounds, at, j, id, end)
    ensures Linked(trace[at..at + j + 1], rounds[at..at + j], (a, r, b) => Passing(env, a, r, b, id, end, limit))
  {
    var moments, passing := trace[at..at + j + 1], rounds[at..at + j];
    forall i | 0 <= i < j ensures Passing(env, moments[i], passing[i], moments[i + 1], id, end, limit) {
      assert RoundAt(env, trace[at + i], rounds[at + i], trace[at + i + 1], id);
    }
  }

  /** Rounds of one minute that all leave the row waiting spend their limits. */
  lemma MinuteSpends(env: Env, trace: seq<Moment>, rounds: seq<Round>, at: nat, j: nat, id: string, ahead: seq<string>,
                     end: Time, limit: nat, n: nat)
    requires Traced(env, trace, rounds, id) && AtLeast(rounds, limit) && PassBy(rounds, at, j, id, end)
    requires j <= n && id in trace[at].rows && StillWaits(env, trace[at], trace[at], id, ahead, n)
    ensures StillWaits(env, trace[at], trace[at + j], id, ahead, n - j)
    ensures Cost(env, trace[at + j], id, ahead, end) + j * limit <= Cost(env, trace[at], id, ahead, end)
  {
    PassingRounds(env, trace, rounds, at, j, id, end, limit);
    PassingSpend(env, trace[at..at + j + 1], rounds[at..at + j], id, ahead, end, limit, n);
  }

  lemma PassingSpend(env: Env, trace: seq<Moment>, rounds: seq<Round>, id: string, ahead: seq<string>, end: Time,
                     limit: nat, n: nat)
    requires Linked(trace, rounds, (a, r, b) => Passing(env, a, r, b, id, end, limit)) && |rounds| <= n
    requires id in trace[0].rows && StillWaits(env, trace[0], trace[0], id, ahead, n)
    ensures StillWaits(env, trace[0], trace[|rounds|], id, ahead, n - |rounds|)
    ensures Cost(env, trace[|rounds|], id, ahead, end) + |rounds| * limit <= Cost(env, trace[0], id, ahead, end)
  {
    var start := trace[0];
    var link := (a, r, b) => Passing(env, a, r, b, id, end, limit);
    var waits := (a: Moment, left: nat) => StillWaits(env, start, a, id, ahead, left);
    forall a, r, b, left: nat | link(a, r, b) && waits(a, left) && left >= 1
      ensures waits(b, left - 1) && Cost(env, b, id, ahead, end) + limit <= Cost(env, a, id, ahead, end)
    {
      OneRound(env, start, a, r, b, id, ahead, end, limit, left);
    }
    Countdown(trace, rounds, link, waits, a => Cost(env, a, id, ahead, end), limit, n, |rounds|);
  }

  /** Prompt rounds: within a minute a claimable row is claimed in as many rounds as it takes to claim the work ahead of
      it and each undecodable row ahead of it once, however many there are. */
  lemma PromptRoundsClaim(env: Env, rows: Outbox, rounds: seq<Round>, j: nat, id: string, ahead: seq<string>,
                          since: Time, limit: nat)
    requires Schedule(env, rows, rounds, id, since) && Covers(rows, id, ahead) && Claimable(rows[id], since)
    requires j <= |rounds| && AtLeast(rounds, limit) && HasRoom(rows, id, j)
    requires forall k :: 0 <= k < j ==> rounds[k].now < since + MINUTE
    requires j * limit > Work(env, rows, ahead) + |Stuck(rows, id)|
    ensures exists k :: 0 <= k < j && id in rounds[k].ids
  {
    var trace := HasTrace(env, rows, rounds, id, since);
    if forall k :: 0 <= k < j ==> id !in rounds[k].ids {
      FewRoundsWait(env, trace, rounds, j, id, ahead, limit);
    }
  }

  /** Within a minute a row can be left waiting by no more rounds than the work and the undecodable rows ahead fill. */
  lemma FewRoundsWait(env: Env, trace: seq<Moment>, rounds: seq<Round>, j: nat, id: string, ahead: seq<string>,
                      limit: nat)
    requires Traced(env, trace, rounds, id) && AtLeast(rounds, limit) && j <= |rounds| && Waits(trace[0], id, ahead, j)
    requires forall k :: 0 <= k < j ==> id !in rounds[k].ids && rounds[k].now < trace[0].since + MINUTE
    ensures j * limit <= Work(env, trace[0].rows, ahead) + |Stuck(trace[0].rows, id)|
  {
    var end := trace[0].since + MINUTE;
    TraceIsTimed(env, trace, rounds, id);
    forall k | 0 <= k < j ensures end <= rounds[k].now + MINUTE {
      TraceInOrder(trace, rounds, 0, k);
    }
    MinuteSpends(env, trace, rounds, 0, j, id, ahead, end, limit, j);
    SubsetSize(Due(trace[0].rows, id, end), Stuck(trace[0].rows, id));
  }

  /** Each round falls between its two moments. */
  predicate Timed(trace: seq<Moment>, rounds: seq<Round>) {
    |trace| == |rounds| + 1 && forall i :: 0 <= i < |rounds| ==> trace[i].since <= rounds[i].now <= trace[i + 1].since
  }

  lemma RoundIsTimed(env: Env, a: Moment, r: Round, b: Moment, id: string)
    requires RoundAt(env, a, r, b, id)
    ensures a.since <= r.now <= b.since
  {
  }

  lemma TraceIsTimed(env: Env, trace: seq<Moment>, rounds: seq<Round>, id: string)
    requires Traced(env, trace, rounds, id)
    ensures Timed(trace, rounds)
  {
    forall i | 0 <= i < |rounds| ensures trace[i].since <= rounds[i].now <= trace[i + 1].since {
      RoundIsTimed(env, trace[i], rounds[i], trace[i + 1], id);
    }
  }

  lemma {:induction false} TraceInOrder(trace: seq<Moment>, rounds: seq<Round>, i: nat, j: nat)
    requires Timed(trace, rounds) && i <= j < |rounds|
    ensures trace[i].since <= rounds[i].now <= rounds[j].now
    decreases j - i
  {
    if i < j {
      TraceInOrder(trace, rounds, i + 1, j);
    }
  }

  // ---------------------------------------------------------------------
  // So many rounds a minute

  /** Any m rounds in a row start within a minute of the first of them. */
  predicate Brisk(rounds: seq<Round>, m: nat) {
    forall k, l :: 0 <= k <= l < |rounds| && l < k + m ==> rounds[l].now < rounds[k].now + MINUTE
  }

  ghost predicate Claimed(rounds: seq<Round>, id: string) {
    exists k :: 0 <= k < |rounds| && id in rounds[k].ids
  }

  /** m rounds that all leave the row waiting, with fewer than m claims' worth of undecodable rows ahead, use up
      work. */
  lemma WaitingTurn(env: Env, trace: seq<Moment>, rounds: seq<Round>, at: nat, m: nat, id: string, ahead: seq<string>,
                    limit: nat, n: nat)
    requires Traced(env, trace, rounds, id) && AtLeast(rounds, limit) && Brisk(rounds, m) && !Claimed(rounds, id)
    requires m >= 1 && at + m <= |rounds| && m <= n && Waits(trace[at], id, ahead, n)
    requires |Stuck(trace[at].rows, id)| < m * limit
    ensures Waits(trace[at + m], id, ahead, n - m) && |Stuck(trace[at + m].rows, id)| < m * limit
    ensures Work(env, trace[at + m].rows, ahead) < Work(env, trace[at].rows, ahead)
  {
    var end := rounds[at].now + MINUTE;
    TraceIsTimed(env, trace, rounds, id);
    forall k | at <= k < at + m ensures rounds[k].now < end <= rounds[k].now + MINUTE {
      TraceInOrder(trace, rounds, at, k);
    }
    MinuteSpends(env, trace, rounds, at, m, id, ahead, end, limit, n);
    SubsetSize(Due(trace[at].rows, id, end), Stuck(trace[at].rows, id));
    SubsetSize(Stuck(trace[at + m].rows, id), Stuck(trace[at].rows, id));
  }

  /** With m rounds to the minute and fewer undecodable rows ahead than they claim, each m rounds that leave the row
      waiting use up work, so one turn of m rounds more than the work claims it. */
  lemma {:induction false} BriskRoundsClaim(env: Env, trace: seq<Moment>, rounds: seq<Round>, at: nat, id: string,
                                            ahead: seq<string>, limit: nat, m: nat, turns: nat, n: nat)
    requires Traced(env, trace, rounds, id) && AtLeast(rounds, limit) && Brisk(rounds, m) && m >= 1
    requires n == m * turns && at + n <= |rounds| && Waits(trace[at], id, ahead, n)
    requires |Stuck(trace[at].rows, id)| < m * limit && turns > Work(env, trace[at].rows, ahead)
    ensures Claimed(rounds, id)
    decreases turns
  {
    if !Claimed(rounds, id) {
      OneTurn(m, turns);
      WaitingTurn(env, trace, rounds, at, m, id, ahead, limit, n);
      BriskRoundsClaim(env, trace, rounds, at + m, id, ahead, limit, m, turns - 1, n - m);
    }
  }

  lemma OneTurn(m: nat, turns: nat)
    requires turns >= 1
    ensures m * turns == m * (turns - 1) + m && m * turns >= m
  {
    assert m * (turns - 1) >= 0;
  }

  // ---------------------------------------------------------------------
  // A schedule that starves at that pace

  /** The time of the k-th round: m rounds a microsecond apart, and then again every minute. */
  function RoundTime(start: Time, m: nat, k: nat): Time
    requires 1 <= m
  {
    if k < m then start + k else RoundTime(start, m, k - m) + MINUTE
  }

  lemma {:induction false} TimeGrows(start: Time, m: nat, k: nat)
    requires 1 <= m <= MINUTE
    ensures RoundTime(start, m, k) < RoundTime(start, m, k + 1)
    decreases k
  {
    if k >= m {
      TimeGrows(start, m, k - m);
    }
  }

  lemma {:induction false} TimeGrowsBy(start: Time, m: nat, k: nat, l: nat)
    requires 1 <= m <= MINUTE && k <= l
    ensures RoundTime(start, m, k) <= RoundTime(start, m, l)
    decreases l
  {
    if k < l {
      TimeGrowsBy(start, m, k, l - 1);
      TimeGrows(start, m, l - 1);
    }
  }

  /** Any m of these times in a row lie within a minute. */
  lemma TimesAreBrisk(start: Time, m: nat, k: nat, l: nat)
    requires 1 <= m <= MINUTE && k <= l < k + m
    ensures RoundTime(start, m, l) < RoundTime(start, m, k) + MINUTE
  {
    TimeGrowsBy(start, m, l, k + m - 1);
    if k > 0 {
      TimeGrows(start, m, k - 1);
    }
  }

  /** The rows of which the map says that they are claimable from the d-th round on. */
  function From(keys: set<string>, due: map<string, nat>, d: nat): set<string> {
    set x | x in keys && x in due && due[x] == d
  }

  function UpTo(keys: set<string>, due: map<string, nat>, d: nat): set<string> {
    set x | x in keys && x in due && due[x] <= d
  }

  lemma {:induction false} UpToSize(keys: set<string>, due: map<string, nat>, limit: nat, k: nat, j: nat)
    requires Spread(keys, due, limit, k)
    ensures |UpTo(keys, due, k + j)| <= |UpTo(keys, due, k)| + j * limit
    decreases j
  {
    if j > 0 {
      UpToSize(keys, due, limit, k, j - 1);
      var before, now := UpTo(keys, due, k + j - 1), From(keys, due, k + j);
      assert UpTo(keys, due, k + j) == before + now;
      DisjointSizes(before, now);
      OneLess(j, limit);
    }
  }

  /** The map keeps the books of the schedule before its k-th round: no key is due later than the last m - 1 rounds
      claimed it, and no round claimed more than its limit. */
  ghost predicate Books(rows: Outbox, id: string, keys: set<string>, due: map<string, nat>, start: Time, m: nat,
                        limit: nat, k: nat)
    requires m >= 1
  {
    && id in rows && keys <= Stuck(rows, id) && |keys| >= m * limit
    && KeysDue(rows, keys, due, start, m, k) && Spread(keys, due, limit, k)
  }

  predicate KeysDue(rows: Outbox, keys: set<string>, due: map<string, nat>, start: Time, m: nat, k: nat)
    requires m >= 1
  {
    forall x :: x in keys ==> x in rows && x in due && due[x] < k + m && Claimable(rows[x], RoundTime(start, m, due[x]))
  }

  ghost predicate Spread(keys: set<string>, due: map<string, nat>, limit: nat, k: nat) {
    forall d :: d > k ==> |From(keys, due, d)| <= limit
  }

  /** Then a limit's worth of the rows is due. */
  lemma EnoughKeys(keys: set<string>, due: map<string, nat>, m: nat, limit: nat, k: nat)
    requires m >= 1 && Spread(keys, due, limit, k) && |keys| >= m * limit
    requires forall x :: x in keys ==> x in due && due[x] < k + m
    ensures |UpTo(keys, due, k)| >= limit
  {
    UpToSize(keys, due, limit, k, m - 1);
    assert UpTo(keys, due, k + (m - 1)) == keys;
    OneLess(m, limit);
  }

  lemma OneLess(m: nat, limit: nat)
    requires m >= 1
    ensures m * limit == (m - 1) * limit + limit
  {
  }

  lemma EnoughDue(rows: Outbox, id: string, keys: set<string>, due: map<string, nat>, start: Time, m: nat, limit: nat,
                  k: nat)
    requires 1 <= m <= MINUTE && Books(rows, id, keys, due, start, m, limit, k)
    ensures |UpTo(keys, due, k)| >= limit
    ensures forall x :: x in UpTo(keys, due, k) ==> x in Stuck(rows, id) && Claimable(rows[x], RoundTime(start, m, k))
  {
    EnoughKeys(keys, due, m, limit, k);
    forall x | x in UpTo(keys, due, k) ensures Claimable(rows[x], RoundTime(start, m, k)) {
      TimeGrowsBy(start, m, due[x], k);
      ClaimableLater(rows[x], RoundTime(start, m, due[x]), RoundTime(start, m, k));
    }
  }

  /** An undecodable row that a round claims is claimable again a minute after the round. */
  lemma BackInAMinute(env: Env, rows: Outbox, ids: seq<string>, limit: nat, now: Time, x: string)
    requires RoundOk(rows, PassingRound(ids, limit, now)) && x in ids && rows[x].payload.Unreadable?
    ensures var after := AfterRound(env, rows, PassingRound(ids, limit, now));
            x in after && Claimable(after[x], now + MINUTE)
  {
    var r := PassingRound(ids, limit, now);
    assert Seen(rows, r) == rows;
    var i :| 0 <= i < |ids| && ids[i] == x;
    RowOfRound(env, rows, r, x);
    BackRow(env, rows, r, i, now);
  }

  lemma BackRow(env: Env, seen: Outbox, r: Round, i: nat, now: Time)
    requires i < |r.ids| && i < |r.calls| && r.ids[i] in seen && seen[r.ids[i]].payload.Unreadable?
    requires r.now == now && r.lockSeconds == 30 && r.calls[i] == Delivering(now)
    ensures Claimable(ClaimedRow(env, seen, r, i), now + MINUTE)
  {
  }

  /** The k-th round claims these ids: those of the keys are due again in the round m later. */
  function Booked(keys: set<string>, due: map<string, nat>, ids: seq<string>, next: nat): map<string, nat> {
    map x | x in keys && x in due :: if x in ids then next else due[x]
  }

  lemma BookedSizes(keys: set<string>, due: map<string, nat>, ids: seq<string>, k: nat, m: nat, limit: nat, d: nat)
    requires |ids| <= limit && Distinct(ids) && m >= 1 && d > k + 1
    requires forall x :: x in keys ==> x in due && due[x] < k + m
    requires Spread(keys, due, limit, k)
    ensures |From(keys, Booked(keys, due, ids, k + m), d)| <= limit
  {
    var due' := Booked(keys, due, ids, k + m);
    if d == k + m {
      DistinctSize(ids);
      SubsetSize(From(keys, due', d), set x | x in ids);
    } else {
      SubsetSize(From(keys, due', d), From(keys, due, d));
    }
  }

  lemma SpreadAfter(keys: set<string>, due: map<string, nat>, ids: seq<string>, k: nat, m: nat, limit: nat)
    requires |ids| <= limit && Distinct(ids) && m >= 1 && Spread(keys, due, limit, k)
    requires forall x :: x in keys ==> x in due && due[x] < k + m
    ensures Spread(keys, Booked(keys, due, ids, k + m), limit, k + 1)
  {
    var due' := Booked(keys, due, ids, k + m);
    forall d | d > k + 1 ensures |From(keys, due', d)| <= limit {
      BookedSizes(keys, due, ids, k, m, limit, d);
    }
  }

  lemma KeysDueAfter(rows: Outbox, keys: set<string>, due: map<string, nat>, start: Time, m: nat, k: nat,
                     ids: seq<string>, after: Outbox)
    requires m >= 1 && KeysDue(rows, keys, due, start, m, k)
    requires forall x :: x in keys ==>
               x in after && if x in ids then Claimable(after[x], RoundTime(start, m, k) + MINUTE)
                 else after[x] == rows[x]
    ensures KeysDue(after, keys, Booked(keys, due, ids, k + m), start, m, k + 1)
  {
    assert RoundTime(start, m, k + m) == RoundTime(start, m, k) + MINUTE;
  }

  lemma BooksAfter(rows: Outbox, id: string, keys: set<string>, due: map<string, nat>, start: Time, m: nat, limit: nat,
                   k: nat, ids: seq<string>, after: Outbox)
    requires 1 <= m <= MINUTE && Books(rows, id, keys, due, start, m, limit, k) && Distinct(ids) && |ids| <= limit
    requires id in after && Stuck(rows, id) <= Stuck(after, id)
    requires forall x :: x in keys ==>
               x in after && if x in ids then Claimable(after[x], RoundTime(start, m, k) + MINUTE)
                 else after[x] == rows[x]
    ensures Books(after, id, keys, Booked(keys, due, ids, k + m), start, m, limit, k + 1)
  {
    SpreadAfter(keys, due, ids, k, m, limit);
    KeysDueAfter(rows, keys, due, start, m, k, ids, after);
  }

  /** What a passing round makes of an undecodable row. */
  lemma KeyAfter(env: Env, rows: Outbox, ids: seq<string>, limit: nat, now: Time, x: string)
    requires RoundOk(rows, PassingRound(ids, limit, now)) && x in rows && rows[x].payload.Unreadable?
    ensures var after := AfterRound(env, rows, PassingRound(ids, limit, now));
            x in after && if x in ids then Claimable(after[x], now + MINUTE) else after[x] == rows[x]
  {
    var r := PassingRound(ids, limit, now);
    assert Seen(rows, r) == rows;
    RowOfRound(env, rows, r, x);
    if x in ids {
      BackInAMinute(env, rows, ids, limit, now, x);
    }
  }

  /** The ids of the k-th round of the schedule. */
  lemma NextIds(rows: Outbox, id: string, keys: set<string>, due: map<string, nat>, start: Time, m: nat, limit: nat,
                k: nat)
    returns (ids: seq<string>)
    requires 1 <= m <= MINUTE && limit >= 1 && Books(rows, id, keys, due, start, m, limit, k)
    ensures ValidChoice(rows, ids, limit, RoundTime(start, m, k)) && id !in ids
  {
    EnoughDue(rows, id, keys, due, start, m, limit, k);
    ids := MayPassBy(rows, id, UpTo(keys, due, k), limit, RoundTime(start, m, k));
  }

  lemma KeysAfter(env: Env, rows: Outbox, ids: seq<string>, limit: nat, now: Time, keys: set<string>)
    requires RoundOk(rows, PassingRound(ids, limit, now)) && forall x :: x in keys ==>
             x in rows && rows[x].payload.Unreadable?
    ensures var after := AfterRound(env, rows, PassingRound(ids, limit, now));
            forall x :: x in keys ==>
              x in after && if x in ids then Claimable(after[x], now + MINUTE) else after[x] == rows[x]
  {
    forall x | x in keys
      ensures var after := AfterRound(env, rows, PassingRound(ids, limit, now));
              x in after && if x in ids then Claimable(after[x], now + MINUTE) else after[x] == rows[x]
    {
      KeyAfter(env, rows, ids, limit, now, x);
    }
  }

  /** What a passing round leaves. */
  lemma PassingRoundLeaves(env: Env, rows: Outbox, ids: seq<string>, limit: nat, now: Time, id: string,
                           keys: set<string>)
    requires limit >= 1 && ValidChoice(rows, ids, limit, now) && id in rows && id !in ids && keys <= Stuck(rows, id) &&
             CountsFit(rows)
    ensures var r := PassingRound(ids, limit, now);
            && RoundOk(rows, r) && Seen(rows, r) == rows && Finished(now, r.calls) == now
            && var after := AfterRound(env, rows, r);
               && id in after && after[id] == rows[id] && CountsFit(after) && Stuck(rows, id) <= Stuck(after, id)
               && forall x :: x in keys ==>
                  x in after && if x in ids then Claimable(after[x], now + MINUTE) else after[x] == rows[x]
  {
    PassingRoundIsOk(rows, ids, limit, now);
    PassingRoundKeeps(env, rows, ids, limit, now, id);
    KeysAfter(env, rows, ids, limit, now, keys);
  }

  /** The k-th round of the schedule, and the books after it. */
  lemma NextRound(env: Env, rows: Outbox, id: string, keys: set<string>, due: map<string, nat>, start: Time, m: nat,
                  limit: nat, k: nat)
    returns (r: Round, due': map<string, nat>)
    requires 1 <= m <= MINUTE && limit >= 1 && Books(rows, id, keys, due, start, m, limit, k) && CountsFit(rows)
    ensures RoundOk(rows, r) && Seen(rows, r) == rows && r.arrivals == map[] && r.limit == limit && id !in r.ids
    ensures r.now == RoundTime(start, m, k) && Finished(r.now, r.calls) == r.now
    ensures var after := AfterRound(env, rows, r);
            Books(after, id, keys, due', start, m, limit, k + 1) && after[id] == rows[id] && CountsFit(after)
  {
    var now := RoundTime(start, m, k);
    var ids := NextIds(rows, id, keys, due, start, m, limit, k);
    r := PassingRound(ids, limit, now);
    PassingRoundLeaves(env, rows, ids, limit, now, id, keys);
    due' := Booked(keys, due, ids, k + m);
    BooksAfter(rows, id, keys, due, start, m, limit, k, ids, AfterRound(env, rows, r));
  }

  lemma {:induction false} StarveBriskly(env: Env, rows: Outbox, id: string, keys: set<string>, due: map<string, nat>,
                                         start: Time, m: nat, limit: nat, k: nat, n: nat)
    returns (rounds: seq<Round>)
    requires 1 <= m <= MINUTE && limit >= 1 && Books(rows, id, keys, due, start, m, limit, k) && CountsFit(rows)
    requires Claimable(rows[id], RoundTime(start, m, k))
    ensures |rounds| == n && Schedule(env, rows, rounds, id, RoundTime(start, m, k)) &&
            TimedFrom(rounds, id, start, m, limit, k)
    decreases n
  {
    rounds := [];
    if n > 0 {
      var r, due' := NextRound(env, rows, id, keys, due, start, m, limit, k);
      var after := AfterRound(env, rows, r);
      LaterRound(rows[id], start, m, k);
      var rest := StarveBriskly(env, after, id, keys, due', start, m, limit, k + 1, n - 1);
      rounds := [r] + rest;
      LaterTimes(r, rest, id, start, m, limit, k);
      RoundInFront(env, rows, r, rest, id, RoundTime(start, m, k), RoundTime(start, m, k + 1));
    }
  }

  lemma LaterRound(row: OutboxRow, start: Time, m: nat, k: nat)
    requires 1 <= m <= MINUTE && Claimable(row, RoundTime(start, m, k))
    ensures RoundTime(start, m, k) <= RoundTime(start, m, k + 1) && Claimable(row, RoundTime(start, m, k + 1))
  {
    TimeGrows(start, m, k);
  }

  predicate TimedFrom(rounds: seq<Round>, id: string, start: Time, m: nat, limit: nat, k: nat)
    requires m >= 1
  {
    forall i :: 0 <= i < |rounds| ==>
      rounds[i].limit == limit && id !in rounds[i].ids && rounds[i].now == RoundTime(start, m, k + i)
  }

  lemma LaterTimes(r: Round, rest: seq<Round>, id: string, start: Time, m: nat, limit: nat, k: nat)
    requires m >= 1 && TimedFrom(rest, id, start, m, limit, k + 1)
    requires r.limit == limit && id !in r.ids && r.now == RoundTime(start, m, k)
    ensures TimedFrom([r] + rest, id, start, m, limit, k)
  {
    var all := [r] + rest;
    forall i | 0 <= i < |all|
      ensures all[i].limit == limit && id !in all[i].ids && all[i].now == RoundTime(start, m, k + i)
    {
      if i > 0 {
        assert all[i] == rest[i - 1];
        assert k + i == k + 1 + (i - 1);
      }
    }
  }

  lemma PassingRoundIsOk(rows: Outbox, ids: seq<string>, limit: nat, now: Time)
    requires limit >= 1 && ValidChoice(rows, ids, limit, now)
    ensures var r := PassingRound(ids, limit, now);
            RoundOk(rows, r) && Seen(rows, r) == rows && Finished(r.now, r.calls) == now
  {
    var r := PassingRound(ids, limit, now);
    assert Seen(rows, r) == rows;
  }

  lemma RoundInFront(env: Env, rows: Outbox, r: Round, rest: seq<Round>, id: string, now: Time, next: Time)
    requires RoundOk(rows, r) && now <= r.now && ArrivesBehind(rows, id, r) && CountsFit(Seen(rows, r))
    requires Finished(r.now, r.calls) <= next && Schedule(env, AfterRound(env, rows, r), rest, id, next)
    ensures Schedule(env, rows, [r] + rest, id, now)
  {
    assert ([r] + rest)[1..] == rest;
  }

  // ---------------------------------------------------------------------

  /** Every schedule of n rounds of this limit, m of them or more to the minute, claims the row. */
  ghost predicate ClaimedAtPace(env: Env, rows: Outbox, id: string, since: Time, limit: nat, m: nat, n: nat)
  {
    forall rounds: seq<Round> ::
      Schedule(env, rows, rounds, id, since) && AllOf(rounds, limit) && Brisk(rounds, m) && |rounds| == n ==>
        Claimed(rounds, id)
  }

  /** Starvation at a pace: with m rounds to the minute a claimable row is bound to be claimed, in any number of rounds
      from m times the work ahead on, if and only if fewer undecodable rows are ahead of it than m rounds claim. */
  lemma StarvationAtPaceIsExact(env: Env, rows: Outbox, id: string, ahead: seq<string>, since: Time, limit: nat,
                                m: nat, n: nat)
    requires 1 <= m <= MINUTE && limit >= 1 && Covers(rows, id, ahead) && Claimable(rows[id], since) && CountsFit(rows)
    requires n >= m * (Work(env, rows, ahead) + 1) && HasRoom(rows, id, n)
    ensures ClaimedAtPace(env, rows, id, since, limit, m, n) <==> |Stuck(rows, id)| < m * limit
  {
    if |Stuck(rows, id)| < m * limit {
      BoundToBeClaimed(env, rows, id, ahead, since, limit, m, n);
    } else {
      var rounds := StarvingSchedule(env, rows, id, since, limit, m, n);
      assert !Claimed(rounds, id);
    }
  }

  lemma BoundToBeClaimed(env: Env, rows: Outbox, id: string, ahead: seq<string>, since: Time, limit: nat, m: nat,
                         n: nat)
    requires m >= 1 && Covers(rows, id, ahead) && Claimable(rows[id], since)
    requires n >= m * (Work(env, rows, ahead) + 1) && HasRoom(rows, id, n) && |Stuck(rows, id)| < m * limit
    ensures ClaimedAtPace(env, rows, id, since, limit, m, n)
  {
    var turns := Work(env, rows, ahead) + 1;
    var needed: nat := m * turns;
    assert Waits(Moment(rows, since), id, ahead, needed);
    forall rounds: seq<Round> | Schedule(env, rows, rounds, id, since) && AllOf(rounds, limit) && Brisk(rounds, m) &&
      |rounds| == n
      ensures Claimed(rounds, id)
    {
      AtThisPace(env, Moment(rows, since), rounds, id, ahead, limit, m, turns, needed);
    }
  }

  lemma AtThisPace(env: Env, a: Moment, rounds: seq<Round>, id: string, ahead: seq<string>, limit: nat, m: nat,
                   turns: nat, n: nat)
    requires Schedule(env, a.rows, rounds, id, a.since) && AllOf(rounds, limit) && Brisk(rounds, m) && m >= 1
    requires n == m * turns && |rounds| >= n && Waits(a, id, ahead, n)
    requires |Stuck(a.rows, id)| < m * limit && turns > Work(env, a.rows, ahead)
    ensures Claimed(rounds, id)
  {
    var trace := HasTrace(env, a.rows, rounds, id, a.since);
    BriskRoundsClaim(env, trace, rounds, 0, id, ahead, limit, m, turns, n);
  }

  /** With m claims' worth of undecodable rows ahead, a schedule of any length with m rounds to the minute that passes
      the row by. */
  lemma StarvingSchedule(env: Env, rows: Outbox, id: string, since: Time, limit: nat, m: nat, n: nat)
    returns (rounds: seq<Round>)
    requires 1 <= m <= MINUTE && limit >= 1 && id in rows && Claimable(rows[id], since) && CountsFit(rows)
    requires |Stuck(rows, id)| >= m * limit
    ensures |rounds| == n && Schedule(env, rows, rounds, id, since) && AllOf(rounds, limit) && Brisk(rounds, m)
    ensures forall k :: 0 <= k < n ==> id !in rounds[k].ids
  {
    var keys := Stuck(rows, id);
    var start := ClaimableTogether(rows, keys, since);
    var due := map x | x in keys :: 0;
    forall d | d > 0 ensures |From(keys, due, d)| <= limit {
      assert From(keys, due, d) == {};
    }
    assert RoundTime(start, m, 0) == start;
    ClaimableLater(rows[id], since, start);
    rounds := StarveBriskly(env, rows, id, keys, due, start, m, limit, 0, n);
    forall k, l | 0 <= k <= l < |rounds| && l < k + m ensures rounds[l].now < rounds[k].now + MINUTE {
      TimesAreBrisk(start, m, k, l);
    }
  }
}
