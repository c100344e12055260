/** When a row can be starved by rounds that may lie arbitrarily far apart: exactly when as many undecodable rows are
    ahead of it as a round claims. Pace says what becomes of this when the loop is faster. */
module Starvation {
  import opened Wrappers
  import opened EventBus
  import opened Tables
  import opened Pipeline
  import opened Publishing
  import opened Progress

  // ---------------------------------------------------------------------
  // Rounds that pass a row by

  /** From some time on all of these rows are claimable at once. */
  lemma ClaimableTogether(rows: Outbox, keys: set<string>, since: Time) returns (t: Time)
    requires forall k :: k in keys ==> k in rows && WillBeClaimable(rows[k])
    ensures t >= since && forall k :: k in keys ==> Claimable(rows[k], t)
    decreases |keys|
  {
    t := since;
    if keys != {} {
      var x :| x in keys;
      t := ClaimableTogether(rows, keys - {x}, since);
      var u := if t > HeldUntil(rows[x]) then t else HeldUntil(rows[x]) + 1;
      EventuallyClaimable(rows[x]);
      forall k | k in keys ensures Claimable(rows[k], u) {
        if k != x {
          ClaimableLater(rows[k], t, u);
        }
      }
      t := u;
    }
  }

  /** A row of the pool that no other comes before. */
  lemma Earliest(rows: Outbox, pool: set<string>) returns (x: string)
    requires pool != {} && forall k :: k in pool ==> k in rows
    ensures x in pool && forall k :: k in pool ==> !Before(rows[k], rows[x])
    decreases |pool|
  {
    x :| x in pool;
    if pool != {x} {
      var y := Earliest(rows, pool - {x});
      if Before(rows[y], rows[x]) {
        x := y;
      }
    }
  }

  /** The first n rows of the pool, in the order of the claim. */
  lemma FirstOf(rows: Outbox, pool: set<string>, n: nat) returns (ids: seq<string>)
    requires |pool| >= n && forall k :: k in pool ==> k in rows
    ensures |ids| == n && Distinct(ids) && forall k :: k in ids ==> k in pool
    ensures forall k, x :: k in pool && k !in ids && x in ids ==> !Before(rows[k], rows[x])
  {
    if n == 0 {
      ids := [];
    } else {
      var x := Earliest(rows, pool);
      var rest := FirstOf(rows, pool - {x}, n - 1);
      ids := [x] + rest;
      forall i, j | 0 <= i < j < |ids| ensures ids[i] != ids[j] {
        assert ids[j] in rest;
      }
    }
  }

  /** When a limit's worth of claimable rows do not come after it, the claim may pass a row by. */
  lemma MayPassBy(rows: Outbox, id: string, ahead: set<string>, limit: nat, now: Time) returns (ids: seq<string>)
    requires id in rows && |ahead| >= limit
    requires forall k :: k in ahead ==> k in rows && AheadOf(rows, id, k) && Claimable(rows[k], now)
    ensures ValidChoice(rows, ids, limit, now) && id !in ids
  {
    var pool := set k | k in rows && k != id && Claimable(rows[k], now);
    SubsetSize(ahead, pool);
    ids := FirstOf(rows, pool, limit);
    DistinctSize(ids);
    var chosen := set k | k in ids;
    forall x | x in ids ensures !Before(rows[id], rows[x]) {
      if Before(rows[id], rows[x]) {
        forall k | k in ahead ensures k in chosen - {x} {
          assert !Before(rows[id], rows[k]);
          assert Before(rows[k], rows[x]);
        }
        SubsetSize(ahead, chosen - {x});
        assert false;
      }
    }
  }

  // ---------------------------------------------------------------------
  // Such a round leaves everything as it was for the row

  function Delivering(now: Time): Call {
    Call(PublishIo("", Delivered(0), NotSent(""), true, true), map[], now)
  }

  function PassingRound(ids: seq<string>, limit: nat, now: Time): Round {
    Round(map[], now, "outbox-worker", ids, limit, 30, seq(|ids|, i => Delivering(now)))
  }

  /** With a broker that takes everything, a decodable row that is claimed leaves the backlog. */
  lemma DeliveredRowLeaves(env: Env, rows: Outbox, k: string, worker: string, until: Time, now: Time)
    requires k in rows && rows[k].payload.Readable? && rows[k].attemptCount < MAX_I32
    ensures !InBacklog(RowAfterCall(env, ClaimRow(rows[k], worker, until), Returned(rows, k, until), Delivering(now)))
  {
  }

  lemma DeliveredLeaves(env: Env, rows: Outbox, ids: seq<string>, limit: nat, now: Time, k: string)
    requires RoundOk(rows, PassingRound(ids, limit, now)) && k in ids && rows[k].payload.Readable? &&
             rows[k].attemptCount < MAX_I32
    ensures var after := AfterRound(env, rows, PassingRound(ids, limit, now)); k in after && !InBacklog(after[k])
  {
    var r := PassingRound(ids, limit, now);
    assert Seen(rows, r) == rows;
    var i :| 0 <= i < |ids| && ids[i] == k;
    assert r.calls[i] == Delivering(now);
    DeliveredRowLeaves(env, rows, k, r.worker, SecondsFrom(now, 30), now);
    RowOfRound(env, rows, r, k);
  }

  lemma PassingRoundKeeps(env: Env, rows: Outbox, ids: seq<string>, limit: nat, now: Time, id: string)
    requires RoundOk(rows, PassingRound(ids, limit, now)) && CountsFit(rows) && id in rows && id !in ids
    ensures var after := AfterRound(env, rows, PassingRound(ids, limit, now));
            id in after && after[id] == rows[id] && CountsFit(after) && Stuck(rows, id) <= Stuck(after, id)
  {
    var r := PassingRound(ids, limit, now);
    var after := AfterRound(env, rows, r);
    assert Seen(rows, r) == rows;
    RoundFacts(env, rows, r);
    assert Through(env, rows[id], after[id], false);
    forall k | k in after && after[k].payload.Readable? && InBacklog(after[k]) ensures after[k].attemptCount < MAX_I32 {
      assert Through(env, rows[k], after[k], k in ids);
      if k in ids {
        DeliveredLeaves(env, rows, ids, limit, now, k);
      }
    }
    forall k | k in Stuck(rows, id) ensures k in Stuck(after, id) {
      assert Through(env, rows[k], after[k], k in ids);
    }
  }

  /** With a limit's worth of undecodable rows ahead of it, a row can be passed by in one round, and then again. */
  lemma PassBy(env: Env, rows: Outbox, id: string, since: Time, limit: nat) returns (r: Round)
    requires id in rows && Claimable(rows[id], since) && CountsFit(rows) && 1 <= limit <= |Stuck(rows, id)|
    ensures RoundOk(rows, r) && r.arrivals == map[] && r.limit == limit && r.now >= since && id !in r.ids
    ensures var after := AfterRound(env, rows, r);
            && id in after && Claimable(after[id], r.now) && CountsFit(after) && limit <= |Stuck(after, id)|
            && Finished(r.now, r.calls) == r.now
  {
    var now := ClaimableTogether(rows, Stuck(rows, id), since);
    var ids := MayPassBy(rows, id, Stuck(rows, id), limit, now);
    r := PassingRound(ids, limit, now);
    assert Seen(rows, r) == rows;
    assert RoundOk(rows, r);
    PassingRoundKeeps(env, rows, ids, limit, now, id);
    ClaimableLater(rows[id], since, now);
    SubsetSize(Stuck(rows, id), Stuck(AfterRound(env, rows, r), id));
  }

  /** The rounds of this schedule come late enough for every undecodable row ahead to be due again. */
  lemma {:induction false} UndecodableRowsStarve(env: Env, rows: Outbox, id: string, since: Time, limit: nat, n: nat)
    returns (rounds: seq<Round>)
    requires id in rows && Claimable(rows[id], since) && CountsFit(rows) && 1 <= limit <= |Stuck(rows, id)|
    ensures |rounds| == n && Schedule(env, rows, rounds, id, since)
    ensures forall k :: 0 <= k < n ==> rounds[k].limit == limit && id !in rounds[k].ids
    decreases n
  {
    rounds := [];
    if n > 0 {
      var r := PassBy(env, rows, id, since, limit);
      var rest := UndecodableRowsStarve(env, AfterRound(env, rows, r), id, r.now, limit, n - 1);
      assert Seen(rows, r) == rows;
      rounds := [r] + rest;
      assert rounds[1..] == rest;
    }
  }

  // ---------------------------------------------------------------------

  /** Every schedule of rounds of this limit that is longer than the bound claims the row within it. */
  ghost predicate ClaimedWithin(env: Env, rows: Outbox, id: string, since: Time, limit: nat, bound: nat) {
    forall rounds: seq<Round> ::
      Schedule(env, rows, rounds, id, since) && AllOf(rounds, limit) && |rounds| > bound ==>
        exists k :: 0 <= k <= bound && id in rounds[k].ids
  }

  predicate AllOf(rounds: seq<Round>, limit: nat) {
    forall k :: 0 <= k < |rounds| ==> rounds[k].limit == limit
  }

  /** The decodable rows of the backlog ahead of it, as a list. */
  lemma ListOf(keys: set<string>) returns (list: seq<string>)
    ensures forall k :: k in keys <==> k in list
    decreases |keys|
  {
    list := [];
    if keys != {} {
      var x :| x in keys;
      var rest := ListOf(keys - {x});
      list := [x] + rest;
    }
  }

  /** With rounds that may lie any time apart, starvation is possible exactly when the undecodable rows ahead fill a
      claim: for any table, any claimable row and any claim limit, there is a number of rounds within which the row is
      claimed whatever the broker does and however late a round comes, if and only if fewer undecodable rows are ahead
      of it than a round claims. */
  lemma StarvationIsExact(env: Env, rows: Outbox, id: string, since: Time, limit: nat)
    requires limit >= 1 && id in rows && Claimable(rows[id], since) && CountsFit(rows)
    ensures (exists bound: nat :: ClaimedWithin(env, rows, id, since, limit, bound)) <==> |Stuck(rows, id)| < limit
  {
    if |Stuck(rows, id)| < limit {
      var ahead := ListOf(set k | k in rows && rows[k].payload.Readable? && InBacklog(rows[k]) && AheadOf(rows, id, k));
      var bound := Work(env, rows, ahead);
      forall rounds: seq<Round> | Schedule(env, rows, rounds, id, since) && AllOf(rounds, limit) && |rounds| > bound
        ensures exists k :: 0 <= k <= bound && id in rounds[k].ids
      {
        EveryRowIsClaimed(env, rows, rounds, id, ahead, since);
      }
      assert ClaimedWithin(env, rows, id, since, limit, bound);
    } else {
      forall bound: nat ensures !ClaimedWithin(env, rows, id, since, limit, bound) {
        var rounds := UndecodableRowsStarve(env, rows, id, since, limit, bound + 1);
        assert AllOf(rounds, limit);
      }
    }
  }
}
