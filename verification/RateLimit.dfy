/** src/rate_limit.rs: per-minute request counting, and the call history it stands for. */
module RateLimit {
  import opened Wrappers

  const MAX_U32 := 0xffff_ffff

  type u32 = n: nat | n <= MAX_U32

  datatype Bucket = Bucket(windowMinute: nat, count: u32)

  type Buckets = map<string, Bucket>

  datatype Decision = Decision(key: string, retryAfterSeconds: nat)

  function WindowMinute(unixSeconds: nat): nat {
    unixSeconds / 60
  }

  function SecondsUntilNextMinute(unixSeconds: nat): nat {
    60 - unixSeconds % 60
  }

  // ---------------------------------------------------------------------
  // One call, as a function of the buckets.

  /** What a key has used of the given minute. */
  function Used(b: Buckets, key: string, window: nat): u32 {
    if key in b && b[key].windowMinute == window then b[key].count else 0
  }

  /** The place of the first key that has no room left, or the number of keys. */
  function FirstFull(b: Buckets, keys: seq<string>, max: u32, window: nat): nat {
    if keys == [] then 0
    else if keys[0] in b && Used(b, keys[0], window) >= max then 0
    else 1 + FirstFull(b, keys[1..], max, window)
  }

  /** The first loop: buckets of another minute start over. */
  function Refreshed(b: Buckets, keys: seq<string>, window: nat): Buckets {
    map k | k in b :: if k in keys && b[k].windowMinute != window then Bucket(window, 0) else b[k]
  }

  /** entry().or_insert(..) and saturating_add. */
  function Bumped(b: Buckets, key: string, window: nat): Buckets {
    var bucket := if key in b then b[key] else Bucket(window, 0);
    b[key := bucket.(count := if bucket.count < MAX_U32 then bucket.count + 1 else MAX_U32)]
  }

  /** The second loop. */
  function Charged(b: Buckets, keys: seq<string>, window: nat): Buckets {
    if keys == [] then b else Bumped(Charged(b, keys[..|keys| - 1], window), keys[|keys| - 1], window)
  }

  predicate Accepts(b: Buckets, keys: seq<string>, max: u32, window: nat) {
    max > 0 && FirstFull(b, keys, max, window) >= |keys|
  }

  function AfterCheck(b: Buckets, keys: seq<string>, max: u32, window: nat): Buckets {
    if max == 0 then b
    else
      var full := FirstFull(b, keys, max, window);
      if full < |keys| then Refreshed(b, keys[..full + 1], window)
      else Charged(Refreshed(b, keys, window), keys, window)
  }

  lemma {:induction false} FirstFullIsFirst(b: Buckets, keys: seq<string>, max: u32, window: nat)
    ensures var full := FirstFull(b, keys, max, window);
            && full <= |keys|
            && (forall i :: 0 <= i < full ==> keys[i] !in b || Used(b, keys[i], window) < max)
            && (full < |keys| ==> keys[full] in b && Used(b, keys[full], window) >= max)
  {
    if keys != [] {
      FirstFullIsFirst(b, keys[1..], max, window);
      var full := FirstFull(b, keys, max, window);
      forall i | 0 <= i < full ensures keys[i] !in b || Used(b, keys[i], window) < max {
        if i > 0 {
          assert keys[i] == keys[1..][i - 1];
        }
      }
    }
  }

  lemma {:induction false} FullUnique(b: Buckets, keys: seq<string>, max: u32, window: nat, i: nat)
    requires i <= |keys| && forall j :: 0 <= j < i ==> keys[j] !in b || Used(b, keys[j], window) < max
    requires i < |keys| ==> keys[i] in b && Used(b, keys[i], window) >= max
    ensures FirstFull(b, keys, max, window) == i
  {
    FirstFullIsFirst(b, keys, max, window);
  }

  /** One turn of the first loop. */
  function RefreshedKey(b: Buckets, key: string, window: nat): Buckets {
    if key in b && b[key].windowMinute != window then b[key := Bucket(window, 0)] else b
  }

  lemma RefreshOne(b: Buckets, keys: seq<string>, i: nat, window: nat)
    requires i < |keys|
    ensures var before, after := Refreshed(b, keys[..i], window), Refreshed(b, keys[..i + 1], window);
            && after == RefreshedKey(before, keys[i], window)
            && (keys[i] in before <==> keys[i] in b)
            && (keys[i] in after <==> keys[i] in b)
            && (keys[i] in b ==> after[keys[i]].count == Used(b, keys[i], window))
  {
    assert keys[..i + 1] == keys[..i] + [keys[i]];
  }

  class RateLimiter {
    var buckets: Buckets

    constructor ()
      ensures buckets == map[]
    {
      buckets := map[];
    }

    /** now and later are the two readings of the clock. */
    method Check(keys: seq<string>, maxPerMinute: u32, now: nat, later: nat) returns (r: Result<(), Decision>)
      modifies this
      ensures buckets == AfterCheck(old(buckets), keys, maxPerMinute, WindowMinute(now))
      ensures r.Ok? <==> Accepts(old(buckets), keys, maxPerMinute, WindowMinute(now))
      ensures r.Err? ==> r.error.retryAfterSeconds == SecondsUntilNextMinute(later)
      ensures r.Err? && maxPerMinute == 0 ==> r.error.key == if keys == [] then "global" else keys[0]
      ensures r.Err? && maxPerMinute > 0 ==>
                var full := FirstFull(old(buckets), keys, maxPerMinute, WindowMinute(now));
                full < |keys| && r.error.key == keys[full]
    {
      if maxPerMinute == 0 {
        return Err(Decision(if keys == [] then "global" else keys[0], SecondsUntilNextMinute(later)));
      }
      var window := WindowMinute(now);
      var full := RefreshUntilFull(keys, maxPerMinute, window);
      if full < |keys| {
        return Err(Decision(keys[full], SecondsUntilNextMinute(later)));
      }
      assert keys[..full] == keys;
      Charge(keys, window);
      return Ok(());
    }

    /** The first loop of check: stops at the first key that is at its limit. */
    method RefreshUntilFull(keys: seq<string>, maxPerMinute: u32, window: nat) returns (full: nat)
      modifies this
      ensures full == FirstFull(old(buckets), keys, maxPerMinute, window) <= |keys|
      ensures buckets == Refreshed(old(buckets), keys[..if full < |keys| then full + 1 else full], window)
    {
      var i := 0;
      while i < |keys|
        invariant 0 <= i <= |keys|
        invariant buckets == Refreshed(old(buckets), keys[..i], window)
        invariant forall j :: 0 <= j < i ==>
                  keys[j] !in old(buckets) || Used(old(buckets), keys[j], window) < maxPerMinute
      {
        var key := keys[i];
        RefreshOne(old(buckets), keys, i, window);
        if key in buckets && buckets[key].windowMinute != window {
          buckets := buckets[key := Bucket(window, 0)];
        }
        assert buckets == Refreshed(old(buckets), keys[..i + 1], window);
        if key in buckets && buckets[key].count >= maxPerMinute {
          FullUnique(old(buckets), keys, maxPerMinute, window, i);
          return i;
        }
        i := i + 1;
      }
      FullUnique(old(buckets), keys, maxPerMinute, window, i);
      return i;
    }

    /** The second loop of check: one more call for every key. */
    method Charge(keys: seq<string>, window: nat)
      modifies this
      ensures buckets == Charged(old(buckets), keys, window)
    {
      var i := 0;
      while i < |keys|
        invariant 0 <= i <= |keys|
        invariant buckets == Charged(old(buckets), keys[..i], window)
      {
        assert keys[..i + 1][..i] == keys[..i];
        var bucket := if keys[i] in buckets then buckets[keys[i]] else Bucket(window, 0);
        buckets := buckets[keys[i] := bucket.(count := if bucket.count < MAX_U32 then bucket.count + 1 else MAX_U32)];
        i := i + 1;
      }
      assert keys[..i] == keys;
    }
  }

  // ---------------------------------------------------------------------
  // Histories of calls.

  datatype Call = Call(at: nat, keys: seq<string>, max: u32)

  function Minute(c: Call): nat {
    WindowMinute(c.at)
  }

  /** The buckets after a list of calls on a fresh limiter. */
  function After(calls: seq<Call>): Buckets {
    if calls == [] then map[]
    else
      var c := calls[|calls| - 1];
      AfterCheck(After(calls[..|calls| - 1]), c.keys, c.max, Minute(c))
  }

  predicate AcceptedNext(calls: seq<Call>, c: Call) {
    Accepts(After(calls), c.keys, c.max, Minute(c))
  }

  predicate Accepted(calls: seq<Call>, i: nat)
    requires i < |calls|
  {
    AcceptedNext(calls[..i], calls[i])
  }

  function Occurrences(keys: seq<string>, key: string): nat {
    multiset(keys)[key]
  }

  /** How often the key occurs in the accepted calls of the minute. */
  function Hits(calls: seq<Call>, key: string, window: nat): nat {
    if calls == [] then 0
    else
      var last := |calls| - 1;
      Hits(calls[..last], key, window) +
      if Accepted(calls, last) && Minute(calls[last]) == window then Occurrences(calls[last].keys, key) else 0
  }

  function Capped(n: nat): u32 {
    if n < MAX_U32 then n else MAX_U32
  }

  function Minutes(calls: seq<Call>): seq<nat> {
    seq(|calls|, i requires 0 <= i < |calls| => Minute(calls[i]))
  }

  /** The minutes read by successive calls do not go back. */
  predicate ClockForward(calls: seq<Call>) {
    forall i, j :: 0 <= i < j < |calls| ==> Minute(calls[i]) <= Minute(calls[j])
  }

  /** No minute comes again after a different one: calls of one minute are next to each other. */
  predicate NoReturn(minutes: seq<nat>) {
    forall i, j, k :: 0 <= i < j < k < |minutes| && minutes[i] == minutes[k] ==> minutes[j] == minutes[i]
  }

  /** The minute was read by some call and another one after it: buckets may have forgotten it. */
  predicate LeftBehind(calls: seq<Call>, window: nat) {
    exists i, j :: 0 <= i < j < |calls| && Minute(calls[i]) == window && Minute(calls[j]) != window
  }

  /** A key's bucket holds what the history says about its minute, and minutes it no longer holds are left behind. */
  ghost predicate KeyAgrees(b: Buckets, calls: seq<Call>, key: string) {
    && (key in b ==> b[key].count == Capped(Hits(calls, key, b[key].windowMinute)))
    && forall w: nat :: Hits(calls, key, w) > 0 ==> (key in b && b[key].windowMinute == w) || LeftBehind(calls, w)
  }

  // ---------------------------------------------------------------------
  // The buckets stand for the history.

  lemma {:induction false} ChargedAt(b: Buckets, keys: seq<string>, window: nat, key: string)
    ensures var r := Charged(b, keys, window);
            && (key in r <==> key in b || key in keys)
            && (key in r ==>
                  && r[key].windowMinute == (if key in b then b[key].windowMinute else window)
                  && r[key].count == Capped((if key in b then b[key].count else 0) + Occurrences(keys, key)))
  {
    if keys != [] {
      var last := |keys| - 1;
      ChargedAt(b, keys[..last], window, key);
      assert keys == keys[..last] + [keys[last]];
    }
  }

  lemma HitsSnoc(calls: seq<Call>, c: Call, key: string, window: nat)
    ensures Hits(calls + [c], key, window)
            == Hits(calls, key, window) + if AcceptedNext(calls, c) && Minute(c) == window then Occurrences(c.keys, key)
              else 0
    ensures After(calls + [c]) == AfterCheck(After(calls), c.keys, c.max, Minute(c))
  {
    assert (calls + [c])[..|calls|] == calls;
  }

  lemma NotListed(keys: seq<string>, key: string)
    ensures key in keys <==> Occurrences(keys, key) > 0
  {
  }

  lemma {:induction false} HitsHappened(calls: seq<Call>, key: string, w: nat)
    requires Hits(calls, key, w) > 0
    ensures exists i :: 0 <= i < |calls| && Minute(calls[i]) == w
  {
    var last := |calls| - 1;
    if Hits(calls[..last], key, w) > 0 {
      HitsHappened(calls[..last], key, w);
      var i :| 0 <= i < last && Minute(calls[..last][i]) == w;
      assert Minute(calls[i]) == w;
    } else {
      assert Minute(calls[last]) == w;
    }
  }

  lemma LeftBehindSnoc(calls: seq<Call>, c: Call, w: nat)
    ensures LeftBehind(calls, w) ==> LeftBehind(calls + [c], w)
    ensures (exists i :: 0 <= i < |calls| && Minute(calls[i]) == w) && Minute(c) != w ==> LeftBehind(calls + [c], w)
  {
    var all := calls + [c];
    if LeftBehind(calls, w) {
      var i, j :| 0 <= i < j < |calls| && Minute(calls[i]) == w && Minute(calls[j]) != w;
      assert Minute(all[i]) == w && Minute(all[j]) != w;
    }
    if i :| 0 <= i < |calls| && Minute(calls[i]) == w {
      assert Minute(all[i]) == w && all[|calls|] == c;
    }
  }

  /** Unless a call comes in a minute that was left behind, it keeps the agreement. */
  lemma AgreesStep(calls: seq<Call>, c: Call, key: string)
    requires KeyAgrees(After(calls), calls, key) && !LeftBehind(calls, Minute(c))
    ensures KeyAgrees(After(calls + [c]), calls + [c], key)
  {
    var b, w0, all := After(calls), Minute(c), calls + [c];
    var b' := After(all);
    forall w: nat ensures Hits(all, key, w) == Hits(calls, key, w) +
                            (if AcceptedNext(calls, c) && w0 == w then Occurrences(c.keys, key) else 0)
    {
      HitsSnoc(calls, c, key, w);
    }
    HitsSnoc(calls, c, key, w0);
    BucketAfter(b, c.keys, c.max, w0, key);
    NotListed(c.keys, key);
    forall w: nat | Hits(all, key, w) > 0 ensures (key in b' && b'[key].windowMinute == w) || LeftBehind(all, w) {
      LeftBehindSnoc(calls, c, w);
      if Hits(calls, key, w) > 0 {
        HitsHappened(calls, key, w);
      }
    }
  }

  /** What one call does to a key's bucket: nothing, start it over in the call's minute, or count the call. */
  lemma BucketAfter(b: Buckets, keys: seq<string>, max: u32, w0: nat, key: string)
    ensures var b' := AfterCheck(b, keys, max, w0);
            if Accepts(b, keys, max, w0) && key in keys then
              key in b' && b'[key] == Bucket(w0, Capped(Used(b, key, w0) + Occurrences(keys, key)))
            else
              && (key in b' <==> key in b)
              && (key in b ==> b'[key] == b[key] || (b[key].windowMinute != w0 && b'[key] == Bucket(w0, 0)))
  {
    FirstFullIsFirst(b, keys, max, w0);
    NotListed(keys, key);
    if Accepts(b, keys, max, w0) {
      ChargedAt(Refreshed(b, keys, w0), keys, w0, key);
    }
  }

  lemma EarlierNoReturn(calls: seq<Call>, c: Call)
    requires NoReturn(Minutes(calls + [c]))
    ensures NoReturn(Minutes(calls)) && !LeftBehind(calls, Minute(c))
  {
    var minutes := Minutes(calls + [c]);
    assert minutes[|calls|] == Minute(c);
    assert forall i :: 0 <= i < |calls| ==> minutes[i] == Minute(calls[i]) == Minutes(calls)[i];
  }

  lemma {:induction false} HistoryAgrees(calls: seq<Call>, key: string)
    requires NoReturn(Minutes(calls))
    ensures KeyAgrees(After(calls), calls, key)
  {
    if calls != [] {
      var last := |calls| - 1;
      assert calls == calls[..last] + [calls[last]];
      EarlierNoReturn(calls[..last], calls[last]);
      HistoryAgrees(calls[..last], key);
      AgreesStep(calls[..last], calls[last], key);
    }
  }

  /** When no minute returned, what a key has used of a minute that is not left behind is its number of occurrences in
      the accepted calls of that minute; the 32-bit cap is the only difference. */
  lemma UsedIsHits(calls: seq<Call>, key: string, window: nat)
    requires NoReturn(Minutes(calls)) && !LeftBehind(calls, window)
    ensures Used(After(calls), key, window) == Capped(Hits(calls, key, window))
  {
    HistoryAgrees(calls, key);
  }

  /** Refinement: a call is accepted exactly when the limit is positive and each of its keys occurs less often than
      the limit in the accepted calls of the current minute. A refused call names the first key at its limit. */
  lemma CheckRefinesHistory(calls: seq<Call>, c: Call)
    requires NoReturn(Minutes(calls + [c]))
    ensures AcceptedNext(calls, c) <==> c.max > 0 && forall k :: k in c.keys ==> Hits(calls, k, Minute(c)) < c.max
    ensures c.max > 0 && !AcceptedNext(calls, c) ==>
              var full := FirstFull(After(calls), c.keys, c.max, Minute(c));
              && full < |c.keys| && Hits(calls, c.keys[full], Minute(c)) >= c.max
              && forall i :: 0 <= i < full ==> Hits(calls, c.keys[i], Minute(c)) < c.max
  {
    EarlierNoReturn(calls, c);
    var b, w := After(calls), Minute(c);
    var full := FirstFull(b, c.keys, c.max, w);
    FirstFullIsFirst(b, c.keys, c.max, w);
    forall i | 0 <= i < full && c.max > 0 ensures Hits(calls, c.keys[i], w) < c.max {
      UsedIsHits(calls, c.keys[i], w);
    }
    if AcceptedNext(calls, c) {
      forall k | k in c.keys ensures Hits(calls, k, w) < c.max {
        var i :| 0 <= i < |c.keys| && c.keys[i] == k;
      }
    } else if c.max > 0 {
      UsedIsHits(calls, c.keys[full], w);
      assert c.keys[full] in c.keys;
    }
  }

  predicate Distinct(keys: seq<string>) {
    forall i, j :: 0 <= i < j < |keys| ==> keys[i] != keys[j]
  }

  lemma {:induction false} DistinctOccurOnce(keys: seq<string>, key: string)
    requires Distinct(keys)
    ensures Occurrences(keys, key) <= 1
  {
    if keys != [] {
      DistinctOccurOnce(keys[1..], key);
      assert keys == [keys[0]] + keys[1..];
      NotListed(keys[1..], key);
    }
  }

  /** When no call lists a key twice the 32-bit cap is never met: the stored count is the history count. */
  lemma {:induction false} CountsAreExact(calls: seq<Call>, key: string, window: nat)
    requires NoReturn(Minutes(calls)) && forall i :: 0 <= i < |calls| ==> Distinct(calls[i].keys)
    requires !LeftBehind(calls, window)
    ensures Hits(calls, key, window) <= MAX_U32 && Used(After(calls), key, window) == Hits(calls, key, window)
  {
    if calls != [] {
      var last := |calls| - 1;
      var before, c := calls[..last], calls[last];
      assert calls == before + [c];
      EarlierNoReturn(before, c);
      LeftBehindSnoc(before, c, window);
      CountsAreExact(before, key, window);
      CheckRefinesHistory(before, c);
      DistinctOccurOnce(c.keys, key);
      NotListed(c.keys, key);
    }
    UsedIsHits(calls, key, window);
  }

  /** A clock that does not go back returns to no minute. */
  lemma ForwardIsNoReturn(calls: seq<Call>)
    requires ClockForward(calls)
    ensures NoReturn(Minutes(calls))
  {
    var minutes := Minutes(calls);
    forall i, j, k | 0 <= i < j < k < |minutes| && minutes[i] == minutes[k] ensures minutes[j] == minutes[i] {
      assert Minute(calls[i]) <= Minute(calls[j]) <= Minute(calls[k]);
    }
  }

  /** Atomicity: a refused call changes what no key has used of the minute, an accepted one adds its own keys to it. */
  lemma CheckIsAtomic(b: Buckets, keys: seq<string>, max: u32, window: nat, key: string)
    ensures Used(AfterCheck(b, keys, max, window), key, window)
            == if Accepts(b, keys, max, window) then Capped(Used(b, key, window) + Occurrences(keys, key))
               else Used(b, key, window)
  {
    FirstFullIsFirst(b, keys, max, window);
    NotListed(keys, key);
    if Accepts(b, keys, max, window) {
      ChargedAt(Refreshed(b, keys, window), keys, window, key);
    }
  }

  // ---------------------------------------------------------------------
  // Window bounds.

  /** Accepted calls with this key whose time lies in from..to, inclusive. */
  function CallsBetween(calls: seq<Call>, key: string, from: nat, to: nat): nat {
    if calls == [] then 0
    else
      var last := |calls| - 1;
      CallsBetween(calls[..last], key, from, to) +
      if Accepted(calls, last) && key in calls[last].keys && from <= calls[last].at <= to then 1 else 0
  }

  predicate LimitedTo(calls: seq<Call>, key: string, m: nat) {
    forall i :: 0 <= i < |calls| && key in calls[i].keys ==> calls[i].max <= m
  }

  /** At most m accepted calls with a key in one minute, when m bounds the limits it is checked against. */
  lemma {:induction false} MinuteBound(calls: seq<Call>, key: string, m: nat, window: nat)
    requires NoReturn(Minutes(calls)) && LimitedTo(calls, key, m)
    ensures CallsBetween(calls, key, 60 * window, 60 * window + 59) <= Hits(calls, key, window)
    ensures CallsBetween(calls, key, 60 * window, 60 * window + 59) <= m
  {
    if calls != [] {
      var last := |calls| - 1;
      var c := calls[last];
      assert calls == calls[..last] + [c];
      EarlierNoReturn(calls[..last], c);
      MinuteBound(calls[..last], key, m, window);
      CheckRefinesHistory(calls[..last], c);
      NotListed(c.keys, key);
      assert 60 * window <= c.at <= 60 * window + 59 <==> Minute(c) == window;
    }
  }

  lemma {:induction false} SplitInterval(calls: seq<Call>, key: string, from: nat, mid: nat, to: nat)
    requires from <= mid <= to
    ensures CallsBetween(calls, key, from, to) <=
            CallsBetween(calls, key, from, mid) + CallsBetween(calls, key, mid + 1, to)
  {
    if calls != [] {
      SplitInterval(calls[..|calls| - 1], key, from, mid, to);
    }
  }

  lemma {:induction false} WiderInterval(calls: seq<Call>, key: string, from: nat, to: nat, from': nat, to': nat)
    requires from' <= from && to <= to'
    ensures CallsBetween(calls, key, from, to) <= CallsBetween(calls, key, from', to')
  {
    if calls != [] {
      WiderInterval(calls[..|calls| - 1], key, from, to, from', to');
    }
  }

  /** At most 2m accepted calls with a key in any 60 seconds, both ends included. */
  lemma SixtySecondBound(calls: seq<Call>, key: string, m: nat, t: nat)
    requires NoReturn(Minutes(calls)) && LimitedTo(calls, key, m)
    ensures CallsBetween(calls, key, t, t + 60) <= 2 * m
  {
    var w := t / 60;
    MinuteBound(calls, key, m, w);
    MinuteBound(calls, key, m, w + 1);
    SplitInterval(calls, key, t, 60 * w + 59, t + 60);
    WiderInterval(calls, key, t, 60 * w + 59, 60 * w, 60 * w + 59);
    WiderInterval(calls, key, 60 * w + 60, t + 60, 60 * (w + 1), 60 * (w + 1) + 59);
  }

  /** A call of a later minute than the last keeps a history whose clock never goes back so. */
  lemma ForwardOnward(calls: seq<Call>, c: Call, retry: Call)
    requires ClockForward(calls + [c]) && Minute(c) < Minute(retry)
    ensures ClockForward(calls + [c] + [retry])
  {
    var past, all := calls + [c], calls + [c] + [retry];
    assert past[|calls|] == c;
    forall i, j | 0 <= i < j < |all| ensures Minute(all[i]) <= Minute(all[j]) {
      assert all[i] == past[i] && (j < |past| ==> all[j] == past[j]);
      assert i < |calls| ==> Minute(past[i]) <= Minute(past[|calls|]);
    }
  }

  lemma NoHitsYet(calls: seq<Call>, c: Call, k: string, minute: nat)
    requires ClockForward(calls + [c]) && Minute(c) < minute
    ensures Hits(calls + [c], k, minute) == 0
  {
    var past := calls + [c];
    assert past[|calls|] == c;
    if Hits(past, k, minute) > 0 {
      HitsHappened(past, k, minute);
    }
  }

  /** retry_after_seconds is between 1 and 60 and ends exactly where the next minute begins, where the same call is
      accepted if nothing else was checked meanwhile. */
  lemma RetryAfterSuffices(calls: seq<Call>, c: Call, later: nat)
    requires ClockForward(calls + [c]) && !AcceptedNext(calls, c) && c.max > 0 && c.at <= later
    ensures 1 <= SecondsUntilNextMinute(later) <= 60
    ensures AcceptedNext(calls + [c], Call(later + SecondsUntilNextMinute(later), c.keys, c.max))
  {
    var retry := Call(later + SecondsUntilNextMinute(later), c.keys, c.max);
    assert Minute(retry) == later / 60 + 1;
    assert Minute(c) <= later / 60;
    forall k ensures Hits(calls + [c], k, Minute(retry)) == 0 {
      NoHitsYet(calls, c, k, Minute(retry));
    }
    ForwardOnward(calls, c, retry);
    ForwardIsNoReturn(calls + [c] + [retry]);
    CheckRefinesHistory(calls + [c], retry);
  }

  /** Nor is a shorter wait enough: within the minute of the refusal the same call is refused again at every earlier
      moment. */
  lemma RetryAfterIsShortest(calls: seq<Call>, c: Call, later: nat, wait: nat)
    requires ClockForward(calls + [c]) && !AcceptedNext(calls, c) && c.at <= later && WindowMinute(later) == Minute(c)
    requires wait < SecondsUntilNextMinute(later)
    ensures !AcceptedNext(calls + [c], Call(later + wait, c.keys, c.max))
  {
    var retry := Call(later + wait, c.keys, c.max);
    assert Minute(retry) == Minute(c);
    if c.max > 0 {
      ForwardIsNoReturn(calls + [c]);
      CheckRefinesHistory(calls, c);
      var k :| k in c.keys && Hits(calls, k, Minute(c)) >= c.max;
      RefusedAddsNothing(calls, c, k);
      StaysInMinute(calls, c, retry);
      ForwardIsNoReturn(calls + [c] + [retry]);
      CheckRefinesHistory(calls + [c], retry);
    }
  }

  lemma RefusedAddsNothing(calls: seq<Call>, c: Call, key: string)
    requires !AcceptedNext(calls, c)
    ensures Hits(calls + [c], key, Minute(c)) == Hits(calls, key, Minute(c))
  {
    assert (calls + [c])[..|calls|] == calls;
  }

  lemma StaysInMinute(calls: seq<Call>, c: Call, retry: Call)
    requires ClockForward(calls + [c]) && Minute(retry) == Minute(c)
    ensures ClockForward(calls + [c] + [retry])
  {
    var past, all := calls + [c], calls + [c] + [retry];
    assert past[|calls|] == c;
    forall i, j | 0 <= i < j < |all| ensures Minute(all[i]) <= Minute(all[j]) {
      assert all[i] == past[i] && (j < |past| ==> all[j] == past[j]);
      assert i < |calls| ==> Minute(past[i]) <= Minute(past[|calls|]);
    }
  }

  /** A single key whose bucket is of another minute is accepted, and its bucket starts over. */
  lemma FreshMinute(b: Buckets, key: string, window: nat)
    requires key in b ==> b[key].windowMinute != window
    ensures Accepts(b, [key], 1, window) && AfterCheck(b, [key], 1, window) == b[key := Bucket(window, 1)]
  {
    var refreshed := Refreshed(b, [key], window);
    assert [key][..0] == [] && Charged(refreshed, [], window) == refreshed;
    assert Charged(refreshed, [key], window) == Bumped(refreshed, key, window);
  }

  // ---------------------------------------------------------------------
  // The exact condition.

  /** The bound for every key, limit and window of a history. */
  ghost predicate Bounded(calls: seq<Call>) {
    forall key: string, m: nat, window: nat :: LimitedTo(calls, key, m) ==> InMinute(calls, key, window) <= m
  }

  function InMinute(calls: seq<Call>, key: string, window: nat): nat {
    CallsBetween(calls, key, 60 * window, 60 * window + 59)
  }

  /** Calls at these minutes of which the chosen ones ask for the key, once each at limit 1, and the others for none. */
  function Probe(minutes: seq<nat>, key: string, chosen: set<nat>): seq<Call> {
    seq(|minutes|, x requires 0 <= x < |minutes| => Call(60 * minutes[x], if x in chosen then [key] else [], 1))
  }

  lemma ProbeBefore(minutes: seq<nat>, key: string, chosen: set<nat>, n: nat)
    requires n < |minutes|
    ensures var calls := Probe(minutes, key, chosen);
            After(calls[..n + 1]) == AfterCheck(After(calls[..n]), calls[n].keys, 1, minutes[n])
  {
    var calls := Probe(minutes, key, chosen);
    assert calls[..n + 1][..n] == calls[..n];
  }

  lemma NothingAsked(b: Buckets, w: nat)
    ensures AfterCheck(b, [], 1, w) == b
  {
    assert Refreshed(b, [], w) == b;
  }

  /** The buckets before the n-th call of the probe. */
  function ProbeBuckets(minutes: seq<nat>, key: string, i: nat, j: nat, n: nat): Buckets
    requires i < j < |minutes|
  {
    if n <= i then map[] else map[key := Bucket(if n <= j then minutes[i] else minutes[j], 1)]
  }

  lemma ProbeStep(minutes: seq<nat>, key: string, i: nat, j: nat, k: nat, n: nat)
    requires i < j < k < |minutes| && minutes[i] == minutes[k] != minutes[j] && n < k
    ensures AfterCheck(ProbeBuckets(minutes, key, i, j, n), if n == i || n == j then [key] else [], 1, minutes[n]) ==
            ProbeBuckets(minutes, key, i, j, n + 1)
  {
    if n == i || n == j {
      FreshMinute(ProbeBuckets(minutes, key, i, j, n), key, minutes[n]);
    } else {
      NothingAsked(ProbeBuckets(minutes, key, i, j, n), minutes[n]);
    }
  }

  lemma {:induction false} ProbeRuns(minutes: seq<nat>, key: string, i: nat, j: nat, k: nat, n: nat)
    requires i < j < k < |minutes| && minutes[i] == minutes[k] != minutes[j] && n <= k
    ensures After(Probe(minutes, key, {i, j, k})[..n]) == ProbeBuckets(minutes, key, i, j, n)
    decreases n
  {
    if n > 0 {
      ProbeRuns(minutes, key, i, j, k, n - 1);
      ProbeBefore(minutes, key, {i, j, k}, n - 1);
      ProbeStep(minutes, key, i, j, k, n - 1);
      assert n - 1 in {i, j, k} <==> n - 1 == i || n - 1 == j;
    }
  }

  /** The first and the last of the three chosen calls are accepted, in the same minute. */
  lemma ProbeAccepted(minutes: seq<nat>, key: string, i: nat, j: nat, k: nat)
    requires i < j < k < |minutes| && minutes[i] == minutes[k] != minutes[j]
    ensures var calls := Probe(minutes, key, {i, j, k}); Accepted(calls, i) && Accepted(calls, k)
  {
    var calls := Probe(minutes, key, {i, j, k});
    ProbeRuns(minutes, key, i, j, k, i);
    ProbeRuns(minutes, key, i, j, k, k);
    FreshMinute(After(calls[..i]), key, minutes[i]);
    FreshMinute(After(calls[..k]), key, minutes[k]);
  }

  lemma {:induction false} TwoCounted(calls: seq<Call>, key: string, from: nat, to: nat, i: nat, k: nat, n: nat)
    requires i < k < |calls| && n <= |calls| && Accepted(calls, i) && Accepted(calls, k)
    requires key in calls[i].keys && from <= calls[i].at <= to && key in calls[k].keys && from <= calls[k].at <= to
    ensures CallsBetween(calls[..n], key, from, to) >= (if i < n then 1 else 0) + (if k < n then 1 else 0)
    decreases n
  {
    if n > 0 {
      TwoCounted(calls, key, from, to, i, k, n - 1);
      assert calls[..n][..n - 1] == calls[..n - 1];
      if n - 1 == i || n - 1 == k {
        assert calls[..n][n - 1] == calls[n - 1] && Accepted(calls[..n], n - 1);
      }
    }
  }

  lemma ProbeMinutes(minutes: seq<nat>, key: string, chosen: set<nat>)
    ensures Minutes(Probe(minutes, key, chosen)) == minutes && LimitedTo(Probe(minutes, key, chosen), key, 1)
  {
  }

  lemma ProbeCall(minutes: seq<nat>, key: string, chosen: set<nat>, x: nat)
    requires x < |minutes| && x in chosen
    ensures var c := Probe(minutes, key, chosen)[x]; key in c.keys && 60 * minutes[x] <= c.at <= 60 * minutes[x] + 59
  {
  }

  lemma TwoInMinute(calls: seq<Call>, key: string, w: nat, i: nat, k: nat)
    requires i < k < |calls| && Accepted(calls, i) && Accepted(calls, k)
    requires key in calls[i].keys && 60 * w <= calls[i].at <= 60 * w + 59
    requires key in calls[k].keys && 60 * w <= calls[k].at <= 60 * w + 59
    ensures InMinute(calls, key, w) >= 2
  {
    TwoCounted(calls, key, 60 * w, 60 * w + 59, i, k, |calls|);
    assert calls[..|calls|] == calls;
  }

  /** A minute that returns lets two calls through at limit 1. */
  lemma ReturnLetsTwoThrough(minutes: seq<nat>, key: string, i: nat, j: nat, k: nat)
    requires i < j < k < |minutes| && minutes[i] == minutes[k] != minutes[j]
    ensures InMinute(Probe(minutes, key, {i, j, k}), key, minutes[i]) >= 2
  {
    ProbeAccepted(minutes, key, i, j, k);
    ProbeCall(minutes, key, {i, j, k}, i);
    ProbeCall(minutes, key, {i, j, k}, k);
    TwoInMinute(Probe(minutes, key, {i, j, k}), key, minutes[i], i, k);
  }

  /** The bound of m accepted calls per key and minute holds of every history with these minutes, whatever its keys and
      limits, if and only if no minute returns after a different one. */
  lemma BoundIsExact(minutes: seq<nat>)
    ensures (forall calls: seq<Call> :: Minutes(calls) == minutes ==> Bounded(calls)) <==> NoReturn(minutes)
  {
    if NoReturn(minutes) {
      forall calls: seq<Call> | Minutes(calls) == minutes ensures Bounded(calls) {
        forall key: string, m: nat, window: nat | LimitedTo(calls, key, m) ensures InMinute(calls, key, window) <= m {
          MinuteBound(calls, key, m, window);
        }
      }
    } else {
      var i, j, k :| 0 <= i < j < k < |minutes| && minutes[i] == minutes[k] != minutes[j];
      var calls := Probe(minutes, "key", {i, j, k});
      ProbeMinutes(minutes, "key", {i, j, k});
      ReturnLetsTwoThrough(minutes, "key", i, j, k);
      assert !Bounded(calls);
    }
  }

  /** The clock is read before the lock is taken, so a call may come late with an earlier minute, and then the bound is
      lost: the shortest such history. */
  lemma LateCallBreaksBound(key: string)
    ensures var late := [Call(60, [key], 1), Call(120, [key], 1), Call(60, [key], 1)];
            LimitedTo(late, key, 1) && !ClockForward(late) && CallsBetween(late, key, 60, 119) == 2
  {
    var a, b := Call(60, [key], 1), Call(120, [key], 1);
    var late := [a, b, a];
    assert late[..2] == [a, b] && [a, b][..1] == [a] && [a][..0] == [];
    assert Minute(late[1]) > Minute(late[2]);
    FreshMinute(map[], key, 1);
    assert After([a]) == map[key := Bucket(1, 1)] && Accepted([a], 0);
    FreshMinute(After([a]), key, 2);
    assert After([a, b]) == map[key := Bucket(2, 1)] && Accepted([a, b], 1);
    FreshMinute(After([a, b]), key, 1);
    assert Accepted(late, 2);
    assert CallsBetween([a], key, 60, 119) == 1 && CallsBetween([a, b], key, 60, 119) == 1;
  }
}
