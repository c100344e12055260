/** WhatsappManager's reconnect bookkeeping (src/whatsapp.rs), and the per-channel history it stands for. */
module Reconnect {
  import opened EventBus

  const RECONNECT_BASE_DELAY_SECS := 5
  const RECONNECT_MAX_DELAY_SECS := 300
  const MAX_U32 := 0xffff_ffff

  datatype Intent = Intent(desired: bool, needsSessionReset: bool, hasConnected: bool, attempts: nat)

  const DEFAULT_INTENT := Intent(false, false, false, 0)

  /** The calls that change a channel's intent. */
  datatype Op =
    | SetDesired(desired: bool)
    | MarkNeedsSessionReset
    | TakeNeedsSessionReset
    | NextReconnectDelay
    | MarkConnected

  function Do(i: Intent, op: Op): Intent {
    match op
    case SetDesired(d) => i.(desired := d)
    case MarkNeedsSessionReset => i.(needsSessionReset := true, hasConnected := false, attempts := 0)
    case TakeNeedsSessionReset => i.(needsSessionReset := false)
    case NextReconnectDelay => i.(attempts := if i.attempts < MAX_U32 then i.attempts + 1 else MAX_U32)
    case MarkConnected => i.(hasConnected := true, attempts := 0)
  }

  /** RECONNECT_BASE_DELAY_SECS << min(attempts, 16), at most RECONNECT_MAX_DELAY_SECS. */
  function DelaySecs(attempts: nat): nat {
    var shifted := RECONNECT_BASE_DELAY_SECS * Pow2(if attempts < 16 then attempts else 16);
    if shifted < RECONNECT_MAX_DELAY_SECS then shifted else RECONNECT_MAX_DELAY_SECS
  }

  class WhatsappManager {
    var intents: map<string, Intent>

    constructor ()
      ensures intents == map[]
    {
      intents := map[];
    }

    /** A channel without an entry is in the default state. */
    function Of(channel: string): Intent
      reads this
    {
      if channel in intents then intents[channel] else DEFAULT_INTENT
    }

    twostate predicate OnlyChanges(channel: string)
      reads this
    {
      forall c :: c != channel ==> Of(c) == old(Of(c))
    }

    method SetDesired(channel: string, desired: bool)
      modifies this
      ensures Of(channel) == Do(old(Of(channel)), Op.SetDesired(desired)) && OnlyChanges(channel)
    {
      intents := intents[channel := Of(channel).(desired := desired)];
    }

    method MarkNeedsSessionReset(channel: string)
      modifies this
      ensures Of(channel) == Do(old(Of(channel)), Op.MarkNeedsSessionReset) && OnlyChanges(channel)
    {
      intents := intents[channel := Of(channel).(needsSessionReset := true, hasConnected := false, attempts := 0)];
    }

    method TakeNeedsSessionReset(channel: string) returns (pending: bool)
      modifies this
      ensures pending == old(Of(channel).needsSessionReset)
      ensures Of(channel) == Do(old(Of(channel)), Op.TakeNeedsSessionReset) && OnlyChanges(channel)
    {
      if channel in intents && intents[channel].needsSessionReset {
        intents := intents[channel := intents[channel].(needsSessionReset := false)];
        return true;
      }
      return false;
    }

    method NextReconnectDelaySecs(channel: string) returns (delay: nat)
      modifies this
      ensures delay == DelaySecs(old(Of(channel)).attempts)
      ensures Of(channel) == Do(old(Of(channel)), Op.NextReconnectDelay) && OnlyChanges(channel)
    {
      var intent := Of(channel);
      var attempts := if intent.attempts < MAX_U32 then intent.attempts + 1 else MAX_U32;
      intents := intents[channel := intent.(attempts := attempts)];
      delay := DelaySecs(intent.attempts);
    }

    method MarkConnected(channel: string)
      modifies this
      ensures Of(channel) == Do(old(Of(channel)), Op.MarkConnected) && OnlyChanges(channel)
    {
      intents := intents[channel := Of(channel).(hasConnected := true, attempts := 0)];
    }

    method ShouldReconnect(channel: string) returns (r: bool)
      ensures r <==> Of(channel).desired && Of(channel).hasConnected
    {
      r := channel in intents && intents[channel].desired && intents[channel].hasConnected;
    }
  }

  // ---------------------------------------------------------------------
  // What a channel's history of calls says.

  function Replayed(ops: seq<Op>): Intent {
    if ops == [] then DEFAULT_INTENT else Do(Replayed(ops[..|ops| - 1]), ops[|ops| - 1])
  }

  /** The last call of kind a came after every call of kind b, and there was one. */
  predicate Since(ops: seq<Op>, a: Op -> bool, b: Op -> bool) {
    exists i :: 0 <= i < |ops| && a(ops[i]) && forall j :: i < j < |ops| ==> !b(ops[j])
  }

  function IsReset(): Op -> bool { (op: Op) => op.MarkNeedsSessionReset? }
  function IsTake(): Op -> bool { (op: Op) => op.TakeNeedsSessionReset? }
  function IsConnect(): Op -> bool { (op: Op) => op.MarkConnected? }
  function IsWanted(): Op -> bool { (op: Op) => op == Op.SetDesired(true) }
  function IsUnwanted(): Op -> bool { (op: Op) => op == Op.SetDesired(false) }

  /** Reconnects scheduled since the channel last connected or lost its session. */
  function FailuresInARow(ops: seq<Op>): nat {
    if ops == [] then 0
    else
      var last := ops[|ops| - 1];
      if last.MarkConnected? || last.MarkNeedsSessionReset? then 0
      else FailuresInARow(ops[..|ops| - 1]) + if last.NextReconnectDelay? then 1 else 0
  }

  lemma SinceSnoc(ops: seq<Op>, op: Op, a: Op -> bool, b: Op -> bool)
    ensures Since(ops + [op], a, b) <==> a(op) || (Since(ops, a, b) && !b(op))
  {
    var all := ops + [op];
    if a(op) {
      assert a(all[|ops|]);
    }
    if Since(ops, a, b) && !b(op) {
      var i :| 0 <= i < |ops| && a(ops[i]) && forall j :: i < j < |ops| ==> !b(ops[j]);
      assert a(all[i]) && forall j :: i < j < |all| ==> !b(all[j]);
    }
    if Since(all, a, b) && !a(op) {
      var i :| 0 <= i < |all| && a(all[i]) && forall j :: i < j < |all| ==> !b(all[j]);
      assert all[i] == ops[i] && all[|ops|] == op;
      assert forall j :: i < j < |ops| ==> ops[j] == all[j];
    }
  }

  /** The stored intent says what the history says: wanted last, connected since the last session loss, session loss
      not yet taken, and the failures in a row up to the 32-bit cap. */
  lemma {:induction false} IntentIsHistory(ops: seq<Op>)
    ensures var i := Replayed(ops);
            && (i.desired <==> Since(ops, IsWanted(), IsUnwanted()))
            && (i.hasConnected <==> Since(ops, IsConnect(), IsReset()))
            && (i.needsSessionReset <==> Since(ops, IsReset(), IsTake()))
            && i.attempts == (if FailuresInARow(ops) < MAX_U32 then FailuresInARow(ops) else MAX_U32)
  {
    if ops != [] {
      var init, op := ops[..|ops| - 1], ops[|ops| - 1];
      assert ops == init + [op];
      IntentIsHistory(init);
      SinceSnoc(init, op, IsWanted(), IsUnwanted());
      SinceSnoc(init, op, IsConnect(), IsReset());
      SinceSnoc(init, op, IsReset(), IsTake());
    }
  }

  /** The n-th reconnect in a row waits 5 seconds doubled n times, at most 300, and never less than the one before. */
  lemma DelayDoublesToCeiling(n: nat)
    ensures DelaySecs(n) == if n < 6 then 5 * Pow2(n) else 300
    ensures 5 <= DelaySecs(n) <= DelaySecs(n + 1) <= 300
  {
    assert Pow2(0) == 1 && Pow2(1) == 2 && Pow2(2) == 4 && Pow2(3) == 8 && Pow2(4) == 16 && Pow2(5) == 32;
    Pow2Grows(6, if n < 16 then n else 16);
    Pow2Grows(6, if n + 1 < 16 then n + 1 else 16);
    assert Pow2(6) == 64;
  }

  lemma {:induction false} Pow2Grows(a: nat, b: nat)
    ensures a <= b ==> Pow2(a) <= Pow2(b)
    decreases b
  {
    if a < b {
      Pow2Grows(a, b - 1);
    }
  }

  function TakenResets(ops: seq<Op>): nat {
    if ops == [] then 0
    else
      var init := ops[..|ops| - 1];
      TakenResets(init) + if ops[|ops| - 1].TakeNeedsSessionReset? && Replayed(init).needsSessionReset then 1 else 0
  }

  function Resets(ops: seq<Op>): nat {
    if ops == [] then 0 else Resets(ops[..|ops| - 1]) + if ops[|ops| - 1].MarkNeedsSessionReset? then 1 else 0
  }

  /** Losses that came when no earlier one was still to be taken: any more before the next take are taken with it. */
  function LossBursts(ops: seq<Op>): nat {
    if ops == [] then 0
    else
      var init := ops[..|ops| - 1];
      LossBursts(init) + if ops[|ops| - 1].MarkNeedsSessionReset? && !Since(init, IsReset(), IsTake()) then 1 else 0
  }

  /** Each burst of session losses is taken exactly once: a reset is still due exactly when a loss came after the last
      take, and true answers and the one due are the bursts, so they never outnumber the losses. */
  lemma {:induction false} ResetsTakenOnce(ops: seq<Op>)
    ensures Replayed(ops).needsSessionReset <==> Since(ops, IsReset(), IsTake())
    ensures TakenResets(ops) + (if Replayed(ops).needsSessionReset then 1 else 0) == LossBursts(ops) <= Resets(ops)
  {
    if ops != [] {
      var init, op := ops[..|ops| - 1], ops[|ops| - 1];
      assert ops == init + [op];
      ResetsTakenOnce(init);
      SinceSnoc(init, op, IsReset(), IsTake());
    }
  }
}
