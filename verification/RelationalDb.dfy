/** The relational tables as the mutable store of src/db.rs. The statements of a pass are not one transaction: each
    commits on its own, and the first that fails ends the pass. */
module RelationalDb {
  import opened Wrappers
  import opened Tables
  import opened Upserts
  import opened Relational

  class RelationalDb {
    var rows: Rows
    var executed: nat
    const clock: nat -> Time                   // what now() reads in the k-th statement

    constructor (clock: nat -> Time)
      ensures rows == map[] && executed == 0 && this.clock == clock
    {
      rows, executed := map[], 0;
      this.clock := clock;
    }

    method Execute(u: Upsert, reached: bool) returns (ok: bool)
      modifies this
      ensures ok == reached
      ensures ok ==> rows == Apply(old(rows), u, clock(old(executed))) && executed == old(executed) + 1
      ensures !ok ==> rows == old(rows) && executed == old(executed)
    {
      ok := reached;
      if !reached {
        return;
      }
      var now := clock(executed);
      if u.key in rows {
        rows := rows[u.key := UpdatedRow(u, rows[u.key], now)];
      } else {
        rows := rows[u.key := InsertedRow(u, now)];
      }
      executed := executed + 1;
    }

    /** persist_relational: reached says which of its statements find the database there. What is left is the whole
        pass, or the part before the first failure, and no filled cell is emptied either way. Coverage says which rows
        and Cells, Voices, GroupCells and SettingCells which cells the whole pass leaves. */
    method PersistRelational(store: Store, reached: nat -> bool) returns (ok: bool)
      modifies this
      ensures ok <==> forall i :: 0 <= i < |Plan(store)| ==> reached(i)
      ensures Broke(Statements(Plan(store)), ok, reached, executed - old(executed))
      ensures rows == Pass(old(rows), Statements(Plan(store))[..executed - old(executed)], clock, old(executed))
      ensures FilledStay(old(rows), rows)
      ensures ok ==> rows == Pass(old(rows), Statements(Plan(store)), clock, old(executed))
    {
      ok := ExecuteAll(Statements(Plan(store)), reached);
      FilledCellsStay(old(rows), Statements(Plan(store))[..executed - old(executed)], clock, old(executed));
      assert Statements(Plan(store))[..|Plan(store)|] == Statements(Plan(store));
    }

    method ExecuteAll(plan: seq<Statement>, reached: nat -> bool) returns (ok: bool)
      modifies this
      ensures ok <==> forall i :: 0 <= i < |plan| ==> reached(i)
      ensures Broke(plan, ok, reached, executed - old(executed))
      ensures rows == Pass(old(rows), plan[..executed - old(executed)], clock, old(executed))
    {
      ghost var start, before := executed, rows;
      var i := 0;
      ok := true;
      while i < |plan| && ok
        invariant 0 <= i <= |plan|
        invariant executed == start + i
        invariant rows == Pass(before, plan[..i], clock, start)
        invariant forall k :: 0 <= k < i ==> reached(k)
        invariant !ok ==> i < |plan| && !reached(i)
        decreases |plan| - i, ok
      {
        ok := Execute(plan[i], reached(i));
        if ok {
          PassSnoc(before, plan[..i], plan[i], clock, start);
          assert plan[..i + 1] == plan[..i] + [plan[i]];
          i := i + 1;
        }
      }
    }
  }

  /** A pass gets through, or it stops at the first statement that does not reach the database. */
  predicate Broke(plan: seq<Upsert>, ok: bool, reached: nat -> bool, done: int) {
    && 0 <= done <= |plan| && (forall i :: 0 <= i < done ==> reached(i))
    && (ok <==> done == |plan|) && (!ok ==> !reached(done))
  }

  /** No filled cell is emptied. */
  ghost predicate FilledStay(before: Rows, after: Rows) {
    forall key, column :: IsFilled(key, column) && Cell(before, key, column).Some? ==> Cell(after, key, column).Some?
  }

  lemma FilledCellsStay(rows: Rows, plan: seq<Statement>, clock: nat -> Time, from: nat)
    ensures FilledStay(rows, Pass(rows, plan, clock, from))
  {
    forall key, column | IsFilled(key, column) && Cell(rows, key, column).Some?
      ensures Cell(Pass(rows, plan, clock, from), key, column).Some?
    {
      FilledStaysFilled(rows, plan, clock, from, key, column);
    }
  }

  /** Two passes over one snapshot, the first of which may break off: whatever the tables held, the second leaves what
      an unbroken pass leaves, except times and connected_at. */
  lemma SecondPassHeals(rows: Rows, store: Store, cut: nat, clock: nat -> Time, first: nat, second: nat)
    requires cut <= |Plan(store)|
    ensures var plan := Statements(Plan(store));
            var healed := Pass(Pass(rows, plan[..cut], clock, first), plan, clock, second);
            var whole := Pass(rows, plan, clock, first);
            && healed.Keys == whole.Keys
            && forall key, column ::
                 !IsClock(key, column) && !IsConnectedAt(key, column) && !IsFirstContact(key, column) ==>
                 Cell(healed, key, column) == Cell(whole, key, column)
  {
    var plan := Statements(Plan(store));
    var healed := Pass(Pass(rows, plan[..cut], clock, first), plan, clock, second);
    var whole := Pass(rows, plan, clock, first);
    forall key: Key
      ensures key in healed <==> key in whole
    {
      BrokenPassHeals(rows, plan, cut, clock, first, second, key, Other(""));
    }
    forall key, column | !IsClock(key, column) && !IsConnectedAt(key, column) && !IsFirstContact(key, column)
      ensures Cell(healed, key, column) == Cell(whole, key, column)
    {
      BrokenPassHeals(rows, plan, cut, clock, first, second, key, column);
    }
  }

  /** A repeated pass adds no row and moves nothing but clock columns and connected_at; once the rows were there before
      the first pass, connected_at stands as well. */
  lemma RepeatedPassIsStable(rows: Rows, store: Store, clock: nat -> Time, first: nat, second: nat)
    ensures var plan := Statements(Plan(store));
            var once := Pass(rows, plan, clock, first);
            var twice := Pass(once, plan, clock, second);
            && twice.Keys == once.Keys
            && forall key, column :: !IsClock(key, column) && (IsConnectedAt(key, column) ==> key in rows) ==>
                 Cell(twice, key, column) == Cell(once, key, column)
  {
    var plan := Statements(Plan(store));
    var once := Pass(rows, plan, clock, first);
    var twice := Pass(once, plan, clock, second);
    forall key: Key
      ensures key in twice <==> key in once
    {
      PassIsStable(rows, plan, clock, first, second, key, Other(""));
    }
    forall key, column | !IsClock(key, column) && (IsConnectedAt(key, column) ==> key in rows)
      ensures Cell(twice, key, column) == Cell(once, key, column)
    {
      if key in rows {
        SecondPass(rows, plan, clock, first, second, key, column);
        StampsAreClocks(plan, key, column);
      } else {
        PassIsStable(rows, plan, clock, first, second, key, column);
      }
    }
  }
}
