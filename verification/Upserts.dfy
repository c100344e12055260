/** INSERT .. ON CONFLICT DO UPDATE as src/db.rs uses it for the relational tables: one statement per record, every
    column assigned in one of a few ways. What a run of such statements does to one cell is a single effect. */
module Upserts {
  import opened Wrappers
  import opened Tables

  datatype Table =
    | Projects | Companies | ChannelAccounts | Contacts | Groups | GroupMembers | Conversations | Messages
    | MediaObjects | Transcripts | DirtyConversations | DirtyConversationLeases | ConsumerProcessingState
    | IdempotencyKeys | ConsumerCallbacks | WebhookDeliveryAttempts

  datatype Column =
    | ProjectId | CompanyId | ChannelAccountId | AdminsCount | AvatarUrl | BusinessDescription | ConnectedAt
    | ContactId | ConversationId | CreatedAt | CreatedAtWa | Description | Direction | DisplayName | DisplayPhone
    | ExpiresAt | FirstContactAt | GroupId | IsAdmin | JoinedAt | Label | Language | LastContactAt | LastProcessedAt
    | Lid | MembersCount | MessageId | MessageType | Model | Name | OwnerJid | PhoneE164 | ProfilePictureMediaId
    | ProfilePictureUrl | Provider | PushName | Role | SenderContactId | SenderDisplayName | Status | Subject
    | SubjectOwnerJid | UpdatedAt | WaJid | Other(title: string)

  datatype Value = Words(text: string) | Whole(number: int) | Flag(flag: bool) | When(time: Time)

  /** A cell: None is NULL. */
  type Field = Option<Value>
  type Row = map<Column, Field>

  datatype Key = Key(table: Table, id: seq<string>)
  type Rows = map<Key, Row>

  /** How a statement writes one column. */
  datatype Write =
    | Overwrite(value: Field)                  // SET c = EXCLUDED.c
    | Coalesce(value: Field)                   // SET c = COALESCE(EXCLUDED.c, t.c)
    | KeepFirst(value: Field)                  // SET c = COALESCE(t.c, EXCLUDED.c)
    | Once(value: Field)                       // inserted, not in the SET list
    | Connected(status: string, at: Field)     // inserted as it is; the CASE of connected_at on conflict
    | Clock(plus: Time)                        // now() + plus, inserted and SET
    | ClockOnce                                // now(), inserted, not in the SET list

  datatype Upsert = Upsert(key: Key, writes: map<Column, Write>)

  function Cell(rows: Rows, key: Key, column: Column): Field {
    if key in rows && column in rows[key] then rows[key][column] else None
  }

  function Inserted(w: Write, now: Time): Field {
    match w
    case Connected(_, at) => at
    case Clock(plus) => Some(When(now + plus))
    case ClockOnce => Some(When(now))
    case _ => w.value
  }

  function Updated(w: Write, was: Field, now: Time): Field {
    match w
    case Overwrite(v) => v
    case Coalesce(v) => if v.Some? then v else was
    case KeepFirst(v) => if was.Some? then was else v
    case Connected(status, at) => if status == "connected" then if at.Some? then at else was else None
    case Clock(plus) => Some(When(now + plus))
    case _ => was
  }

  function InsertedRow(u: Upsert, now: Time): Row {
    map c | c in u.writes :: Inserted(u.writes[c], now)
  }

  function UpdatedRow(u: Upsert, row: Row, now: Time): Row {
    row + map c | c in u.writes :: Updated(u.writes[c], if c in row then row[c] else None, now)
  }

  function Apply(rows: Rows, u: Upsert, now: Time): Rows {
    rows[u.key := if u.key in rows then UpdatedRow(u, rows[u.key], now) else InsertedRow(u, now)]
  }

  function Fold<S, A>(s: S, xs: seq<A>, step: (S, A, nat) -> S, from: nat): S {
    if xs == [] then s
    else
      var last := |xs| - 1;
      step(Fold(s, xs[..last], step, from), xs[last], from + last)
  }

  function Executed(clock: nat -> Time): (Rows, Upsert, nat) -> Rows {
    (rows: Rows, u: Upsert, i: nat) => Apply(rows, u, clock(i))
  }

  /** The statements of a pass, the i-th of which reads the clock as clock(from + i). */
  function Pass(rows: Rows, plan: seq<Upsert>, clock: nat -> Time, from: nat): Rows {
    Fold(rows, plan, Executed(clock), from)
  }

  predicate Touches(plan: seq<Upsert>, key: Key) {
    exists i :: 0 <= i < |plan| && plan[i].key == key
  }

  // ---------------------------------------------------------------------
  // Net effects

  /** What happens to one cell: kept, set, filled when NULL, or stamped with the time of the i-th statement. */
  datatype Effect = Keep | Put(value: Field) | Fill(filler: Value) | Stamp(i: nat, plus: Time)

  function OnConflict(u: Upsert, column: Column, i: nat): Effect {
    if column !in u.writes then Keep
    else
      match u.writes[column]
      case Overwrite(v) => Put(v)
      case Coalesce(v) => if v.Some? then Put(v) else Keep
      case KeepFirst(v) => if v.Some? then Fill(v.value) else Keep
      case Connected(status, at) => if status != "connected" then Put(None) else if at.Some? then Put(at) else Keep
      case Clock(plus) => Stamp(i, plus)
      case _ => Keep
  }

  function OnInsert(u: Upsert, column: Column, i: nat): Effect {
    if column !in u.writes then Put(None)
    else
      match u.writes[column]
      case Connected(_, at) => Put(at)
      case Clock(plus) => Stamp(i, plus)
      case ClockOnce => Stamp(i, 0)
      case w => Put(w.value)
  }

  function Then(first: Effect, second: Effect): Effect {
    match second
    case Keep => first
    case Fill(v) => (match first
                     case Keep => second
                     case Put(None) => Put(Some(v))
                     case _ => first)
    case _ => second
  }

  function Act(e: Effect, was: Field, clock: nat -> Time, from: nat): Field {
    match e
    case Keep => was
    case Put(v) => v
    case Fill(v) => if was.Some? then was else Some(v)
    case Stamp(i, plus) => Some(When(clock(from + i) + plus))
  }

  /** The effect of a plan on one cell of a row that is there or is not. */
  function Net(plan: seq<Upsert>, present: bool, key: Key, column: Column): Effect {
    if plan == [] then Keep
    else
      var last := |plan| - 1;
      var before := Net(plan[..last], present, key, column);
      if plan[last].key != key then before
      else if present || Touches(plan[..last], key) then Then(before, OnConflict(plan[last], column, last))
      else OnInsert(plan[last], column, last)
  }

  lemma SplitLast<T>(xs: seq<T>) returns (front: seq<T>, x: T)
    requires xs != []
    ensures xs == front + [x]
  {
    front, x := xs[..|xs| - 1], xs[|xs| - 1];
  }

  lemma AppendSnoc<T>(xs: seq<T>, ys: seq<T>, y: T)
    ensures xs + (ys + [y]) == (xs + ys) + [y]
  {
  }

  lemma FoldSnoc<S, A>(s: S, xs: seq<A>, x: A, step: (S, A, nat) -> S, from: nat)
    ensures Fold(s, xs + [x], step, from) == step(Fold(s, xs, step, from), x, from + |xs|)
  {
    assert (xs + [x])[..|xs|] == xs;
  }

  lemma PassSnoc(rows: Rows, plan: seq<Upsert>, u: Upsert, clock: nat -> Time, from: nat)
    ensures Pass(rows, plan + [u], clock, from) == Apply(Pass(rows, plan, clock, from), u, clock(from + |plan|))
  {
    FoldSnoc(rows, plan, u, Executed(clock), from);
  }

  lemma TouchesSnoc(plan: seq<Upsert>, key: Key)
    requires plan != []
    ensures Touches(plan, key) <==> Touches(plan[..|plan| - 1], key) || plan[|plan| - 1].key == key
  {
    var front := plan[..|plan| - 1];
    if Touches(plan, key) && plan[|plan| - 1].key != key {
      var i :| 0 <= i < |plan| && plan[i].key == key;
      assert front[i].key == key;
    }
    if Touches(front, key) {
      var i :| 0 <= i < |front| && front[i].key == key;
      assert plan[i].key == key;
    }
  }

  lemma ThenActs(a: Effect, b: Effect, was: Field, clock: nat -> Time, from: nat)
    ensures Act(Then(a, b), was, clock, from) == Act(b, Act(a, was, clock, from), clock, from)
  {
  }

  lemma WriteActs(u: Upsert, column: Column, was: Field, clock: nat -> Time, from: nat, i: nat)
    requires column in u.writes
    ensures Updated(u.writes[column], was, clock(from + i)) == Act(OnConflict(u, column, i), was, clock, from)
    ensures Inserted(u.writes[column], clock(from + i)) == Act(OnInsert(u, column, i), None, clock, from)
  {
  }

  /** What one statement leaves in the row it is about. */
  lemma ApplyCell(rows: Rows, u: Upsert, column: Column, clock: nat -> Time, from: nat, i: nat)
    ensures Cell(Apply(rows, u, clock(from + i)), u.key, column) ==
            if u.key in rows then Act(OnConflict(u, column, i), Cell(rows, u.key, column), clock, from)
            else Act(OnInsert(u, column, i), None, clock, from)
  {
    var now := clock(from + i);
    if column in u.writes {
      WriteActs(u, column, Cell(rows, u.key, column), clock, from, i);
    }
    if u.key in rows {
      assert Apply(rows, u, now)[u.key] == UpdatedRow(u, rows[u.key], now);
    } else {
      assert Apply(rows, u, now)[u.key] == InsertedRow(u, now);
    }
  }

  /** The net effect says exactly what a pass leaves in each cell, and a pass adds exactly the rows it touches. */
  lemma {:induction false} NetIsExact(rows: Rows, plan: seq<Upsert>, clock: nat -> Time, from: nat, key: Key,
                                      column: Column)
    ensures key in Pass(rows, plan, clock, from) <==> key in rows || Touches(plan, key)
    ensures Cell(Pass(rows, plan, clock, from), key, column) ==
            Act(Net(plan, key in rows, key, column), Cell(rows, key, column), clock, from)
  {
    if plan != [] {
      var last := |plan| - 1;
      var front, u := plan[..last], plan[last];
      NetIsExact(rows, front, clock, from, key, column);
      PassSnoc(rows, front, u, clock, from);
      assert plan == front + [u];
      TouchesSnoc(plan, key);
      if key == u.key {
        ApplyCell(Pass(rows, front, clock, from), u, column, clock, from, last);
        if key in rows || Touches(front, key) {
          ThenActs(Net(front, key in rows, key, column), OnConflict(u, column, last), Cell(rows, key, column), clock,
                   from);
        }
      }
    }
  }

  lemma NetSnoc(plan: seq<Upsert>, u: Upsert, present: bool, key: Key, column: Column)
    ensures Net(plan + [u], present, key, column) ==
            if u.key != key then Net(plan, present, key, column)
            else if present || Touches(plan, key) then
              Then(Net(plan, present, key, column), OnConflict(u, column, |plan|))
            else OnInsert(u, column, |plan|)
  {
    assert (plan + [u])[..|plan|] == plan;
  }

  lemma {:induction false} FoldAppend<S, A>(s: S, xs: seq<A>, ys: seq<A>, step: (S, A, nat) -> S, from: nat)
    ensures Fold(s, xs + ys, step, from) == Fold(Fold(s, xs, step, from), ys, step, from + |xs|)
    decreases |ys|
  {
    if ys == [] {
      assert xs + ys == xs;
    } else {
      var front, y := SplitLast(ys);
      FoldAppend(s, xs, front, step, from);
      AppendSnoc(xs, front, y);
      FoldSnoc(s, xs + front, y, step, from);
      FoldSnoc(Fold(s, xs, step, from), front, y, step, from + |xs|);
    }
  }

  /** A pass of two parts is one part after the other. */
  lemma PassAppend(rows: Rows, p: seq<Upsert>, q: seq<Upsert>, clock: nat -> Time, from: nat)
    ensures Pass(rows, p + q, clock, from) == Pass(Pass(rows, p, clock, from), q, clock, from + |p|)
  {
    FoldAppend(rows, p, q, Executed(clock), from);
  }

  lemma UntouchedIsKept(plan: seq<Upsert>, present: bool, key: Key, column: Column)
    requires !Touches(plan, key)
    ensures Net(plan, present, key, column) == Keep
    decreases |plan|
  {
    if plan != [] {
      TouchesSnoc(plan, key);
      UntouchedIsKept(plan[..|plan| - 1], present, key, column);
    }
  }

  // ---------------------------------------------------------------------
  // Passing twice

  /** Once the row is there, a second pass moves exactly the cells whose net effect is a stamp. */
  lemma SecondPass(rows: Rows, plan: seq<Upsert>, clock: nat -> Time, first: nat, second: nat, key: Key, column: Column)
    requires key in rows || !Touches(plan, key)
    ensures var once := Pass(rows, plan, clock, first);
            var twice := Pass(once, plan, clock, second);
            var net := Net(plan, true, key, column);
            && (key in twice <==> key in once)
            && Cell(twice, key, column) ==
               if key in rows && net.Stamp? then Some(When(clock(second + net.i) + net.plus))
                 else Cell(once, key, column)
  {
    NetIsExact(rows, plan, clock, first, key, column);
    NetIsExact(Pass(rows, plan, clock, first), plan, clock, second, key, column);
    if !Touches(plan, key) {
      UntouchedIsKept(plan, true, key, column);
      UntouchedIsKept(plan, false, key, column);
    }
  }

  /** The columns that a conflicting write stamps, or may stamp, with the clock. */
  predicate IsClock(key: Key, column: Column) {
    match column
    case UpdatedAt => !(key.table in {GroupMembers, Conversations, Messages, MediaObjects, Transcripts})
    case LastContactAt => key.table == Contacts
    case LastProcessedAt => key.table == ConsumerProcessingState
    case ExpiresAt => key.table == IdempotencyKeys
    case _ => false
  }

  /** The columns that a conflicting write fills through COALESCE, besides the contact's display name, which is never
      written as NULL. */
  predicate IsFilled(key: Key, column: Column) {
    match key.table
    case ChannelAccounts => column.PhoneE164? || column.Label?
    case Contacts =>
      column.WaJid? || column.Lid? || column.PhoneE164? || column.PushName? || column.DisplayName? ||
      column.ProfilePictureMediaId? || column.BusinessDescription? || column.AvatarUrl? || column.ProfilePictureUrl?
    case Groups =>
      column.Subject? || column.Description? || column.OwnerJid? || column.SubjectOwnerJid? || column.CreatedAtWa? ||
      column.ProfilePictureMediaId? || column.AvatarUrl? || column.ProfilePictureUrl? || column.MembersCount? ||
      column.AdminsCount?
    case GroupMembers => column.WaJid? || column.PhoneE164? || column.Name? || column.JoinedAt?
    case _ => false
  }

  predicate IsFirstContact(key: Key, column: Column) {
    key.table == Contacts && column == FirstContactAt
  }

  predicate IsConnectedAt(key: Key, column: Column) {
    key.table == ChannelAccounts && column == ConnectedAt
  }

  /** How the statements of src/db.rs use these writes: only clock columns are stamped on conflict, only a contact's
      first_contact_at is stamped once, and a filled column never offers NULL over a value. */
  predicate Written(u: Upsert) {
    Allowed(u.key, u.writes)
  }

  predicate Allowed(key: Key, writes: map<Column, Write>) {
    forall c :: c in writes ==>
      var w := writes[c];
      && (w.Clock? ==> IsClock(key, c))
      && (w.ClockOnce? ==> IsFirstContact(key, c))
      && (w.Connected? ==> IsConnectedAt(key, c))
      && (IsFilled(key, c) ==> w.Coalesce? || w.KeepFirst? || w.Once? || (w.Overwrite? && w.value.Some?))
  }

  type Statement = u: Upsert | Written(u) witness Upsert(Key(Projects, []), map[])

  /** Only clock columns are ever stamped on a row that is there. */
  lemma {:induction false} StampsAreClocks(plan: seq<Statement>, key: Key, column: Column)
    requires !IsClock(key, column)
    ensures !Net(plan, true, key, column).Stamp?
  {
    if plan != [] {
      StampsAreClocks(plan[..|plan| - 1], key, column);
    }
  }

  /** A plan that inserts a row starts its cell off at what the first statement inserts, and then acts as it would on
      a row that is there. */
  lemma {:induction false} NetOfInsert(plan: seq<Statement>, key: Key, column: Column) returns (first: nat)
    requires Touches(plan, key)
    ensures first < |plan| && plan[first].key == key && !Touches(plan[..first], key)
    ensures Net(plan, false, key, column) ==
            Then(OnInsert(plan[first], column, first), Tail(plan, first, key, column))
    ensures Net(plan, true, key, column) ==
            Then(OnConflict(plan[first], column, first), Tail(plan, first, key, column))
  {
    var last := |plan| - 1;
    TouchesSnoc(plan, key);
    if Touches(plan[..last], key) {
      first := NetOfInsert(plan[..last], key, column);
      assert plan[..last][..first] == plan[..first];
      ThenAssociates(OnInsert(plan[first], column, first),
                     Tail(plan[..last], first, key, column), OnConflict(plan[last], column, last));
      ThenAssociates(OnConflict(plan[first], column, first),
                     Tail(plan[..last], first, key, column), OnConflict(plan[last], column, last));
    } else {
      first := last;
      UntouchedIsKept(plan[..last], true, key, column);
      UntouchedIsKept(plan[..last], false, key, column);
    }
  }

  /** The effect of the statements after the first one on a row. */
  function Tail(plan: seq<Upsert>, first: nat, key: Key, column: Column): Effect
    requires first < |plan|
    decreases |plan|
  {
    var last := |plan| - 1;
    if last == first then Keep
    else
      var before := Tail(plan[..last], first, key, column);
      if plan[last].key != key then before else Then(before, OnConflict(plan[last], column, last))
  }

  lemma ThenAssociates(a: Effect, b: Effect, c: Effect)
    ensures Then(Then(a, b), c) == Then(a, Then(b, c))
  {
  }

  lemma {:induction false} TailIsNoStamp(plan: seq<Statement>, first: nat, key: Key, column: Column)
    requires first < |plan| && !IsClock(key, column)
    ensures !Tail(plan, first, key, column).Stamp?
    decreases |plan|
  {
    if |plan| - 1 != first {
      TailIsNoStamp(plan[..|plan| - 1], first, key, column);
    }
  }

  /** From any tables at all, a second pass adds no row and changes no cell outside the clock columns and
      connected_at. */
  lemma PassIsStable(rows: Rows, plan: seq<Statement>, clock: nat -> Time, first: nat, second: nat, key: Key,
                     column: Column)
    requires !IsClock(key, column) && !IsConnectedAt(key, column)
    ensures var once := Pass(rows, plan, clock, first);
            var twice := Pass(once, plan, clock, second);
            && (key in twice <==> key in once)
            && Cell(twice, key, column) == Cell(once, key, column)
  {
    if key in rows || !Touches(plan, key) {
      SecondPass(rows, plan, clock, first, second, key, column);
      StampsAreClocks(plan, key, column);
    } else {
      NetIsExact(rows, plan, clock, first, key, column);
      NetIsExact(Pass(rows, plan, clock, first), plan, clock, second, key, column);
      var i := NetOfInsert(plan, key, column);
      TailIsNoStamp(plan, i, key, column);
      InsertSettles(plan[i], column, i, Tail(plan, i, key, column), clock, first, second);
    }
  }

  /** Writing a value again, as a conflict now, ahead of what follows it, comes to the same. */
  lemma InsertSettles(u: Statement, column: Column, i: nat, rest: Effect, clock: nat -> Time, first: nat, second: nat)
    requires !IsClock(u.key, column) && !IsConnectedAt(u.key, column) && !rest.Stamp?
    ensures var inserted := Act(Then(OnInsert(u, column, i), rest), None, clock, first);
            Act(Then(OnConflict(u, column, i), rest), inserted, clock, second) == inserted
  {
  }

  /** A filled column that holds a value holds one after any pass. */
  lemma {:induction false} FilledStaysFilled(rows: Rows, plan: seq<Statement>, clock: nat -> Time, from: nat, key: Key,
                                             column: Column)
    requires IsFilled(key, column) && Cell(rows, key, column).Some?
    ensures Cell(Pass(rows, plan, clock, from), key, column).Some?
  {
    if plan != [] {
      var front, u := plan[..|plan| - 1], plan[|plan| - 1];
      FilledStaysFilled(rows, front, clock, from, key, column);
      PassSnoc(rows, front, u, clock, from);
      assert plan == front + [u];
    }
  }

  /** A pass that broke off after any statement is healed by the next whole pass: apart from times and connected_at, the
      tables are those of a pass that did not break off. */
  lemma BrokenPassHeals(rows: Rows, plan: seq<Statement>, cut: nat, clock: nat -> Time, first: nat, second: nat,
                        key: Key, column: Column)
    requires cut <= |plan|
    requires !IsClock(key, column) && !IsConnectedAt(key, column)
    requires !IsFirstContact(key, column)
    ensures var broken := Pass(rows, plan[..cut], clock, first);
            var healed := Pass(broken, plan, clock, second);
            var whole := Pass(rows, plan, clock, first);
            && (key in healed <==> key in whole)
            && Cell(healed, key, column) == Cell(whole, key, column)
  {
    assert plan[..cut] + plan[cut..] == plan;
    HealsAt(rows, plan[..cut], plan[cut..], clock, first, second, key, column);
  }

  lemma HealsAt(rows: Rows, done: seq<Statement>, rest: seq<Statement>, clock: nat -> Time, first: nat, second: nat,
                key: Key, column: Column)
    requires !IsClock(key, column) && !IsConnectedAt(key, column) && !IsFirstContact(key, column)
    ensures var healed := Pass(Pass(rows, done, clock, first), done + rest, clock, second);
            var whole := Pass(rows, done + rest, clock, first);
            (key in healed <==> key in whole) && Cell(healed, key, column) == Cell(whole, key, column)
  {
    var broken := Pass(rows, done, clock, first);
    var again := Pass(broken, done, clock, second);
    PassAppend(rows, done, rest, clock, first);
    PassAppend(broken, done, rest, clock, second);
    PassIsStable(rows, done, clock, first, second, key, column);
    SameCellSameAfter(broken, again, rest, clock, first + |done|, second + |done|, key, column);
  }

  /** Tables that agree on a cell agree on it after the same statements, unless it is stamped. */
  lemma SameCellSameAfter(a: Rows, b: Rows, plan: seq<Statement>, clock: nat -> Time, m: nat, n: nat, key: Key,
                          column: Column)
    requires (key in a <==> key in b) && Cell(a, key, column) == Cell(b, key, column)
    requires !IsClock(key, column) && !IsFirstContact(key, column)
    ensures var (a', b') := (Pass(a, plan, clock, m), Pass(b, plan, clock, n));
            (key in a' <==> key in b') && Cell(a', key, column) == Cell(b', key, column)
  {
    NetIsExact(a, plan, clock, m, key, column);
    NetIsExact(b, plan, clock, n, key, column);
    NoStamps(plan, key in a, key, column);
  }

  lemma NoStamps(plan: seq<Statement>, present: bool, key: Key, column: Column)
    requires !IsClock(key, column) && !IsFirstContact(key, column)
    ensures !Net(plan, present, key, column).Stamp?
  {
    if present {
      StampsAreClocks(plan, key, column);
    } else if !Touches(plan, key) {
      UntouchedIsKept(plan, present, key, column);
    } else {
      var first := NetOfInsert(plan, key, column);
      TailIsNoStamp(plan, first, key, column);
    }
  }

  // ---------------------------------------------------------------------
  // The last word on a cell

  predicate Sets(u: Upsert, column: Column, value: Value) {
    column in u.writes && u.writes[column] in {Overwrite(Some(value)), Coalesce(Some(value))}
  }

  /** When the statements on a row from some point on all set a column to one value, that value is what is left. */
  lemma {:induction false} LastWordStands(head: seq<Upsert>, tail: seq<Upsert>, present: bool, key: Key,
                                          column: Column, value: Value)
    requires forall i :: 0 <= i < |tail| && tail[i].key == key ==> Sets(tail[i], column, value)
    ensures Net(head + tail, present, key, column) ==
            if Touches(tail, key) then Put(Some(value)) else Net(head, present, key, column)
    decreases |tail|
  {
    if tail == [] {
      assert head + tail == head;
    } else {
      var front, u := SplitLast(tail);
      assert forall i :: 0 <= i < |front| ==> front[i] == tail[i];
      LastWordStands(head, front, present, key, column, value);
      AppendSnoc(head, front, u);
      NetSnoc(head + front, u, present, key, column);
      TouchesSnoc(tail, key);
      if u.key == key {
        SetsEither(u, column, value, |head + front|);
      }
    }
  }

  lemma SetsEither(u: Upsert, column: Column, value: Value, i: nat)
    requires Sets(u, column, value)
    ensures OnConflict(u, column, i) == OnInsert(u, column, i) == Put(Some(value))
  {
  }

  /** A plan that touches a row once only does what that statement does. */
  lemma OnlyStatement(head: seq<Upsert>, u: Upsert, present: bool, column: Column)
    requires !Touches(head, u.key)
    ensures Net(head + [u], present, u.key, column) ==
            if present then OnConflict(u, column, |head|)
            else OnInsert(u, column, |head|)
  {
    assert (head + [u])[..|head|] == head;
    UntouchedIsKept(head, present, u.key, column);
  }
}
