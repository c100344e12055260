/** What the cells of the relational tables hold after a pass: the snapshot's own columns where one record writes a row,
    and whose word counts where several do. */
module Cells {
  import opened Wrappers
  import opened Tables
  import opened Text
  import opened Upserts
  import opened Relational
  import opened Persisting
  import opened Coverage

  // ---------------------------------------------------------------------
  // One cell through a pass

  /** What a statement on the row makes of a cell of it. */
  function Next(u: Upsert, column: Column, present: bool, was: Field, now: Time): Field {
    if column !in u.writes then (if present then was else None)
    else if present then Updated(u.writes[column], was, now)
    else Inserted(u.writes[column], now)
  }

  predicate Hit(plan: seq<Upsert>, hit: Upsert -> bool) {
    exists i :: 0 <= i < |plan| && hit(plan[i])
  }

  lemma {:induction false} HitSnoc(plan: seq<Upsert>, u: Upsert, hit: Upsert -> bool)
    ensures Hit(plan + [u], hit) <==> Hit(plan, hit) || hit(u)
  {
    var all := plan + [u];
    if Hit(plan, hit) {
      var i :| 0 <= i < |plan| && hit(plan[i]);
      assert hit(all[i]);
    }
    assert all[|plan|] == u;
    if Hit(all, hit) {
      var i :| 0 <= i < |all| && hit(all[i]);
      assert i < |plan| ==> hit(plan[i]);
    }
  }

  /** The statement keeps what inv says of a cell of its row: whether a statement of the given kind came before, whether
      the row is there, and what the cell holds. */
  ghost predicate Keeps(u: Upsert, column: Column, clock: nat -> Time, hit: Upsert -> bool,
                        inv: (bool, bool, Field) -> bool) {
    forall k: nat, h, p, f :: inv(h, p, f) ==> inv(h || hit(u), true, Next(u, column, p, f, clock(k)))
  }

  /** Whatever each statement on the row keeps of a cell holds at the end of the pass. */
  lemma {:induction false} CellRun(rows: Rows, plan: seq<Upsert>, clock: nat -> Time, from: nat, key: Key,
                                   column: Column, hit: Upsert -> bool, inv: (bool, bool, Field) -> bool)
    requires forall u :: hit(u) ==> u.key == key
    requires inv(false, key in rows, Cell(rows, key, column))
    requires forall i :: 0 <= i < |plan| && plan[i].key == key ==> Keeps(plan[i], column, clock, hit, inv)
    ensures var after := Pass(rows, plan, clock, from); inv(Hit(plan, hit), key in after, Cell(after, key, column))
    decreases |plan|
  {
    if plan != [] {
      var front, u := plan[..|plan| - 1], plan[|plan| - 1];
      CellRun(rows, front, clock, from, key, column, hit, inv);
      assert plan == front + [u];
      HitSnoc(front, u, hit);
      CellStep(rows, front, u, clock, from, key, column, hit, inv);
    }
  }

  lemma {:induction false} CellStep(rows: Rows, front: seq<Upsert>, u: Upsert, clock: nat -> Time, from: nat, key: Key,
                                    column: Column, hit: Upsert -> bool, inv: (bool, bool, Field) -> bool)
    requires forall u :: hit(u) ==> u.key == key
    requires u.key == key ==> Keeps(u, column, clock, hit, inv)
    requires var before := Pass(rows, front, clock, from);
             inv(Hit(front, hit), key in before, Cell(before, key, column))
    ensures var after := Pass(rows, front + [u], clock, from);
            inv(Hit(front, hit) || hit(u), key in after, Cell(after, key, column))
  {
    PassSnoc(rows, front, u, clock, from);
    if u.key == key {
      StepCell(Pass(rows, front, clock, from), u, column, clock(from + |front|));
    }
  }

  lemma {:induction false} StepCell(rows: Rows, u: Upsert, column: Column, now: Time)
    ensures u.key in Apply(rows, u, now)
    ensures Cell(Apply(rows, u, now), u.key, column) == Next(u, column, u.key in rows, Cell(rows, u.key, column), now)
  {
  }

  // ---------------------------------------------------------------------
  // Rows with one statement

  /** No other call is about the row. */
  ghost predicate Alone(store: Store, call: Call) {
    Asked(store, call) && forall other :: Asked(store, other) && RowOf(other) == RowOf(call) ==> other == call
  }

  predicate IsTimeless(w: Write) {
    !w.Clock? && !w.ClockOnce? && !w.Connected?
  }

  /** What one statement leaves, however often it is issued. */
  function Left(rows: Rows, u: Upsert, column: Column): Field {
    Next(u, column, u.key in rows, Cell(rows, u.key, column), 0)
  }

  lemma {:induction false} SameStatement(rows: Rows, plan: seq<Upsert>, clock: nat -> Time, from: nat, u: Upsert,
                                         column: Column)
    requires Touches(plan, u.key) && forall i :: 0 <= i < |plan| && plan[i].key == u.key ==> plan[i] == u
    requires column in u.writes ==> IsTimeless(u.writes[column])
    ensures Cell(Pass(rows, plan, clock, from), u.key, column) == Left(rows, u, column)
  {
    var hit := (x: Upsert) => x.key == u.key;
    var inv := (h: bool, p: bool, f: Field) =>
      if h then p && f == Left(rows, u, column) else p == (u.key in rows) && f == Cell(rows, u.key, column);
    forall k: nat, h, p, f | inv(h, p, f) ensures inv(h || hit(u), true, Next(u, column, p, f, clock(k))) {
      Timeless(u, column, u.key in rows, Cell(rows, u.key, column), clock(k));
      Settled(u, column, u.key in rows, Cell(rows, u.key, column), clock(k));
      assert hit(u);
      assert Next(u, column, p, f, clock(k)) == Left(rows, u, column);
    }
    assert Keeps(u, column, clock, hit, inv);
    CellRun(rows, plan, clock, from, u.key, column, hit, inv);
    var i :| 0 <= i < |plan| && plan[i].key == u.key;
    assert hit(plan[i]);
  }

  lemma {:induction false} Timeless(u: Upsert, column: Column, present: bool, was: Field, now: Time)
    requires column in u.writes ==> IsTimeless(u.writes[column])
    ensures Next(u, column, present, was, now) == Next(u, column, present, was, 0)
  {
  }

  lemma {:induction false} Settled(u: Upsert, column: Column, present: bool, was: Field, now: Time)
    requires column in u.writes ==> IsTimeless(u.writes[column])
    ensures var left := Next(u, column, present, was, 0); Next(u, column, true, left, now) == left
  {
  }

  lemma {:induction false} PlannedIsAsked(store: Store, i: nat)
    requires i < |Plan(store)|
    ensures var call := Plan(store)[i];
            Statements(Plan(store))[i] == StatementOf(call) && StatementOf(call).key == RowOf(call) &&
              Asked(store, call)
  {
    PlanIsExact(store, Plan(store)[i]);
    StatementsAreAboutRows(Plan(store)[i]);
  }

  lemma {:induction false} AloneStatement(store: Store, call: Call)
    requires Alone(store, call)
    ensures var plan, u := Statements(Plan(store)), StatementOf(call);
            && u.key == RowOf(call) && Touches(plan, u.key)
            && forall i :: 0 <= i < |plan| && plan[i].key == u.key ==> plan[i] == u
  {
    var plan, u := Statements(Plan(store)), StatementOf(call);
    StatementsAreAboutRows(call);
    AskedIsInSnapshot(store, call);
    TouchesSnapshot(store, u.key);
    forall i | 0 <= i < |plan| && plan[i].key == u.key ensures plan[i] == u {
      PlannedIsAsked(store, i);
    }
  }

  /** A record that no other is about has its own columns in its row after the pass. */
  lemma {:induction false} AloneCell(store: Store, call: Call, rows: Rows, clock: nat -> Time, from: nat,
                                     column: Column)
    requires Alone(store, call)
    requires column in StatementOf(call).writes ==> IsTimeless(StatementOf(call).writes[column])
    ensures var after := Pass(rows, Statements(Plan(store)), clock, from);
            RowOf(call) in after && Cell(after, RowOf(call), column) == Left(rows, StatementOf(call), column)
  {
    var plan, u := Statements(Plan(store)), StatementOf(call);
    AloneStatement(store, call);
    SameStatement(rows, plan, clock, from, u, column);
    NetIsExact(rows, plan, clock, from, u.key, column);
  }

  // ---------------------------------------------------------------------
  // Times

  /** The last statement of the plan on the row. */
  predicate LastOn(plan: seq<Upsert>, key: Key, i: nat) {
    i < |plan| && plan[i].key == key && forall j :: i < j < |plan| ==> plan[j].key != key
  }

  /** The first statement of the plan on the row. */
  predicate FirstOn(plan: seq<Upsert>, key: Key, i: nat) {
    i < |plan| && plan[i].key == key && forall j :: 0 <= j < i ==> plan[j].key != key
  }

  /** Every statement on the row writes the column so. */
  predicate AllWrite(plan: seq<Upsert>, key: Key, column: Column, w: Write) {
    forall i :: 0 <= i < |plan| && plan[i].key == key ==> column in plan[i].writes && plan[i].writes[column] == w
  }

  lemma {:induction false} LastStampStands(plan: seq<Upsert>, present: bool, key: Key, column: Column, plus: Time)
    returns (i: nat)
    requires Touches(plan, key) && AllWrite(plan, key, column, Clock(plus))
    ensures LastOn(plan, key, i) && Net(plan, present, key, column) == Stamp(i, plus)
    decreases |plan|
  {
    var front, u := plan[..|plan| - 1], plan[|plan| - 1];
    TouchesSnoc(plan, key);
    if u.key == key {
      i := |plan| - 1;
      StampIsWritten(u, column, plus, i);
    } else {
      i := LastStampStands(front, present, key, column, plus);
    }
  }

  lemma {:induction false} StampIsWritten(u: Upsert, column: Column, plus: Time, i: nat)
    requires column in u.writes && u.writes[column] == Clock(plus)
    ensures OnConflict(u, column, i) == OnInsert(u, column, i) == Stamp(i, plus)
  {
  }

  lemma {:induction false} FirstStampStands(plan: seq<Upsert>, key: Key, column: Column) returns (i: nat)
    requires Touches(plan, key) && AllWrite(plan, key, column, ClockOnce)
    ensures FirstOn(plan, key, i)
    ensures Net(plan, true, key, column) == Keep && Net(plan, false, key, column) == Stamp(i, 0)
    decreases |plan|
  {
    var front, u := plan[..|plan| - 1], plan[|plan| - 1];
    TouchesSnoc(plan, key);
    if Touches(front, key) {
      i := FirstStampStands(front, key, column);
      assert plan[i] == front[i];
    } else {
      i := |plan| - 1;
      UntouchedIsKept(front, true, key, column);
      assert forall j :: 0 <= j < i ==> front[j].key != key;
    }
  }

  /** The columns that say when a pass last wrote a row, and by how much they run ahead of the clock. */
  predicate TellsTime(key: Key, column: Column, plus: Time) {
    || (column == UpdatedAt && plus == 0 &&
        key.table in {Projects, Companies, ChannelAccounts, Contacts, Groups, DirtyConversations,
                      DirtyConversationLeases, ConsumerProcessingState, IdempotencyKeys, ConsumerCallbacks})
    || (column == LastProcessedAt && plus == 0 && key.table == ConsumerProcessingState)
    || (column == ExpiresAt && plus == 72 * 3600 * 1_000_000 && key.table == IdempotencyKeys)
  }

  lemma {:induction false} SettingsTellTime(call: Call, column: Column, plus: Time)
    requires call.UpsertProject? || call.UpsertCompany? || call.UpsertChannel?
    requires TellsTime(RowOf(call), column, plus)
    ensures var u := StatementOf(call); column in u.writes && u.writes[column] == Clock(plus)
  {
  }

  lemma {:induction false} PeopleTellTime(call: Call, column: Column, plus: Time)
    requires call.UpsertContact? || call.UpsertMinimalContact?
    requires TellsTime(RowOf(call), column, plus)
    ensures var u := StatementOf(call); column in u.writes && u.writes[column] == Clock(plus)
  {
  }

  lemma {:induction false} GroupsTellTime(call: Call, column: Column, plus: Time)
    requires call.UpsertGroup? && TellsTime(RowOf(call), column, plus)
    ensures var u := StatementOf(call); column in u.writes && u.writes[column] == Clock(plus)
  {
  }

  lemma {:induction false} WorkTellsTime(call: Call, column: Column, plus: Time)
    requires call.PersistDirty? || call.PersistDirtyLease? || call.PersistCallback?
    requires TellsTime(RowOf(call), column, plus)
    ensures var u := StatementOf(call); column in u.writes && u.writes[column] == Clock(plus)
  {
  }

  lemma {:induction false} ConsumersTellTime(call: Call, column: Column, plus: Time)
    requires call.PersistConsumerState? && TellsTime(RowOf(call), column, plus)
    ensures var u := StatementOf(call); column in u.writes && u.writes[column] == Clock(plus)
  {
  }

  lemma {:induction false} KeysTellTime(call: Call, column: Column, plus: Time)
    requires call.PersistIdempotency? && TellsTime(RowOf(call), column, plus)
    ensures var u := StatementOf(call); column in u.writes && u.writes[column] == Clock(plus)
  {
  }

  lemma {:induction false} StatementsTellTime(call: Call, column: Column, plus: Time)
    requires TellsTime(RowOf(call), column, plus)
    ensures var u := StatementOf(call); column in u.writes && u.writes[column] == Clock(plus)
  {
    match call
    case UpsertProject(_, _, _) => SettingsTellTime(call, column, plus);
    case UpsertCompany(_, _, _, _) => SettingsTellTime(call, column, plus);
    case UpsertChannel(_, _, _, _, _, _, _, _) => SettingsTellTime(call, column, plus);
    case UpsertContact(_, _) => PeopleTellTime(call, column, plus);
    case UpsertMinimalContact(_, _, _, _, _, _) => PeopleTellTime(call, column, plus);
    case UpsertGroup(_, _, _, _, _) => GroupsTellTime(call, column, plus);
    case PersistConsumerState(_) => ConsumersTellTime(call, column, plus);
    case PersistIdempotency(_) => KeysTellTime(call, column, plus);
    case _ => WorkTellsTime(call, column, plus);
  }

  /** After a pass these columns of every row the snapshot has or mentions hold the time at which the last statement on
      the row was executed, and an idempotency key's expiry lies 72 hours after it. */
  lemma {:induction false} RowsTellTime(store: Store, rows: Rows, clock: nat -> Time, from: nat, key: Key,
                                        column: Column, plus: Time)
    returns (i: nat)
    requires InSnapshot(store, key) && TellsTime(key, column, plus)
    ensures LastOn(Statements(Plan(store)), key, i)
    ensures CellOf(store, rows, clock, from, key, column) == Some(When(clock(from + i) + plus))
  {
    PlanTellsTime(store, key, column, plus);
    i := LastTold(store, rows, clock, from, key, column, plus);
  }

  lemma {:induction false} LastTold(store: Store, rows: Rows, clock: nat -> Time, from: nat, key: Key, column: Column,
                                    plus: Time)
    returns (i: nat)
    requires InSnapshot(store, key) && AllWrite(Statements(Plan(store)), key, column, Clock(plus))
    ensures LastOn(Statements(Plan(store)), key, i)
    ensures CellOf(store, rows, clock, from, key, column) == Some(When(clock(from + i) + plus))
  {
    TouchesSnapshot(store, key);
    i := StampedCell(rows, Statements(Plan(store)), clock, from, key, column, plus);
  }

  lemma {:induction false} PlanTellsTime(store: Store, key: Key, column: Column, plus: Time)
    requires TellsTime(key, column, plus)
    ensures AllWrite(Statements(Plan(store)), key, column, Clock(plus))
  {
    var plan := Statements(Plan(store));
    forall j | 0 <= j < |plan| && plan[j].key == key
      ensures column in plan[j].writes && plan[j].writes[column] == Clock(plus)
    {
      PlannedIsAsked(store, j);
      StatementsTellTime(Plan(store)[j], column, plus);
    }
  }

  lemma {:induction false} StampedCell(rows: Rows, plan: seq<Upsert>, clock: nat -> Time, from: nat, key: Key,
                                       column: Column, plus: Time)
    returns (i: nat)
    requires Touches(plan, key) && AllWrite(plan, key, column, Clock(plus))
    ensures LastOn(plan, key, i)
    ensures Cell(Pass(rows, plan, clock, from), key, column) == Some(When(clock(from + i) + plus))
  {
    NetIsExact(rows, plan, clock, from, key, column);
    i := LastStampStands(plan, key in rows, key, column, plus);
  }

  lemma {:induction false} FirstStampedCell(rows: Rows, plan: seq<Upsert>, clock: nat -> Time, from: nat, key: Key,
                                            column: Column)
    returns (i: nat)
    requires Touches(plan, key) && AllWrite(plan, key, column, ClockOnce)
    ensures FirstOn(plan, key, i)
    ensures Cell(Pass(rows, plan, clock, from), key, column) ==
            if key in rows then Cell(rows, key, column) else Some(When(clock(from + i)))
  {
    NetIsExact(rows, plan, clock, from, key, column);
    i := FirstStampStands(plan, key, column);
  }

  /** A contact known from conversations, messages and groups only. */
  predicate Unlisted(store: Store, key: Key) {
    key.table == Contacts && forall c :: c in store.contacts ==> key.id != [c.id]
  }

  predicate IsTime(cell: Field, at: Time) {
    cell.Some? && cell.value.When? && cell.value.time == at
  }

  /** Such a contact was last in contact when its last statement was executed. */
  lemma {:induction false} MentionsTellLast(store: Store, rows: Rows, clock: nat -> Time, from: nat, key: Key)
    returns (i: nat)
    requires InSnapshot(store, key) && Unlisted(store, key)
    ensures LastOn(Statements(Plan(store)), key, i)
    ensures IsTime(CellOf(store, rows, clock, from, key, LastContactAt), clock(from + i))
  {
    MentionsTellTime(store, key);
    i := LastTold(store, rows, clock, from, key, LastContactAt, 0);
  }

  /** It was first in contact when its first statement was, unless its row was there already. */
  lemma {:induction false} MentionsTellFirst(store: Store, rows: Rows, clock: nat -> Time, from: nat, key: Key)
    returns (i: nat)
    requires InSnapshot(store, key) && Unlisted(store, key)
    ensures FirstOn(Statements(Plan(store)), key, i)
    ensures CellOf(store, rows, clock, from, key, FirstContactAt) ==
            if key in rows then Cell(rows, key, FirstContactAt) else Some(When(clock(from + i)))
  {
    TouchesSnapshot(store, key);
    MentionsTellTime(store, key);
    i := FirstStampedCell(rows, Statements(Plan(store)), clock, from, key, FirstContactAt);
  }

  lemma {:induction false} MentionsTellTime(store: Store, key: Key)
    requires Unlisted(store, key)
    ensures AllWrite(Statements(Plan(store)), key, LastContactAt, Clock(0))
    ensures AllWrite(Statements(Plan(store)), key, FirstContactAt, ClockOnce)
  {
    var plan := Statements(Plan(store));
    forall j | 0 <= j < |plan| && plan[j].key == key
      ensures LastContactAt in plan[j].writes && plan[j].writes[LastContactAt] == Clock(0)
      ensures FirstContactAt in plan[j].writes && plan[j].writes[FirstContactAt] == ClockOnce
    {
      PlannedIsAsked(store, j);
      MentionTellsTime(store, Plan(store)[j]);
    }
  }

  lemma {:induction false} MentionTellsTime(store: Store, call: Call)
    requires Asked(store, call) && Unlisted(store, RowOf(call))
    ensures var u := StatementOf(call);
            && LastContactAt in u.writes && u.writes[LastContactAt] == Clock(0)
            && FirstContactAt in u.writes && u.writes[FirstContactAt] == ClockOnce
  {
  }

  // ---------------------------------------------------------------------
  // Messages and conversations

  /** What a pass leaves in a cell of a row with one record. */
  function CellOf(store: Store, rows: Rows, clock: nat -> Time, from: nat, key: Key, column: Column): Field {
    Cell(Pass(rows, Statements(Plan(store)), clock, from), key, column)
  }

  /** The row of a record as a pass leaves it: its own columns, but of a row that was there the ones in once stay. */
  ghost predicate Holds(store: Store, rows: Rows, clock: nat -> Time, from: nat, key: Key, own: map<Column, Field>,
                        once: set<Column>, c: Column)
  {
    CellOf(store, rows, clock, from, key, c) ==
      if c !in own || (key in rows && c in once) then Cell(rows, key, c) else own[c]
  }

  /** The statement writes this column as Given says. */
  predicate GivenAt(u: Upsert, own: map<Column, Field>, once: set<Column>, c: Column) {
    (c in u.writes <==> c in own) && (c in own ==> u.writes[c] == if c in once then Once(own[c]) else Overwrite(own[c]))
  }

  lemma {:induction false} GivenHolds(store: Store, rows: Rows, clock: nat -> Time, from: nat, u: Upsert,
                                      own: map<Column, Field>, once: set<Column>, c: Column)
    requires CellOf(store, rows, clock, from, u.key, c) == Left(rows, u, c) && GivenAt(u, own, once, c)
    ensures Holds(store, rows, clock, from, u.key, own, once, c)
  {
  }

  /** AloneCell, for the statement u of the call. */
  lemma {:induction false} AloneLeft(store: Store, call: Call, u: Upsert, rows: Rows, clock: nat -> Time, from: nat,
                                     c: Column)
    requires Alone(store, call) && StatementOf(call) == u && (c in u.writes ==> IsTimeless(u.writes[c]))
    ensures CellOf(store, rows, clock, from, u.key, c) == Left(rows, u, c)
  {
    AloneCell(store, call, rows, clock, from, c);
    StatementsAreAboutRows(call);
  }

  /** After a pass a message's row holds the columns of its record, sender included; of a row that was there the columns
      that are only inserted stay. */
  lemma {:induction false} MessageCells(store: Store, m: Message, rows: Rows, clock: nat -> Time, from: nat, c: Column)
    requires m in store.messages && forall other :: other in store.messages && other.id == m.id ==> other == m
    ensures Holds(store, rows, clock, from, Key(Messages, [m.id]),
                  m.columns + map[ProjectId := Str(m.project), CompanyId := Str(m.company),
                                  ChannelAccountId := Str(m.channel), SenderContactId := OptStr(m.sender),
                                  SenderDisplayName := OptStr(m.senderName)],
                  {ProjectId, CompanyId, ConversationId, ChannelAccountId, Direction, MessageType, CreatedAtWa,
                    CreatedAt},
                  c)
  {
    MessageRow(store, m, rows, clock, from, c);
    var own := m.columns + map[ProjectId := Str(m.project), CompanyId := Str(m.company),
                               ChannelAccountId := Str(m.channel), SenderContactId := OptStr(m.sender),
                               SenderDisplayName := OptStr(m.senderName)];
    var once := {ProjectId, CompanyId, ConversationId, ChannelAccountId, Direction, MessageType, CreatedAtWa,
      CreatedAt};
    GivenHolds(store, rows, clock, from, MessageStatement(m), own, once, c);
  }

  lemma {:induction false} MessageRow(store: Store, m: Message, rows: Rows, clock: nat -> Time, from: nat, c: Column)
    requires m in store.messages && forall other :: other in store.messages && other.id == m.id ==> other == m
    ensures CellOf(store, rows, clock, from, Key(Messages, [m.id]), c) == Left(rows, MessageStatement(m), c)
  {
    MessageIsAlone(store, m);
    AloneLeft(store, PersistMessage(m), MessageStatement(m), rows, clock, from, c);
  }

  lemma {:induction false} MessageIsAlone(store: Store, m: Message)
    requires m in store.messages && forall other :: other in store.messages && other.id == m.id ==> other == m
    ensures Alone(store, PersistMessage(m))
  {
    forall other | Asked(store, other) && RowOf(other) == RowOf(PersistMessage(m)) ensures other == PersistMessage(m) {
      assert other.PersistMessage?;
      assert [other.message.id][0] == [m.id][0];
    }
  }

  /** The same of a conversation: only created_at stays. */
  lemma {:induction false} ConversationCells(store: Store, v: Conversation, rows: Rows, clock: nat -> Time, from: nat,
                                             c: Column)
    requires v in store.conversations && forall other :: other in store.conversations && other.id == v.id ==> other == v
    ensures Holds(store, rows, clock, from, Key(Conversations, [v.id]),
                  v.columns + map[ProjectId := Str(v.project), CompanyId := Str(v.company),
                                  ChannelAccountId := Str(v.channel), ContactId := OptStr(v.contact),
                                  GroupId := OptStr(v.group), DisplayName := OptStr(v.name),
                                  DisplayPhone := OptStr(v.phone), AvatarUrl := OptStr(v.avatarUrl),
                                  ProfilePictureUrl := OptStr(v.pictureUrl)],
                  {CreatedAt}, c)
  {
    ConversationRow(store, v, rows, clock, from, c);
    var own := v.columns + map[ProjectId := Str(v.project), CompanyId := Str(v.company),
                               ChannelAccountId := Str(v.channel), ContactId := OptStr(v.contact),
                               GroupId := OptStr(v.group), DisplayName := OptStr(v.name),
                               DisplayPhone := OptStr(v.phone), AvatarUrl := OptStr(v.avatarUrl),
                               ProfilePictureUrl := OptStr(v.pictureUrl)];
    GivenHolds(store, rows, clock, from, ConversationStatement(v), own, {CreatedAt}, c);
  }

  lemma {:induction false} ConversationRow(store: Store, v: Conversation, rows: Rows, clock: nat -> Time, from: nat,
                                           c: Column)
    requires v in store.conversations && forall other :: other in store.conversations && other.id == v.id ==> other == v
    ensures CellOf(store, rows, clock, from, Key(Conversations, [v.id]), c) == Left(rows, ConversationStatement(v), c)
  {
    ConversationIsAlone(store, v);
    AloneLeft(store, PersistConversation(v), ConversationStatement(v), rows, clock, from, c);
  }

  lemma {:induction false} ConversationIsAlone(store: Store, v: Conversation)
    requires v in store.conversations && forall other :: other in store.conversations && other.id == v.id ==> other == v
    ensures Alone(store, PersistConversation(v))
  {
    var call := PersistConversation(v);
    forall other | Asked(store, other) && RowOf(other) == RowOf(call) ensures other == call {
      assert other.PersistConversation?;
      assert [other.conversation.id][0] == [v.id][0];
    }
  }

  // ---------------------------------------------------------------------
  // The tables of plain records

  function RecordsIn(store: Store, table: Table): seq<Record> {
    match table
    case MediaObjects => store.media
    case Transcripts => store.transcripts
    case DirtyConversations => store.dirty
    case DirtyConversationLeases => store.dirtyLeases
    case ConsumerProcessingState => store.consumerState
    case IdempotencyKeys => store.idempotency
    case _ => []
  }

  /** The columns that are inserted and never updated. */
  function OnceIn(table: Table): set<Column> {
    {ProjectId, CompanyId} +
    match table
    case MediaObjects => {CreatedAt}
    case Transcripts => {MessageId, Provider, Model, Language, CreatedAt}
    case _ => {}
  }

  predicate OneRecord(records: seq<Record>, r: Record) {
    r in records && forall other :: other in records && other.id == r.id ==> other == r
  }

  function RecordCall(table: Table, r: Record): Call {
    match table
    case MediaObjects => PersistMedia(r)
    case Transcripts => PersistTranscript(r)
    case DirtyConversations => PersistDirty(r)
    case DirtyConversationLeases => PersistDirtyLease(r)
    case ConsumerProcessingState => PersistConsumerState(r)
    case IdempotencyKeys => PersistIdempotency(r)
    case ConsumerCallbacks => PersistCallback(r)
    case _ => PersistAttempt(r)
  }

  lemma {:induction false} RecordsOnly(store: Store, table: Table, other: Call)
    requires RecordsIn(store, table) != [] && Asked(store, other) && RowOf(other).table == table
    ensures other == RecordCall(table, other.record) && other.record in RecordsIn(store, table)
    ensures RowOf(other).id == other.record.id
  {
  }

  lemma {:induction false} RecordIsAsked(store: Store, table: Table, r: Record)
    requires r in RecordsIn(store, table)
    ensures Asked(store, RecordCall(table, r)) && RowOf(RecordCall(table, r)) == Key(table, r.id)
  {
  }

  lemma {:induction false} RecordIsAlone(store: Store, table: Table, r: Record)
    requires OneRecord(RecordsIn(store, table), r)
    ensures Alone(store, RecordCall(table, r)) && RowOf(RecordCall(table, r)) == Key(table, r.id)
  {
    var call := RecordCall(table, r);
    RecordIsAsked(store, table, r);
    forall other | Asked(store, other) && RowOf(other) == RowOf(call) ensures other == call {
      RecordsOnly(store, table, other);
    }
  }

  lemma {:induction false} RecordIsGiven(table: Table, r: Record, c: Column)
    requires table in {MediaObjects, Transcripts, DirtyConversations, DirtyConversationLeases, ConsumerProcessingState,
                       IdempotencyKeys, ConsumerCallbacks}
    requires !IsClock(Key(table, r.id), c)
    ensures var u := StatementOf(RecordCall(table, r));
            && u.key == Key(table, r.id)
            && GivenAt(u, r.columns + map[ProjectId := Str(r.project), CompanyId := Str(r.company)], OnceIn(table), c)
  {
  }

  lemma {:induction false} RecordLeft(store: Store, table: Table, r: Record, rows: Rows, clock: nat -> Time, from: nat,
                                      c: Column)
    returns (u: Upsert)
    requires OneRecord(RecordsIn(store, table), r) && !IsClock(Key(table, r.id), c)
    ensures u.key == Key(table, r.id) && CellOf(store, rows, clock, from, u.key, c) == Left(rows, u, c)
    ensures GivenAt(u, r.columns + map[ProjectId := Str(r.project), CompanyId := Str(r.company)], OnceIn(table), c)
  {
    u := StatementOf(RecordCall(table, r));
    RecordIsGiven(table, r, c);
    RecordIsAlone(store, table, r);
    AloneLeft(store, RecordCall(table, r), u, rows, clock, from, c);
  }

  /** The row of a media object, a transcript, a dirty mark, a dirty lease, a consumer's state or an idempotency key
      holds the columns of its record, but for those its statement stamps with the clock. */
  lemma {:induction false} RecordCells(store: Store, table: Table, r: Record, rows: Rows, clock: nat -> Time, from: nat,
                                       c: Column)
    requires OneRecord(RecordsIn(store, table), r) && !IsClock(Key(table, r.id), c)
    ensures Holds(store, rows, clock, from, Key(table, r.id),
                  r.columns + map[ProjectId := Str(r.project), CompanyId := Str(r.company)], OnceIn(table), c)
  {
    var u := RecordLeft(store, table, r, rows, clock, from, c);
    GivenHolds(store, rows, clock, from, u, r.columns + map[ProjectId := Str(r.project), CompanyId := Str(r.company)],
               OnceIn(table), c);
  }

  function CallbackId(c: Callback): string {
    if c.id.None? || Trim(c.id.value) == "" then "callback_unknown" else Trim(c.id.value)
  }

  function CallbackProject(c: Callback): string {
    if c.project.None? || Trim(c.project.value) == "" then "default" else Trim(c.project.value)
  }

  function CallbackCompany(c: Callback): string {
    if c.company.None? || Trim(c.company.value) == "" then "default" else Trim(c.company.value)
  }

  lemma {:induction false} CallbackRecord(b: Callback)
    ensures RecordOf(b) == Record([CallbackId(b)], CallbackProject(b), CallbackCompany(b), b.columns)
  {
  }

  /** A callback's row, under its trimmed id or the one for callbacks without, keeps the company it was first written
      for. */
  lemma {:induction false} CallbackCells(store: Store, b: Callback, rows: Rows, clock: nat -> Time, from: nat,
                                         c: Column)
    requires b in store.callbacks && !c.UpdatedAt?
    requires forall other :: other in store.callbacks && CallbackId(other) == CallbackId(b) ==> other == b
    ensures Holds(store, rows, clock, from, Key(ConsumerCallbacks, [CallbackId(b)]),
                  b.columns + map[ProjectId := Str(CallbackProject(b)), CompanyId := Str(CallbackCompany(b))],
                  {ProjectId, CompanyId}, c)
  {
    CallbackRecord(b);
    CallbackRow(store, b, rows, clock, from, c);
    CallbackHolds(store, RecordOf(b), rows, clock, from, c);
  }

  lemma {:induction false} CallbackHolds(store: Store, r: Record, rows: Rows, clock: nat -> Time, from: nat, c: Column)
    requires !c.UpdatedAt?
    requires var u := StatementOf(PersistCallback(r)); CellOf(store, rows, clock, from, u.key, c) == Left(rows, u, c)
    ensures Holds(store, rows, clock, from, Key(ConsumerCallbacks, r.id),
                  r.columns + map[ProjectId := Str(r.project), CompanyId := Str(r.company)], {ProjectId, CompanyId}, c)
  {
    CallbackIsGiven(r, c);
    GivenHolds(store, rows, clock, from, StatementOf(PersistCallback(r)),
               r.columns + map[ProjectId := Str(r.project), CompanyId := Str(r.company)], {ProjectId, CompanyId}, c);
  }

  lemma {:induction false} CallbackIsGiven(r: Record, c: Column)
    requires !c.UpdatedAt?
    ensures var u := StatementOf(PersistCallback(r));
            && u.key == Key(ConsumerCallbacks, r.id)
            && GivenAt(u, r.columns + map[ProjectId := Str(r.project), CompanyId := Str(r.company)],
                       {ProjectId, CompanyId}, c)
  {
    RecordIsGiven(ConsumerCallbacks, r, c);
  }

  lemma {:induction false} CallbackRow(store: Store, b: Callback, rows: Rows, clock: nat -> Time, from: nat, c: Column)
    requires b in store.callbacks && !c.UpdatedAt?
    requires forall other :: other in store.callbacks && CallbackId(other) == CallbackId(b) ==> other == b
    ensures var u := StatementOf(PersistCallback(RecordOf(b)));
            CellOf(store, rows, clock, from, u.key, c) == Left(rows, u, c)
  {
    CallbackIsTimeless(RecordOf(b), c);
    CallbackIsAlone(store, b);
    AloneLeft(store, PersistCallback(RecordOf(b)), StatementOf(PersistCallback(RecordOf(b))), rows, clock, from, c);
  }

  lemma {:induction false} CallbackIsTimeless(r: Record, c: Column)
    requires !c.UpdatedAt?
    ensures var u := StatementOf(PersistCallback(r)); c in u.writes ==> IsTimeless(u.writes[c])
  {
    RecordIsGiven(ConsumerCallbacks, r, c);
  }

  lemma {:induction false} CallbackIsAlone(store: Store, b: Callback)
    requires b in store.callbacks
    requires forall other :: other in store.callbacks && CallbackId(other) == CallbackId(b) ==> other == b
    ensures Alone(store, PersistCallback(RecordOf(b)))
  {
    var call := PersistCallback(RecordOf(b));
    forall other | Asked(store, other) && RowOf(other) == RowOf(call) ensures other == call {
      assert other.PersistCallback?;
      var x :| x in store.callbacks && other.record == RecordOf(x);
      CallbackRecord(x);
      CallbackRecord(b);
      assert RecordOf(x).id[0] == RecordOf(b).id[0];
    }
  }

  /** A delivery attempt is inserted as it is, and never changed. */
  lemma {:induction false} AttemptCells(store: Store, a: Record, rows: Rows, clock: nat -> Time, from: nat, c: Column)
    requires OneRecord(store.attempts, a)
    ensures var key := Key(WebhookDeliveryAttempts, a.id);
            CellOf(store, rows, clock, from, key, c) ==
              if key in rows || c !in a.columns then Cell(rows, key, c) else a.columns[c]
  {
    AttemptIsAlone(store, a);
    AloneLeft(store, PersistAttempt(a), AttemptStatement(a), rows, clock, from, c);
    GivenHolds(store, rows, clock, from, AttemptStatement(a), a.columns, a.columns.Keys, c);
  }

  lemma {:induction false} AttemptIsAlone(store: Store, a: Record)
    requires OneRecord(store.attempts, a)
    ensures Alone(store, PersistAttempt(a))
  {
    forall other | Asked(store, other) && RowOf(other) == RowOf(PersistAttempt(a)) ensures other == PersistAttempt(a) {
      assert other.PersistAttempt?;
    }
  }

  // ---------------------------------------------------------------------
  // Group members

  /** A member's row holds the role, the admin flag and the times of the record; what is filled stays when the record
      has nothing to say, and the first joined_at stands. */
  lemma {:induction false} MemberCells(store: Store, g: (string, seq<Member>), m: Member, rows: Rows,
                                       clock: nat -> Time, from: nat, c: Column)
    requires g in store.groupMembers && m in g.1
    requires forall h, x :: h in store.groupMembers && x in h.1 && x.group == m.group && x.contact == m.contact ==>
               x == m
    ensures var key := Key(GroupMembers, [m.group, m.contact]);
            var was, left := Cell(rows, key, c), CellOf(store, rows, clock, from, key, c);
            match c
            case Role => left == Str(m.role)
            case IsAdmin => left == Some(Flag(m.admin))
            case UpdatedAt => left == Some(When(m.updatedAt))
            case WaJid => left == Str(if m.waJid.Some? then m.waJid.value else m.contact)
            case Name => left == Str(m.name)
            case PhoneE164 => left == if m.phone.Some? then Str(m.phone.value) else was
            case JoinedAt => left == if was.Some? then was else Some(When(m.joinedAt))
            case _ => left == was
  {
    MemberRow(store, g, m, rows, clock, from, c);
    MemberLeft(m, rows, c);
  }

  lemma {:induction false} MemberRow(store: Store, g: (string, seq<Member>), m: Member, rows: Rows, clock: nat -> Time,
                                     from: nat, c: Column)
    requires g in store.groupMembers && m in g.1
    requires forall h, x :: h in store.groupMembers && x in h.1 && x.group == m.group && x.contact == m.contact ==>
               x == m
    ensures var u := GroupMemberStatement(m); CellOf(store, rows, clock, from, u.key, c) == Left(rows, u, c)
  {
    MemberIsTimeless(m, c);
    MemberIsAlone(store, g, m);
    AloneLeft(store, UpsertGroupMember(m), GroupMemberStatement(m), rows, clock, from, c);
  }

  lemma {:induction false} MemberIsTimeless(m: Member, c: Column)
    ensures var u := GroupMemberStatement(m); c in u.writes ==> IsTimeless(u.writes[c])
  {
  }

  /** How the statement on a member writes each column. */
  function MemberWrite(m: Member, c: Column): Option<Write> {
    match c
    case Role => Some(Overwrite(Str(m.role)))
    case IsAdmin => Some(Overwrite(Some(Flag(m.admin))))
    case UpdatedAt => Some(Overwrite(Some(When(m.updatedAt))))
    case WaJid => Some(Coalesce(Str(m.waJid.GetOr(m.contact))))
    case Name => Some(Coalesce(Str(m.name)))
    case PhoneE164 => Some(Coalesce(OptStr(m.phone)))
    case JoinedAt => Some(KeepFirst(Some(When(m.joinedAt))))
    case _ => None
  }

  lemma {:induction false} MemberWrites(m: Member, c: Column)
    ensures var u, w := GroupMemberStatement(m), MemberWrite(m, c);
            && u.key == Key(GroupMembers, [m.group, m.contact])
            && (c in u.writes <==> w.Some?) && (w.Some? ==> u.writes[c] == w.value)
  {
    match c
    case Role =>
    case IsAdmin =>
    case UpdatedAt =>
    case WaJid =>
    case Name =>
    case PhoneE164 =>
    case JoinedAt =>
    case _ =>
  }

  lemma {:induction false} MemberLeft(m: Member, rows: Rows, c: Column)
    ensures var u := GroupMemberStatement(m);
            var was, left := Cell(rows, u.key, c), Left(rows, u, c);
            && u.key == Key(GroupMembers, [m.group, m.contact])
            && match c
               case Role => left == Str(m.role)
               case IsAdmin => left == Some(Flag(m.admin))
               case UpdatedAt => left == Some(When(m.updatedAt))
               case WaJid => left == Str(if m.waJid.Some? then m.waJid.value else m.contact)
               case Name => left == Str(m.name)
               case PhoneE164 => left == if m.phone.Some? then Str(m.phone.value) else was
               case JoinedAt => left == if was.Some? then was else Some(When(m.joinedAt))
               case _ => left == was
  {
    MemberWrites(m, c);
    WriteLeft(rows, GroupMemberStatement(m), c, MemberWrite(m, c));
  }

  /** What is left of a write that no other follows. */
  lemma {:induction false} WriteLeft(rows: Rows, u: Upsert, c: Column, w: Option<Write>)
    requires (c in u.writes <==> w.Some?) && (w.Some? ==> u.writes[c] == w.value)
    ensures var was := Cell(rows, u.key, c);
            && (w.None? ==> Left(rows, u, c) == was)
            && (w.Some? && w.value.Overwrite? ==> Left(rows, u, c) == w.value.value)
            && (w.Some? && w.value.Once? ==> Left(rows, u, c) == if u.key in rows then was else w.value.value)
            && (w.Some? && w.value.Coalesce? ==>
                  Left(rows, u, c) == if w.value.value.Some? then w.value.value else was)
            && (w.Some? && w.value.KeepFirst? ==> Left(rows, u, c) == if was.Some? then was else w.value.value)
  {
  }

  lemma {:induction false} MemberIsAlone(store: Store, g: (string, seq<Member>), m: Member)
    requires g in store.groupMembers && m in g.1
    requires forall h, x :: h in store.groupMembers && x in h.1 && x.group == m.group && x.contact == m.contact ==>
               x == m
    ensures Alone(store, UpsertGroupMember(m))
  {
    var call := UpsertGroupMember(m);
    forall other | Asked(store, other) && RowOf(other) == RowOf(call) ensures other == call {
      assert other.UpsertGroupMember?;
      assert RowOf(other).id[0] == m.group && RowOf(other).id[1] == m.contact;
    }
  }
}
