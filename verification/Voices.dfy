/** The rows that several records write: whose word counts for contacts, groups, companies, projects and channels. */
module Voices {
  import opened Wrappers
  import opened Tables
  import opened Upserts
  import opened Relational
  import opened Persisting
  import opened Coverage
  import opened Cells

  // ---------------------------------------------------------------------
  // One cell through statements of several kinds

  /** The statement leaves the cell of a row that is there. */
  predicate Passive(u: Upsert, c: Column) {
    c !in u.writes || u.writes[c].Once? || u.writes[c].ClockOnce? || u.writes[c] == Coalesce(None)
  }

  function NoHit(): Upsert -> bool {
    (u: Upsert) => false
  }

  function StillIs(was: Field): (bool, bool, Field) -> bool {
    (h: bool, p: bool, f: Field) => p && f == was
  }

  lemma {:induction false} PassiveIsKept(u: Upsert, c: Column, clock: nat -> Time, was: Field)
    requires Passive(u, c)
    ensures Keeps(u, c, clock, NoHit(), StillIs(was))
  {
    forall k: nat, h, p, f | StillIs(was)(h, p, f)
      ensures StillIs(was)(h || NoHit()(u), true, Next(u, c, p, f, clock(k)))
    {
    }
  }

  lemma {:induction false} PassiveKeeps(rows: Rows, plan: seq<Upsert>, clock: nat -> Time, from: nat, key: Key,
                                        c: Column)
    requires key in rows && forall i :: 0 <= i < |plan| && plan[i].key == key ==> Passive(plan[i], c)
    ensures var after := Pass(rows, plan, clock, from); key in after && Cell(after, key, c) == Cell(rows, key, c)
  {
    var was := Cell(rows, key, c);
    forall i | 0 <= i < |plan| && plan[i].key == key ensures Keeps(plan[i], c, clock, NoHit(), StillIs(was)) {
      PassiveIsKept(plan[i], c, clock, was);
    }
    CellRun(rows, plan, clock, from, key, c, NoHit(), StillIs(was));
  }

  /** The statement fills the cell with the value, or has nothing to say about it. */
  predicate Fills(u: Upsert, c: Column, value: Field) {
    c !in u.writes || u.writes[c] == Coalesce(None) || u.writes[c] == Coalesce(value)
  }

  function FillHit(key: Key, c: Column, value: Field): Upsert -> bool {
    (u: Upsert) => u.key == key && c in u.writes && u.writes[c] == Coalesce(value)
  }

  function FilledWith(was: Field, value: Field): (bool, bool, Field) -> bool {
    (h: bool, p: bool, f: Field) =>
      (!p ==> f == None == was) && if h && value.Some? then f == value else f == was || (value.Some? && f == value)
  }

  lemma {:induction false} FillIsKept(u: Upsert, c: Column, clock: nat -> Time, was: Field, value: Field)
    requires Fills(u, c, value)
    ensures Keeps(u, c, clock, FillHit(u.key, c, value), FilledWith(was, value))
  {
    var hit, inv := FillHit(u.key, c, value), FilledWith(was, value);
    forall k: nat, h, p, f | inv(h, p, f) ensures inv(h || hit(u), true, Next(u, c, p, f, clock(k))) {
    }
  }

  /** Where nobody says anything else, a cell that is filled through COALESCE holds the value that is offered, or what
      was there when none is. */
  lemma {:induction false} FilledCell(rows: Rows, plan: seq<Upsert>, clock: nat -> Time, from: nat, key: Key, c: Column,
                                      value: Field)
    requires forall i :: 0 <= i < |plan| && plan[i].key == key ==> Fills(plan[i], c, value)
    requires exists i :: 0 <= i < |plan| && FillHit(key, c, value)(plan[i])
    ensures Cell(Pass(rows, plan, clock, from), key, c) == if value.Some? then value else Cell(rows, key, c)
  {
    var hit, was := FillHit(key, c, value), Cell(rows, key, c);
    forall i | 0 <= i < |plan| && plan[i].key == key ensures Keeps(plan[i], c, clock, hit, FilledWith(was, value)) {
      FillIsKept(plan[i], c, clock, was, value);
    }
    CellRun(rows, plan, clock, from, key, c, hit, FilledWith(was, value));
  }

  /** The statement sets the cell to something that ok accepts, over whatever is there. */
  predicate Says(u: Upsert, c: Column, ok: Field -> bool) {
    && c in u.writes && (u.writes[c].Overwrite? || (u.writes[c].Coalesce? && u.writes[c].value.Some?))
    && ok(u.writes[c].value)
  }

  function Is(value: Field): Field -> bool {
    (f: Field) => f == value
  }

  function SaidHit(key: Key, c: Column, ok: Field -> bool): Upsert -> bool {
    (u: Upsert) => u.key == key && Says(u, c, ok)
  }

  function Accepted(ok: Field -> bool): (bool, bool, Field) -> bool {
    (h: bool, p: bool, f: Field) => h ==> p && ok(f)
  }

  lemma {:induction false} SaidIsKept(u: Upsert, c: Column, clock: nat -> Time, ok: Field -> bool)
    requires Says(u, c, ok) || Passive(u, c)
    ensures Keeps(u, c, clock, SaidHit(u.key, c, ok), Accepted(ok))
  {
    var hit, inv := SaidHit(u.key, c, ok), Accepted(ok);
    forall k: nat, h, p, f | inv(h, p, f) ensures inv(h || hit(u), true, Next(u, c, p, f, clock(k))) {
      if Says(u, c, ok) {
        assert Next(u, c, p, f, clock(k)) == u.writes[c].value;
      } else if p {
        assert Next(u, c, p, f, clock(k)) == f;
      }
    }
  }

  /** When every statement on the row either says something acceptable or leaves it, and one of them speaks, something
      acceptable is what is left. */
  lemma {:induction false} SaidCell(rows: Rows, plan: seq<Upsert>, clock: nat -> Time, from: nat, key: Key, c: Column,
                                    ok: Field -> bool)
    requires forall i :: 0 <= i < |plan| && plan[i].key == key ==> Says(plan[i], c, ok) || Passive(plan[i], c)
    requires exists i :: 0 <= i < |plan| && plan[i].key == key && Says(plan[i], c, ok)
    ensures ok(Cell(Pass(rows, plan, clock, from), key, c))
  {
    var hit := SaidHit(key, c, ok);
    forall i | 0 <= i < |plan| && plan[i].key == key ensures Keeps(plan[i], c, clock, hit, Accepted(ok)) {
      SaidIsKept(plan[i], c, clock, ok);
    }
    CellRun(rows, plan, clock, from, key, c, hit, Accepted(ok));
    var i :| 0 <= i < |plan| && plan[i].key == key && Says(plan[i], c, ok);
    assert hit(plan[i]);
  }

  // The same for the calls of a part of the plan.

  predicate About(calls: seq<Call>, key: Key, call: Call) {
    call in calls && RowOf(call) == key
  }

  lemma {:induction false} CallAt(calls: seq<Call>, i: nat)
    requires i < |calls|
    ensures Statements(calls)[i] == StatementOf(calls[i]) && StatementOf(calls[i]).key == RowOf(calls[i])
    ensures calls[i] in calls
  {
    StatementsAreAboutRows(calls[i]);
  }

  lemma {:induction false} CallsKeep(rows: Rows, calls: seq<Call>, clock: nat -> Time, from: nat, key: Key, c: Column)
    requires key in rows && forall call :: About(calls, key, call) ==> Passive(StatementOf(call), c)
    ensures var after := Pass(rows, Statements(calls), clock, from);
            key in after && Cell(after, key, c) == Cell(rows, key, c)
  {
    var plan := Statements(calls);
    forall i | 0 <= i < |plan| && plan[i].key == key ensures Passive(plan[i], c) {
      CallAt(calls, i);
      assert About(calls, key, calls[i]);
    }
    PassiveKeeps(rows, plan, clock, from, key, c);
  }

  lemma {:induction false} CallsFill(rows: Rows, calls: seq<Call>, clock: nat -> Time, from: nat, key: Key, c: Column,
                                     value: Field, one: Call)
    requires forall call :: About(calls, key, call) ==> Fills(StatementOf(call), c, value)
    requires About(calls, key, one) && c in StatementOf(one).writes && StatementOf(one).writes[c] == Coalesce(value)
    ensures Cell(Pass(rows, Statements(calls), clock, from), key, c)
            == if value.Some? then value else Cell(rows, key, c)
  {
    var plan := Statements(calls);
    forall i | 0 <= i < |plan| && plan[i].key == key ensures Fills(plan[i], c, value) {
      CallAt(calls, i);
      assert About(calls, key, calls[i]);
    }
    var i :| 0 <= i < |calls| && calls[i] == one;
    CallAt(calls, i);
    assert FillHit(key, c, value)(plan[i]);
    FilledCell(rows, plan, clock, from, key, c, value);
  }

  lemma {:induction false} CallsSay(rows: Rows, calls: seq<Call>, clock: nat -> Time, from: nat, key: Key, c: Column,
                                    ok: Field -> bool, one: Call)
    requires forall call :: About(calls, key, call) ==> Says(StatementOf(call), c, ok) || Passive(StatementOf(call), c)
    requires About(calls, key, one) && Says(StatementOf(one), c, ok)
    ensures ok(Cell(Pass(rows, Statements(calls), clock, from), key, c))
  {
    var plan := Statements(calls);
    forall i | 0 <= i < |plan| && plan[i].key == key ensures Says(plan[i], c, ok) || Passive(plan[i], c) {
      CallAt(calls, i);
      assert About(calls, key, calls[i]);
    }
    var i :| 0 <= i < |calls| && calls[i] == one;
    CallAt(calls, i);
    assert plan[i].key == key && Says(plan[i], c, ok);
    SaidCell(rows, plan, clock, from, key, c, ok);
  }

  /** Nobody in this part of the plan is about the row. */
  lemma {:induction false} CallsPass(rows: Rows, calls: seq<Call>, clock: nat -> Time, from: nat, key: Key, c: Column)
    requires forall call :: !About(calls, key, call)
    ensures var after := Pass(rows, Statements(calls), clock, from);
            (key in after <==> key in rows) && Cell(after, key, c) == Cell(rows, key, c)
  {
    var plan := Statements(calls);
    if Touches(plan, key) {
      var i :| 0 <= i < |plan| && plan[i].key == key;
      CallAt(calls, i);
      assert About(calls, key, calls[i]);
    }
    NetIsExact(rows, plan, clock, from, key, c);
    UntouchedIsKept(plan, key in rows, key, c);
  }

  /** Only one statement in this part of the plan, however often, is about the row. */
  lemma {:induction false} CallsSame(rows: Rows, calls: seq<Call>, clock: nat -> Time, from: nat, only: Call, c: Column)
    requires only in calls && forall call :: About(calls, RowOf(only), call) ==> call == only
    requires c in StatementOf(only).writes ==> IsTimeless(StatementOf(only).writes[c])
    ensures var after := Pass(rows, Statements(calls), clock, from);
            RowOf(only) in after && Cell(after, RowOf(only), c) == Left(rows, StatementOf(only), c)
  {
    var plan, u := Statements(calls), StatementOf(only);
    StatementsAreAboutRows(only);
    forall i | 0 <= i < |plan| && plan[i].key == u.key ensures plan[i] == u {
      CallAt(calls, i);
      assert About(calls, RowOf(only), calls[i]);
    }
    var i :| 0 <= i < |calls| && calls[i] == only;
    CallAt(calls, i);
    assert plan[i].key == u.key;
    SameStatement(rows, plan, clock, from, u, c);
    NetIsExact(rows, plan, clock, from, u.key, c);
  }

  lemma {:induction false} PassParts(rows: Rows, a: seq<Call>, b: seq<Call>, clock: nat -> Time, from: nat)
    ensures Pass(rows, Statements(a + b), clock, from)
            == Pass(Pass(rows, Statements(a), clock, from), Statements(b), clock, from + |a|)
  {
    StatementsAppend(a, b);
    PassAppend(rows, Statements(a), Statements(b), clock, from);
  }

  // ---------------------------------------------------------------------
  // Contacts

  function UpToContacts(store: Store): seq<Call> {
    Each(store.projects, ConfiguredProject) + Each(ProjectMentions(store), MentionProject) + CompanyCalls(store) +
    Each(store.channels, ConfiguredChannel) + Each(ChannelMentions(store), at => MentionChannel(store, at)) +
    Each(store.contacts, c => CallsOfContact(store, c))
  }

  function AfterContacts(store: Store): seq<Call> {
    GroupCalls(store) + GroupMemberCalls(store) + RecordCalls(store) + Each(store.callbacks, CallsOfCallback) +
    Each(store.attempts, (a: Record) => [PersistAttempt(a)])
  }

  lemma {:induction false} RegroupPlan(a: seq<Call>, b: seq<Call>, c: seq<Call>, d: seq<Call>, e: seq<Call>,
                                       f: seq<Call>,
                                     g: seq<Call>, h: seq<Call>, i: seq<Call>, j: seq<Call>, k: seq<Call>, l: seq<Call>,
                                     m: seq<Call>)
    ensures a + (b + c + d + (e + f + (g + h + i + j + k) + l + m))
            == (a + b + c + d + e + f) + g + h + (i + j + k + l + m)
  {
  }

  lemma {:induction false} PlanByContacts(store: Store)
    ensures Plan(store) == UpToContacts(store) + Each(store.conversations, ContactOfConversation) +
                           Each(store.messages, SenderOfMessage) + AfterContacts(store)
  {
    RegroupPlan(Each(store.projects, ConfiguredProject), Each(ProjectMentions(store), MentionProject),
                CompanyCalls(store),
              Each(store.channels, ConfiguredChannel), Each(ChannelMentions(store), at => MentionChannel(store, at)),
              Each(store.contacts, c => CallsOfContact(store, c)), Each(store.conversations, ContactOfConversation),
              Each(store.messages, SenderOfMessage), GroupCalls(store), GroupMemberCalls(store), RecordCalls(store),
              Each(store.callbacks, CallsOfCallback), Each(store.attempts, (a: Record) => [PersistAttempt(a)]));
  }

  predicate IsSetting(call: Call) {
    call.UpsertProject? || call.UpsertCompany? || call.UpsertChannel?
  }

  lemma {:induction false} ProjectLoopsSet(store: Store, call: Call)
    requires call in Each(store.projects, ConfiguredProject) || call in Each(ProjectMentions(store), MentionProject)
    ensures call.UpsertProject?
  {
    if call in Each(store.projects, ConfiguredProject) {
      ConfiguredProjectCalls(store.projects, call);
    } else {
      ProjectLoopsMention(store, call);
    }
  }

  lemma {:induction false} CompanyLoopsSet(store: Store, call: Call)
    requires call in CompanyCalls(store)
    ensures call.UpsertCompany?
  {
    if call in Each(store.companies, ConfiguredCompany) {
      var c :| c in store.companies && call in ConfiguredCompany(c);
    } else {
      var at :| at in CompanyMentions(store) && call in MentionCompany(at);
    }
  }

  lemma {:induction false} ChannelLoopsSet(store: Store, call: Call)
    requires || call in Each(store.channels, ConfiguredChannel)
             || call in Each(ChannelMentions(store), at => MentionChannel(store, at))
    ensures IsSetting(call)
  {
    if call in Each(store.channels, ConfiguredChannel) {
      var c :| c in store.channels && call in ConfiguredChannel(c);
    } else {
      var at :| at in ChannelMentions(store) && call in MentionChannel(store, at);
    }
  }

  lemma {:induction false} ContactLoopWrites(store: Store, call: Call)
    requires call in Each(store.contacts, c => CallsOfContact(store, c))
    ensures call.UpsertChannel? || call.UpsertContact?
    ensures call.UpsertContact? ==>
              && call.contact in store.contacts
              && call.channel == ChannelForCompany(store, call.contact.project, call.contact.company)
  {
    var c :| c in store.contacts && call in CallsOfContact(store, c);
  }

  lemma {:induction false} GroupLoopsWrite(store: Store, call: Call)
    requires call in GroupCalls(store)
    ensures call.UpsertGroup?
  {
  }

  lemma {:induction false} MemberLoopWrites(store: Store, call: Call)
    requires call in GroupMemberCalls(store)
    ensures call.UpsertGroup? || call.UpsertMinimalContact? || call.UpsertGroupMember?
    ensures call.UpsertMinimalContact? ==> NamesMember(store, call.id, call.shown)
  {
  }

  predicate NamesMember(store: Store, id: string, name: Option<string>) {
    exists g, m :: g in store.groupMembers && m in g.1 && m.contact == id && name == Some(m.name)
  }

  predicate IsRest(call: Call) {
    !IsSetting(call) && !call.UpsertContact? && !call.UpsertMinimalContact? && !call.UpsertGroup?
  }

  lemma {:induction false} RecordLoopsWrite(store: Store, call: Call)
    requires call in RecordCalls(store) || call in Each(store.attempts, (a: Record) => [PersistAttempt(a)])
    ensures IsRest(call)
  {
  }

  lemma {:induction false} CallbackLoopWrites(store: Store, call: Call)
    requires call in Each(store.callbacks, CallsOfCallback)
    ensures IsSetting(call) || IsRest(call)
  {
    var c :| c in store.callbacks && call in CallsOfCallback(c);
  }

  lemma {:induction false} EarlyAreEntries(store: Store, call: Call)
    requires call in UpToContacts(store)
    ensures IsSetting(call) || call.UpsertContact?
    ensures call.UpsertContact? ==>
              && call.contact in store.contacts
              && call.channel == ChannelForCompany(store, call.contact.project, call.contact.company)
  {
    if call in Each(store.contacts, c => CallsOfContact(store, c)) {
      ContactLoopWrites(store, call);
    } else if call in CompanyCalls(store) {
      CompanyLoopsSet(store, call);
    } else if call in Each(store.channels, ConfiguredChannel) ||
              call in Each(ChannelMentions(store), at => MentionChannel(store, at)) {
      ChannelLoopsSet(store, call);
    } else {
      ProjectLoopsSet(store, call);
    }
  }

  lemma {:induction false} LateAreMembers(store: Store, call: Call)
    requires call in AfterContacts(store)
    ensures !call.UpsertContact?
    ensures call.UpsertMinimalContact? ==> NamesMember(store, call.id, call.shown)
  {
    if call in GroupMemberCalls(store) {
      MemberLoopWrites(store, call);
    } else if call in GroupCalls(store) {
      GroupLoopsWrite(store, call);
    } else if call in Each(store.callbacks, CallsOfCallback) {
      CallbackLoopWrites(store, call);
    } else {
      RecordLoopsWrite(store, call);
    }
  }

  lemma {:induction false} MiddleAreNames(store: Store, call: Call)
    ensures call in Each(store.conversations, ContactOfConversation) ==>
              && call.UpsertMinimalContact?
              && exists v :: v in store.conversations && v.contact == Some(call.id) && call.shown == v.name
    ensures call in Each(store.messages, SenderOfMessage) ==>
              && call.UpsertMinimalContact?
              && exists m :: m in store.messages && m.sender == Some(call.id) && call.shown == m.senderName
  {
    if call in Each(store.conversations, ContactOfConversation) {
      var v :| v in store.conversations && call in ContactOfConversation(v);
    }
    if call in Each(store.messages, SenderOfMessage) {
      var m :| m in store.messages && call in SenderOfMessage(m);
    }
  }

  // How the two statements on contacts write each column.

  predicate WrittenAs(u: Upsert, c: Column, w: Option<Write>) {
    (c in u.writes <==> w.Some?) && (w.Some? ==> u.writes[c] == w.value)
  }

  function ContactColumn(contact: Contact, channel: string, c: Column): Option<Write> {
    match c
    case ProjectId => Some(Once(Str(contact.project)))
    case CompanyId => Some(Once(Str(contact.company)))
    case ChannelAccountId => Some(Overwrite(Str(if contact.channel.Some? then contact.channel.value else channel)))
    case DisplayName => Some(Overwrite(Str(contact.displayName)))
    case FirstContactAt => Some(Once(Some(When(contact.firstAt))))
    case LastContactAt => Some(Overwrite(Some(When(contact.lastAt))))
    case UpdatedAt => Some(Clock(0))
    case _ => None
  }

  function ContactField(contact: Contact, c: Column): Option<Field> {
    match c
    case WaJid => Some(OptStr(if contact.canonicalJid.Some? then contact.canonicalJid else contact.lid))
    case PhoneE164 => Some(OptStr(contact.phone))
    case Lid => Some(OptStr(contact.lid))
    case PushName => Some(OptStr(contact.pushName))
    case ProfilePictureMediaId => Some(OptStr(contact.pictureMedia))
    case BusinessDescription => Some(OptStr(contact.description))
    case AvatarUrl => Some(OptStr(contact.avatarUrl))
    case ProfilePictureUrl => Some(OptStr(contact.pictureUrl))
    case _ => None
  }

  lemma {:induction false} ContactColumnsAre(contact: Contact, channel: string, c: Column)
    ensures var (all, w) := (ContactColumns(contact, channel), ContactColumn(contact, channel, c));
            (c in all <==> w.Some?) && (w.Some? ==> all[c] == w.value)
  {
    if c in {ProjectId, CompanyId, FirstContactAt} {
      ContactInserts(contact, channel, c);
    } else {
      ContactUpdates(contact, channel, c);
    }
  }

  lemma {:induction false} ContactInserts(contact: Contact, channel: string, c: Column)
    requires c in {ProjectId, CompanyId, FirstContactAt}
    ensures var (all, w) := (ContactColumns(contact, channel), ContactColumn(contact, channel, c));
            c in all && w == Some(all[c])
  {
    match c
    case ProjectId =>
    case CompanyId =>
    case _ =>
  }

  lemma {:induction false} ContactUpdates(contact: Contact, channel: string, c: Column)
    requires !(c in {ProjectId, CompanyId, FirstContactAt})
    ensures var (all, w) := (ContactColumns(contact, channel), ContactColumn(contact, channel, c));
            (c in all <==> w.Some?) && (w.Some? ==> all[c] == w.value)
  {
    match c
    case ChannelAccountId =>
    case DisplayName =>
    case LastContactAt =>
    case UpdatedAt =>
    case _ =>
  }

  lemma {:induction false} ContactFieldsAre(contact: Contact, c: Column)
    ensures var (all, f) := (ContactFields(contact), ContactField(contact, c));
            (c in all <==> f.Some?) && (f.Some? ==> all[c] == f.value)
  {
    if c in {WaJid, PhoneE164, Lid, PushName} {
      ContactTexts(contact, c);
    } else {
      ContactPictures(contact, c);
    }
  }

  lemma {:induction false} ContactTexts(contact: Contact, c: Column)
    requires c in {WaJid, PhoneE164, Lid, PushName}
    ensures c in ContactFields(contact) && ContactField(contact, c) == Some(ContactFields(contact)[c])
  {
    match c
    case WaJid =>
    case PhoneE164 =>
    case Lid =>
    case _ =>
  }

  lemma {:induction false} ContactPictures(contact: Contact, c: Column)
    requires !(c in {WaJid, PhoneE164, Lid, PushName})
    ensures var (all, f) := (ContactFields(contact), ContactField(contact, c));
            (c in all <==> f.Some?) && (f.Some? ==> all[c] == f.value)
  {
    match c
    case ProfilePictureMediaId =>
    case BusinessDescription =>
    case AvatarUrl =>
    case ProfilePictureUrl =>
    case _ =>
  }

  function ContactWrite(contact: Contact, channel: string, c: Column): Option<Write> {
    if ContactField(contact, c).Some? then Some(Coalesce(ContactField(contact, c).value))
    else ContactColumn(contact, channel, c)
  }

  lemma {:induction false} ContactWrites(contact: Contact, channel: string, c: Column)
    ensures var u := ContactStatement(contact, channel);
            u.key == Key(Contacts, [contact.id]) && WrittenAs(u, c, ContactWrite(contact, channel, c))
  {
    ContactColumnsAre(contact, channel, c);
    ContactFieldsAre(contact, c);
  }

  function MinimalWrite(call: Call, c: Column): Option<Write>
    requires call.UpsertMinimalContact?
  {
    match c
    case ProjectId => Some(Once(Str(call.project)))
    case CompanyId => Some(Once(Str(call.company)))
    case ChannelAccountId => Some(Once(Str(call.channel)))
    case WaJid => Some(Once(Str(call.id)))
    case PhoneE164 => Some(Coalesce(OptStr(call.phone)))
    case DisplayName => Some(Coalesce(Str(if call.shown.Some? then call.shown.value else call.id)))
    case FirstContactAt => Some(ClockOnce)
    case LastContactAt => Some(Clock(0))
    case UpdatedAt => Some(Clock(0))
    case _ => None
  }

  lemma {:induction false} MinimalWrites(call: Call, c: Column)
    requires call.UpsertMinimalContact?
    ensures WrittenAs(StatementOf(call), c, MinimalWrite(call, c))
  {
    if c in {ProjectId, CompanyId, ChannelAccountId, WaJid, FirstContactAt} {
      MinimalInserts(call, c);
    } else {
      MinimalUpdates(call, c);
    }
  }

  lemma {:induction false} MinimalInserts(call: Call, c: Column)
    requires call.UpsertMinimalContact? && c in {ProjectId, CompanyId, ChannelAccountId, WaJid, FirstContactAt}
    ensures WrittenAs(StatementOf(call), c, MinimalWrite(call, c))
  {
    match c
    case ProjectId =>
    case CompanyId =>
    case ChannelAccountId =>
    case WaJid =>
    case _ =>
  }

  lemma {:induction false} MinimalUpdates(call: Call, c: Column)
    requires call.UpsertMinimalContact? && !(c in {ProjectId, CompanyId, ChannelAccountId, WaJid, FirstContactAt})
    ensures WrittenAs(StatementOf(call), c, MinimalWrite(call, c))
  {
    match c
    case PhoneE164 =>
    case DisplayName =>
    case LastContactAt =>
    case UpdatedAt =>
    case _ =>
  }

  /** The contact has one entry. */
  predicate OneContact(store: Store, c: Contact) {
    c in store.contacts && forall other :: other in store.contacts && other.id == c.id ==> other == c
  }

  function EntryCall(store: Store, c: Contact): Call {
    UpsertContact(c, ChannelForCompany(store, c.project, c.company))
  }

  function Minimals(store: Store): seq<Call> {
    Each(store.conversations, ContactOfConversation) + Each(store.messages, SenderOfMessage) + AfterContacts(store)
  }

  lemma {:induction false} PlanByEntries(store: Store)
    ensures Plan(store) == UpToContacts(store) + Minimals(store)
  {
    PlanByContacts(store);
    RegroupThree(UpToContacts(store), Each(store.conversations, ContactOfConversation),
                 Each(store.messages, SenderOfMessage), AfterContacts(store));
  }

  lemma {:induction false} RegroupThree(a: seq<Call>, b: seq<Call>, c: seq<Call>, d: seq<Call>)
    ensures a + b + c + d == a + (b + c + d)
  {
  }

  lemma {:induction false} MinimalsOnly(store: Store, call: Call, id: string)
    requires About(Minimals(store), Key(Contacts, [id]), call)
    ensures call.UpsertMinimalContact? && call.id == id
  {
    MiddleAreNames(store, call);
    if call in AfterContacts(store) {
      LateAreMembers(store, call);
    }
    assert RowOf(call).id[0] == id;
  }

  lemma {:induction false} EntriesOnly(store: Store, c: Contact, call: Call)
    requires OneContact(store, c) && About(UpToContacts(store), Key(Contacts, [c.id]), call)
    ensures call == EntryCall(store, c)
  {
    EarlyAreEntries(store, call);
    assert RowOf(call).id[0] == c.id;
  }

  lemma {:induction false} EntryIsEarly(store: Store, c: Contact)
    requires c in store.contacts
    ensures EntryCall(store, c) in UpToContacts(store)
  {
    assert EntryCall(store, c) in CallsOfContact(store, c);
    assert EntryCall(store, c) in Each(store.contacts, c => CallsOfContact(store, c));
  }

  /** What the entry alone leaves in a cell. */
  function EntryLeaves(c: Contact, channel: string, present: bool, was: Field, column: Column): Field {
    match column
    case ProjectId => if present then was else Str(c.project)
    case CompanyId => if present then was else Str(c.company)
    case FirstContactAt => if present then was else Some(When(c.firstAt))
    case ChannelAccountId => Str(if c.channel.Some? then c.channel.value else channel)
    case DisplayName => Str(c.displayName)
    case LastContactAt => Some(When(c.lastAt))
    case _ =>
      var offered := ContactField(c, column);
      if offered.Some? && offered.value.Some? then offered.value else was
  }

  lemma {:induction false} EntryLeft(rows: Rows, c: Contact, channel: string, column: Column)
    requires !column.UpdatedAt?
    ensures var u := ContactStatement(c, channel);
            && u.key == Key(Contacts, [c.id]) && (column in u.writes ==> IsTimeless(u.writes[column]))
            && Left(rows, u, column) == EntryLeaves(c, channel, u.key in rows, Cell(rows, u.key, column), column)
  {
    ContactWrites(c, channel, column);
    EntryLeftOf(rows, ContactStatement(c, channel), c, channel, column);
  }

  lemma {:induction false} EntryLeftOf(rows: Rows, u: Upsert, c: Contact, channel: string, column: Column)
    requires WrittenAs(u, column, ContactWrite(c, channel, column)) && !column.UpdatedAt?
    ensures column in u.writes ==> IsTimeless(u.writes[column])
    ensures Left(rows, u, column) == EntryLeaves(c, channel, u.key in rows, Cell(rows, u.key, column), column)
  {
    WriteLeft(rows, u, column, ContactWrite(c, channel, column));
  }

  lemma {:induction false} EntriesOnlyOne(store: Store, c: Contact)
    requires OneContact(store, c)
    ensures var only := EntryCall(store, c);
            only in UpToContacts(store) &&
            forall call :: About(UpToContacts(store), Key(Contacts, [c.id]), call) ==> call == only
  {
    EntryIsEarly(store, c);
    forall call | About(UpToContacts(store), Key(Contacts, [c.id]), call) ensures call == EntryCall(store, c) {
      EntriesOnly(store, c, call);
    }
  }

  /** One call is about the row in this part of the plan; left is what it leaves. */
  lemma {:induction false} OneLeaves(rows: Rows, calls: seq<Call>, clock: nat -> Time, from: nat, key: Key, only: Call,
                                     u: Upsert, c: Column, left: Field)
    requires only in calls && forall call :: About(calls, key, call) ==> call == only
    requires StatementOf(only) == u && u.key == key && (c in u.writes ==> IsTimeless(u.writes[c]))
    requires Left(rows, u, c) == left
    ensures var after := Pass(rows, Statements(calls), clock, from); key in after && Cell(after, key, c) == left
  {
    StatementsAreAboutRows(only);
    CallsSame(rows, calls, clock, from, only, c);
  }

  lemma {:induction false} AfterEntry(store: Store, c: Contact, rows: Rows, clock: nat -> Time, from: nat,
                                      column: Column)
    requires OneContact(store, c) && !column.UpdatedAt?
    ensures var after, key := Pass(rows, Statements(UpToContacts(store)), clock, from), Key(Contacts, [c.id]);
            var channel := ChannelForCompany(store, c.project, c.company);
            && key in after
            && Cell(after, key, column) == EntryLeaves(c, channel, key in rows, Cell(rows, key, column), column)
  {
    EntriesOnlyOne(store, c);
    AfterOnlyEntry(c, EntryCall(store, c), UpToContacts(store), rows, clock, from, column);
  }

  lemma {:induction false} AfterOnlyEntry(c: Contact, only: Call, calls: seq<Call>, rows: Rows, clock: nat -> Time,
                                          from: nat, column: Column)
    requires only.UpsertContact? && only.contact == c && only in calls && !column.UpdatedAt?
    requires forall call :: About(calls, Key(Contacts, [c.id]), call) ==> call == only
    ensures var after, key := Pass(rows, Statements(calls), clock, from), Key(Contacts, [c.id]);
            && key in after
            && Cell(after, key, column) == EntryLeaves(c, only.channel, key in rows, Cell(rows, key, column), column)
  {
    var key := Key(Contacts, [c.id]);
    EntryLeft(rows, c, only.channel, column);
    OneLeaves(rows, calls, clock, from, key, only, ContactStatement(c, only.channel), column,
              EntryLeaves(c, only.channel, key in rows, Cell(rows, key, column), column));
  }

  /** What the first part of a plan leaves, the second keeps. */
  lemma {:induction false} HeadStands(rows: Rows, head: seq<Call>, tail: seq<Call>, clock: nat -> Time, from: nat,
                                      key: Key, c: Column)
    requires key in Pass(rows, Statements(head), clock, from)
    requires forall call :: About(tail, key, call) ==> Passive(StatementOf(call), c)
    ensures Cell(Pass(rows, Statements(head + tail), clock, from), key, c)
            == Cell(Pass(rows, Statements(head), clock, from), key, c)
  {
    PassParts(rows, head, tail, clock, from);
    CallsKeep(Pass(rows, Statements(head), clock, from), tail, clock, from + |head|, key, c);
  }

  lemma {:induction false} MinimalsArePassive(store: Store, id: string, column: Column)
    requires !column.DisplayName? && !column.PhoneE164? && !column.LastContactAt? && !column.UpdatedAt?
    ensures forall call :: About(Minimals(store), Key(Contacts, [id]), call) ==> Passive(StatementOf(call), column)
  {
    forall call | About(Minimals(store), Key(Contacts, [id]), call) ensures Passive(StatementOf(call), column) {
      MinimalsOnly(store, call, id);
      MinimalIsPassive(call, column);
    }
  }

  lemma {:induction false} MinimalIsPassive(call: Call, column: Column)
    requires call.UpsertMinimalContact?
    requires !column.DisplayName? && !column.PhoneE164? && !column.LastContactAt? && !column.UpdatedAt?
    ensures Passive(StatementOf(call), column)
  {
    MinimalWrites(call, column);
  }

  /** What the entry of a contact says stands, whoever mentions the contact: it is written first, and the mentions
      insert nothing that is there. Only the shown name, the phone number and the time of the last contact are theirs
      too. */
  lemma {:induction false} ContactCells(store: Store, c: Contact, rows: Rows, clock: nat -> Time, from: nat,
                                        column: Column)
    requires OneContact(store, c)
    requires !column.DisplayName? && !column.PhoneE164? && !column.LastContactAt? && !column.UpdatedAt?
    ensures var key := Key(Contacts, [c.id]);
            var channel := ChannelForCompany(store, c.project, c.company);
            CellOf(store, rows, clock, from, key, column) ==
              EntryLeaves(c, channel, key in rows, Cell(rows, key, column), column)
  {
    PlanByEntries(store);
    AfterEntry(store, c, rows, clock, from, column);
    MinimalsArePassive(store, c.id, column);
    HeadStands(rows, UpToContacts(store), Minimals(store), clock, from, Key(Contacts, [c.id]), column);
  }

  /** Nobody but its entry mentions the contact. */
  ghost predicate NotMentioned(store: Store, id: string) {
    && (forall v :: v in store.conversations ==> v.contact != Some(id))
    && (forall m :: m in store.messages ==> m.sender != Some(id))
    && (forall g, m :: g in store.groupMembers && m in g.1 ==> m.contact != id)
  }

  /** A contact that nobody else mentions has its own name, number and time of last contact as well. */
  lemma {:induction false} UnmentionedCells(store: Store, c: Contact, rows: Rows, clock: nat -> Time, from: nat,
                                            column: Column)
    requires OneContact(store, c) && NotMentioned(store, c.id) && !column.UpdatedAt?
    ensures var key := Key(Contacts, [c.id]);
            var channel := ChannelForCompany(store, c.project, c.company);
            CellOf(store, rows, clock, from, key, column) ==
              EntryLeaves(c, channel, key in rows, Cell(rows, key, column), column)
  {
    var channel := ChannelForCompany(store, c.project, c.company);
    EntryLeft(rows, c, channel, column);
    UnmentionedCell(store, c, ContactStatement(c, channel), rows, clock, from, column);
  }

  lemma {:induction false} UnmentionedCell(store: Store, c: Contact, u: Upsert, rows: Rows, clock: nat -> Time,
                                           from: nat, column: Column)
    requires OneContact(store, c) && NotMentioned(store, c.id)
    requires u == StatementOf(EntryCall(store, c)) && (column in u.writes ==> IsTimeless(u.writes[column]))
    ensures CellOf(store, rows, clock, from, u.key, column) == Left(rows, u, column)
  {
    EntryIsAlone(store, c);
    AloneLeft(store, EntryCall(store, c), u, rows, clock, from, column);
  }

  lemma {:induction false} EntryIsAlone(store: Store, c: Contact)
    requires OneContact(store, c) && NotMentioned(store, c.id)
    ensures Alone(store, EntryCall(store, c))
  {
    forall other | Asked(store, other) && RowOf(other) == RowOf(EntryCall(store, c))
      ensures other == EntryCall(store, c)
    {
      assert RowOf(other).id[0] == c.id;
    }
  }

  // Whose name a contact goes by.

  lemma {:induction false} TailSays(rows: Rows, head: seq<Call>, tail: seq<Call>, clock: nat -> Time, from: nat,
                                    key: Key, c: Column, ok: Field -> bool, one: Call)
    requires forall call :: About(tail, key, call) ==> Says(StatementOf(call), c, ok) || Passive(StatementOf(call), c)
    requires About(tail, key, one) && Says(StatementOf(one), c, ok)
    ensures ok(Cell(Pass(rows, Statements(head + tail), clock, from), key, c))
  {
    PassParts(rows, head, tail, clock, from);
    CallsSay(Pass(rows, Statements(head), clock, from), tail, clock, from + |head|, key, c, ok, one);
  }

  lemma {:induction false} TailSilent(rows: Rows, head: seq<Call>, tail: seq<Call>, clock: nat -> Time, from: nat,
                                      key: Key, c: Column)
    requires forall call :: !About(tail, key, call)
    ensures Cell(Pass(rows, Statements(head + tail), clock, from), key, c)
            == Cell(Pass(rows, Statements(head), clock, from), key, c)
  {
    PassParts(rows, head, tail, clock, from);
    CallsPass(Pass(rows, Statements(head), clock, from), tail, clock, from + |head|, key, c);
  }

  function NamedByMember(store: Store, id: string): Field -> bool {
    (f: Field) => exists g, m :: g in store.groupMembers && m in g.1 && m.contact == id && f == Str(m.name)
  }

  function NamedByMessage(store: Store, id: string): Field -> bool {
    (f: Field) => exists m :: m in store.messages && m.sender == Some(id) && f == Str(m.senderName.GetOr(id))
  }

  function NamedByConversation(store: Store, id: string): Field -> bool {
    (f: Field) => exists v :: v in store.conversations && v.contact == Some(id) && f == Str(v.name.GetOr(id))
  }

  predicate IsMemberContact(store: Store, id: string) {
    exists g, m :: g in store.groupMembers && m in g.1 && m.contact == id
  }

  predicate IsSender(store: Store, id: string) {
    exists m :: m in store.messages && m.sender == Some(id)
  }

  predicate IsPartner(store: Store, id: string) {
    exists v :: v in store.conversations && v.contact == Some(id)
  }

  lemma {:induction false} MinimalSays(call: Call, ok: Field -> bool)
    requires call.UpsertMinimalContact? && ok(Str(if call.shown.Some? then call.shown.value else call.id))
    ensures Says(StatementOf(call), DisplayName, ok)
  {
    MinimalWrites(call, DisplayName);
  }

  lemma {:induction false} MembersName(store: Store, id: string)
    ensures forall call :: About(AfterContacts(store), Key(Contacts, [id]), call) ==>
              IsMemberContact(store, id) && Says(StatementOf(call), DisplayName, NamedByMember(store, id))
  {
    forall call | About(AfterContacts(store), Key(Contacts, [id]), call)
      ensures IsMemberContact(store, id) && Says(StatementOf(call), DisplayName, NamedByMember(store, id))
    {
      LateIsMember(store, call, id);
      MinimalSays(call, NamedByMember(store, id));
    }
  }

  lemma {:induction false} LateIsMember(store: Store, call: Call, id: string)
    requires About(AfterContacts(store), Key(Contacts, [id]), call)
    ensures call.UpsertMinimalContact? && IsMemberContact(store, id)
    ensures NamedByMember(store, id)(Str(if call.shown.Some? then call.shown.value else call.id))
  {
    LateAreMembers(store, call);
    assert RowOf(call).id[0] == id;
    var g, m :| g in store.groupMembers && m in g.1 && m.contact == id && call.shown == Some(m.name);
  }

  lemma {:induction false} MemberIsCalled(store: Store, id: string) returns (call: Call)
    requires IsMemberContact(store, id)
    ensures About(AfterContacts(store), Key(Contacts, [id]), call)
  {
    var g, m :| g in store.groupMembers && m in g.1 && m.contact == id;
    var (project, company, channel) := GroupContext(store.conversations, g.0);
    call := UpsertMinimalContact(project, company, channel, id, Some(m.name), m.phone);
    MembersCalled(store, call);
  }

  lemma {:induction false} SendersName(store: Store, id: string)
    ensures var calls := Each(store.messages, SenderOfMessage);
            forall call :: About(calls, Key(Contacts, [id]), call) ==>
              IsSender(store, id) && Says(StatementOf(call), DisplayName, NamedByMessage(store, id))
  {
    var calls := Each(store.messages, SenderOfMessage);
    forall call | About(calls, Key(Contacts, [id]), call)
      ensures IsSender(store, id) && Says(StatementOf(call), DisplayName, NamedByMessage(store, id))
    {
      MiddleAreNames(store, call);
      assert RowOf(call).id[0] == id;
      MinimalSays(call, NamedByMessage(store, id));
    }
  }

  lemma {:induction false} SenderIsCalled(store: Store, id: string) returns (call: Call)
    requires IsSender(store, id)
    ensures About(Each(store.messages, SenderOfMessage), Key(Contacts, [id]), call)
  {
    var m :| m in store.messages && m.sender == Some(id);
    call := SenderOfMessage(m)[0];
    assert call in SenderOfMessage(m);
  }

  lemma {:induction false} PartnersName(store: Store, id: string)
    ensures var calls := Each(store.conversations, ContactOfConversation);
            forall call :: About(calls, Key(Contacts, [id]), call) ==>
              IsPartner(store, id) && Says(StatementOf(call), DisplayName, NamedByConversation(store, id))
  {
    var calls := Each(store.conversations, ContactOfConversation);
    forall call | About(calls, Key(Contacts, [id]), call)
      ensures IsPartner(store, id) && Says(StatementOf(call), DisplayName, NamedByConversation(store, id))
    {
      MiddleAreNames(store, call);
      assert RowOf(call).id[0] == id;
      MinimalSays(call, NamedByConversation(store, id));
    }
  }

  lemma {:induction false} PartnerIsCalled(store: Store, id: string) returns (call: Call)
    requires IsPartner(store, id)
    ensures About(Each(store.conversations, ContactOfConversation), Key(Contacts, [id]), call)
  {
    var v :| v in store.conversations && v.contact == Some(id);
    call := ContactOfConversation(v)[0];
    assert call in ContactOfConversation(v);
  }

  /** A contact goes by the name some group has for it as a member; else by the one some message has for it as the
      sender; else by that of some conversation with it, its own id standing in for a missing name. */
  lemma {:induction false} ContactNames(store: Store, id: string, rows: Rows, clock: nat -> Time, from: nat)
    ensures var name := CellOf(store, rows, clock, from, Key(Contacts, [id]), DisplayName);
            if IsMemberContact(store, id) then NamedByMember(store, id)(name)
            else if IsSender(store, id) then NamedByMessage(store, id)(name)
            else IsPartner(store, id) ==> NamedByConversation(store, id)(name)
  {
    var key := Key(Contacts, [id]);
    var up, late := UpToContacts(store), AfterContacts(store);
    var partners, senders := Each(store.conversations, ContactOfConversation), Each(store.messages, SenderOfMessage);
    PlanByContacts(store);
    MembersName(store, id);
    SendersName(store, id);
    PartnersName(store, id);
    if IsMemberContact(store, id) {
      var one := MemberIsCalled(store, id);
      TailSays(rows, up + partners + senders, late, clock, from, key, DisplayName, NamedByMember(store, id), one);
    } else {
      TailSilent(rows, up + partners + senders, late, clock, from, key, DisplayName);
      if IsSender(store, id) {
        var one := SenderIsCalled(store, id);
        TailSays(rows, up + partners, senders, clock, from, key, DisplayName, NamedByMessage(store, id), one);
      } else {
        TailSilent(rows, up + partners, senders, clock, from, key, DisplayName);
        if IsPartner(store, id) {
          var one := PartnerIsCalled(store, id);
          TailSays(rows, up, partners, clock, from, key, DisplayName, NamedByConversation(store, id), one);
        }
      }
    }
  }
}
