/** What a pass leaves of a group: its own entry, the conversations with it and the loop over its members all write the
    row. */
module GroupCells {
  import opened Wrappers
  import opened Tables
  import opened Upserts
  import opened Relational
  import opened Persisting
  import opened Coverage
  import opened Cells
  import opened Voices

  // ---------------------------------------------------------------------
  // The parts of the plan

  function UpToGroups(store: Store): seq<Call> {
    UpToContacts(store) + Each(store.conversations, ContactOfConversation) + Each(store.messages, SenderOfMessage)
  }

  function AfterGroups(store: Store): seq<Call> {
    RecordCalls(store) + Each(store.callbacks, CallsOfCallback) +
    Each(store.attempts, (a: Record) => [PersistAttempt(a)])
  }

  lemma {:induction false} RegroupFive(a: seq<Call>, b: seq<Call>, c: seq<Call>, d: seq<Call>, e: seq<Call>,
                                       f: seq<Call>, g: seq<Call>)
    ensures a + ((b + c) + d + e + f + g) == a + b + c + d + (e + f + g)
  {
  }

  lemma {:induction false} PlanByGroups(store: Store)
    ensures Plan(store) == UpToGroups(store) + Each(store.groups, g => CallsOfGroup(store, g)) +
                           Each(store.conversations, GroupOfConversation) + GroupMemberCalls(store) + AfterGroups(store)
  {
    PlanByContacts(store);
    RegroupFive(UpToGroups(store), Each(store.groups, g => CallsOfGroup(store, g)),
                Each(store.conversations, GroupOfConversation), GroupMemberCalls(store), RecordCalls(store),
                Each(store.callbacks, CallsOfCallback), Each(store.attempts, (a: Record) => [PersistAttempt(a)]));
  }

  lemma {:induction false} OutsideGroups(store: Store, call: Call)
    requires call in UpToGroups(store) || call in AfterGroups(store)
    ensures !RowOf(call).table.Groups?
  {
    if call in UpToContacts(store) {
      EarlyAreEntries(store, call);
    } else if call in UpToGroups(store) {
      MiddleAreNames(store, call);
    } else if call in Each(store.callbacks, CallsOfCallback) {
      CallbackLoopWrites(store, call);
    } else {
      RecordLoopsWrite(store, call);
    }
  }

  /** What each loop says of a group. */
  lemma {:induction false} GroupLoops(store: Store, call: Call)
    requires RowOf(call).table.Groups?
    ensures call.UpsertGroup?
    ensures call in Each(store.groups, g => CallsOfGroup(store, g)) ==>
              && (call.id, call.group) in store.groups
              && (call.project, call.company, call.channel) == GroupContext(store.conversations, call.id)
    ensures call in Each(store.conversations, GroupOfConversation) ==>
              exists v :: v in store.conversations && OfConversation(v, call)
    ensures call in GroupMemberCalls(store) ==>
              && HasMembers(store, call.id) && call.group == GroupNamed(store.groups, call.id)
              && (call.project, call.company, call.channel) == GroupContext(store.conversations, call.id)
  {
    if call in Each(store.groups, g => CallsOfGroup(store, g)) {
      var g :| g in store.groups && call in CallsOfGroup(store, g);
    }
    if call in Each(store.conversations, GroupOfConversation) {
      var v :| v in store.conversations && call in GroupOfConversation(v);
      assert OfConversation(v, call);
    }
  }

  predicate HasMembers(store: Store, id: string) {
    exists g :: g in store.groupMembers && g.0 == id
  }

  predicate HasConversation(store: Store, id: string) {
    exists v :: v in store.conversations && v.group == Some(id)
  }

  /** The group of a conversation, by the conversation's name and pictures. */
  predicate OfConversation(v: Conversation, call: Call) {
    && call.UpsertGroup? && v.group == Some(call.id) && v.project == call.project && v.company == call.company
    && v.channel == call.channel
    && call.group == Group(Some(call.id), v.name, None, None, None, None, v.avatarUrl, v.pictureUrl, None, None, None)
  }

  // ---------------------------------------------------------------------
  // How the statement writes each column

  function GroupField(group: Group, c: Column): Option<Field> {
    match c
    case Subject => Some(OptStr(group.subject))
    case Description => Some(OptStr(group.description))
    case OwnerJid => Some(OptStr(group.owner))
    case SubjectOwnerJid => Some(OptStr(group.subjectOwner))
    case CreatedAtWa => Some(OptTime(group.createdAt))
    case ProfilePictureMediaId => Some(OptStr(group.pictureMedia))
    case AvatarUrl => Some(OptStr(group.avatarUrl))
    case ProfilePictureUrl => Some(OptStr(group.pictureUrl))
    case MembersCount => Some(OptCount(group.members))
    case AdminsCount => Some(OptCount(group.admins))
    case _ => None
  }

  function GroupColumn(call: Call, c: Column): Option<Write>
    requires call.UpsertGroup?
  {
    match c
    case ProjectId => Some(Once(Str(call.project)))
    case CompanyId => Some(Once(Str(call.company)))
    case ChannelAccountId => Some(Overwrite(Str(call.channel)))
    case WaJid => Some(Overwrite(Str(if call.group.waJid.Some? then call.group.waJid.value else call.id)))
    case UpdatedAt => Some(Clock(0))
    case _ => None
  }

  function GroupWrite(call: Call, c: Column): Option<Write>
    requires call.UpsertGroup?
  {
    if GroupField(call.group, c).Some? then Some(Coalesce(GroupField(call.group, c).value)) else GroupColumn(call, c)
  }

  lemma {:induction false} GroupFieldsAre(group: Group, c: Column)
    ensures var (all, f) := (GroupFields(group), GroupField(group, c));
            (c in all <==> f.Some?) && (f.Some? ==> all[c] == f.value)
  {
    if c in {Subject, Description, OwnerJid, SubjectOwnerJid, CreatedAtWa} {
      GroupTexts(group, c);
    } else {
      GroupPictures(group, c);
    }
  }

  lemma {:induction false} GroupTexts(group: Group, c: Column)
    requires c in {Subject, Description, OwnerJid, SubjectOwnerJid, CreatedAtWa}
    ensures c in GroupFields(group) && GroupField(group, c) == Some(GroupFields(group)[c])
  {
    match c
    case Subject =>
    case Description =>
    case OwnerJid =>
    case SubjectOwnerJid =>
    case _ =>
  }

  lemma {:induction false} GroupPictures(group: Group, c: Column)
    requires !(c in {Subject, Description, OwnerJid, SubjectOwnerJid, CreatedAtWa})
    ensures var (all, f) := (GroupFields(group), GroupField(group, c));
            (c in all <==> f.Some?) && (f.Some? ==> all[c] == f.value)
  {
    match c
    case ProfilePictureMediaId =>
    case AvatarUrl =>
    case ProfilePictureUrl =>
    case MembersCount =>
    case AdminsCount =>
    case _ =>
  }

  lemma {:induction false} GroupColumnsAre(call: Call, c: Column)
    requires call.UpsertGroup?
    ensures var all := GroupColumns(call.id, call.group, call.project, call.company, call.channel);
            var w := GroupColumn(call, c);
            (c in all <==> w.Some?) && (w.Some? ==> all[c] == w.value)
  {
    match c
    case ProjectId =>
    case CompanyId =>
    case ChannelAccountId =>
    case WaJid =>
    case UpdatedAt =>
    case _ =>
  }

  lemma {:induction false} GroupWrites(call: Call, c: Column)
    requires call.UpsertGroup?
    ensures WrittenAs(StatementOf(call), c, GroupWrite(call, c))
  {
    GroupColumnsAre(call, c);
    GroupFieldsAre(call.group, c);
  }

  // ---------------------------------------------------------------------
  // What is left

  /** The group has one entry. */
  predicate OneGroup(store: Store, id: string, group: Group) {
    (id, group) in store.groups && forall g :: g in store.groups && g.0 == id ==> g.1 == group
  }

  lemma {:induction false} NamedIsEntry(groups: seq<(string, Group)>, id: string, group: Group)
    requires (id, group) in groups && forall g :: g in groups && g.0 == id ==> g.1 == group
    ensures GroupNamed(groups, id) == group
  {
    if groups[0].0 != id {
      NamedIsEntry(groups[1..], id, group);
    }
  }

  lemma {:induction false} NamedOrDefault(groups: seq<(string, Group)>, id: string)
    ensures var g := GroupNamed(groups, id);
            (id, g) in groups || g == Group(Some(id), Some(id), None, None, None, None, None, None, None, None, None)
  {
    if groups != [] && groups[0].0 != id {
      NamedOrDefault(groups[1..], id);
    }
  }

  function GroupEntryCall(store: Store, id: string, group: Group): Call {
    CallsOfGroup(store, (id, group))[0]
  }

  /** The columns that only an entry fills. */
  predicate IsOwn(c: Column) {
    c in {Description, OwnerJid, SubjectOwnerJid, CreatedAtWa, ProfilePictureMediaId, MembersCount, AdminsCount}
  }

  /** What the group has to offer for the column. */
  function Offered(group: Group, c: Column): Field {
    if GroupField(group, c).Some? then GroupField(group, c).value else None
  }

  lemma {:induction false} OwnIsField(group: Group, c: Column)
    requires IsOwn(c)
    ensures GroupField(group, c) == Some(Offered(group, c))
  {
  }

  /** A conversation knows none of an entry's own columns. */
  lemma {:induction false} OwnIsMissing(group: Group, c: Column)
    requires IsOwn(c)
    requires group == Group(group.waJid, group.subject, None, None, None, None, group.avatarUrl, group.pictureUrl, None,
                            None, None)
    ensures Offered(group, c) == None
  {
  }

  lemma {:induction false} GroupCallFills(store: Store, id: string, group: Group, call: Call, c: Column)
    requires OneGroup(store, id, group) && IsOwn(c) && call.UpsertGroup? && call.id == id && GroupAsked(store, call)
    ensures Offered(call.group, c) in {None, Offered(group, c)}
  {
    NamedIsEntry(store.groups, id, group);
    if call.group != group {
      OwnIsMissing(call.group, c);
    }
  }

  lemma {:induction false} OneGroupFills(store: Store, id: string, group: Group, call: Call, c: Column)
    requires OneGroup(store, id, group) && IsOwn(c) && call.UpsertGroup? && call.id == id && GroupAsked(store, call)
    ensures Fills(StatementOf(call), c, Offered(group, c))
  {
    GroupCallFills(store, id, group, call, c);
    OwnIsField(call.group, c);
    GroupWrites(call, c);
  }

  lemma {:induction false} AskedForGroup(store: Store, call: Call, id: string)
    requires Asked(store, call) && RowOf(call) == Key(Groups, [id])
    ensures call.UpsertGroup? && call.id == id && GroupAsked(store, call)
  {
    assert RowOf(call).id[0] == id;
  }

  lemma {:induction false} GroupsFill(store: Store, id: string, group: Group, calls: seq<Call>, c: Column)
    requires OneGroup(store, id, group) && IsOwn(c) && forall call :: call in calls ==> Asked(store, call)
    ensures forall call :: About(calls, Key(Groups, [id]), call) ==> Fills(StatementOf(call), c, Offered(group, c))
  {
    forall call | About(calls, Key(Groups, [id]), call) ensures Fills(StatementOf(call), c, Offered(group, c)) {
      AskedForGroup(store, call, id);
      OneGroupFills(store, id, group, call, c);
    }
  }

  lemma {:induction false} GroupEntryFills(store: Store, id: string, group: Group, c: Column)
    requires (id, group) in store.groups && IsOwn(c)
    ensures var one := GroupEntryCall(store, id, group);
            && Asked(store, one) && RowOf(one) == Key(Groups, [id])
            && c in StatementOf(one).writes && StatementOf(one).writes[c] == Coalesce(Offered(group, c))
  {
    var one := GroupEntryCall(store, id, group);
    assert GroupAsked(store, one);
    OwnIsField(group, c);
    GroupWrites(one, c);
  }

  /** What only the entry of a group knows is in its row after a pass, or what was there when the entry does not
      know. */
  lemma {:induction false} GroupOwnCells(store: Store, id: string, group: Group, rows: Rows, clock: nat -> Time,
                                         from: nat, c: Column)
    requires OneGroup(store, id, group) && IsOwn(c)
    ensures var key := Key(Groups, [id]);
            CellOf(store, rows, clock, from, key, c) ==
              if Offered(group, c).Some? then Offered(group, c) else Cell(rows, key, c)
  {
    PlanIsAskedFor(store);
    OwnFilled(store, id, group, Plan(store), rows, clock, from, c);
  }

  lemma {:induction false} OwnFilled(store: Store, id: string, group: Group, calls: seq<Call>, rows: Rows,
                                     clock: nat -> Time, from: nat, c: Column)
    requires OneGroup(store, id, group) && IsOwn(c) && forall call :: call in calls <==> Asked(store, call)
    ensures var key := Key(Groups, [id]);
            Cell(Pass(rows, Statements(calls), clock, from), key, c) ==
              if Offered(group, c).Some? then Offered(group, c) else Cell(rows, key, c)
  {
    GroupsFill(store, id, group, calls, c);
    GroupEntryFills(store, id, group, c);
    CallsFill(rows, calls, clock, from, Key(Groups, [id]), c, Offered(group, c), GroupEntryCall(store, id, group));
  }

  lemma {:induction false} GroupSays(call: Call, c: Column, ok: Field -> bool)
    requires call.UpsertGroup? && (c.WaJid? || c.ChannelAccountId?)
    requires ok(if c.WaJid? then Str(call.group.waJid.GetOr(call.id)) else Str(call.channel))
    ensures Says(StatementOf(call), c, ok)
  {
    GroupWrites(call, c);
  }

  /** The jid and the channel that the loop over the members writes. */
  function MembersSay(store: Store, id: string, c: Column): Field {
    if c.WaJid? then Str(GroupNamed(store.groups, id).waJid.GetOr(id))
    else Str(GroupContext(store.conversations, id).2)
  }

  function ConversationSays(store: Store, id: string, c: Column): Field -> bool {
    (f: Field) => exists v :: v in store.conversations && v.group == Some(id) &&
                              f == if c.WaJid? then Str(id) else Str(v.channel)
  }

  function EntrySays(store: Store, id: string, group: Group, c: Column): Field {
    if c.WaJid? then Str(group.waJid.GetOr(id)) else Str(GroupContext(store.conversations, id).2)
  }

  lemma {:induction false} MembersOfGroupSay(store: Store, id: string, c: Column)
    requires c.WaJid? || c.ChannelAccountId?
    ensures forall call :: About(GroupMemberCalls(store), Key(Groups, [id]), call) ==>
              HasMembers(store, id) && Says(StatementOf(call), c, Is(MembersSay(store, id, c)))
  {
    forall call | About(GroupMemberCalls(store), Key(Groups, [id]), call)
      ensures HasMembers(store, id) && Says(StatementOf(call), c, Is(MembersSay(store, id, c)))
    {
      GroupLoops(store, call);
      assert RowOf(call).id[0] == id;
      GroupSays(call, c, Is(MembersSay(store, id, c)));
    }
  }

  lemma {:induction false} ConversationsOfGroupSay(store: Store, id: string, c: Column)
    requires c.WaJid? || c.ChannelAccountId?
    ensures forall call :: About(Each(store.conversations, GroupOfConversation), Key(Groups, [id]), call) ==>
              HasConversation(store, id) && Says(StatementOf(call), c, ConversationSays(store, id, c))
  {
    forall call | About(Each(store.conversations, GroupOfConversation), Key(Groups, [id]), call)
      ensures HasConversation(store, id) && Says(StatementOf(call), c, ConversationSays(store, id, c))
    {
      ConversationOfGroup(store, call, id, c);
      GroupSays(call, c, ConversationSays(store, id, c));
    }
  }

  lemma {:induction false} ConversationOfGroup(store: Store, call: Call, id: string, c: Column)
    requires About(Each(store.conversations, GroupOfConversation), Key(Groups, [id]), call)
    requires c.WaJid? || c.ChannelAccountId?
    ensures call.UpsertGroup? && HasConversation(store, id)
    ensures var f := if c.WaJid? then Str(call.group.waJid.GetOr(call.id)) else Str(call.channel);
            ConversationSays(store, id, c)(f)
  {
    GroupLoops(store, call);
    assert RowOf(call).id[0] == id;
    var v :| v in store.conversations && OfConversation(v, call);
  }

  lemma {:induction false} EntryOfGroupSays(store: Store, id: string, group: Group, c: Column)
    requires OneGroup(store, id, group) && (c.WaJid? || c.ChannelAccountId?)
    ensures forall call :: About(Each(store.groups, g => CallsOfGroup(store, g)), Key(Groups, [id]), call) ==>
              Says(StatementOf(call), c, Is(EntrySays(store, id, group, c)))
  {
    forall call | About(Each(store.groups, g => CallsOfGroup(store, g)), Key(Groups, [id]), call)
      ensures Says(StatementOf(call), c, Is(EntrySays(store, id, group, c)))
    {
      GroupLoops(store, call);
      assert RowOf(call).id[0] == id;
      assert call.group == group;
      GroupSays(call, c, Is(EntrySays(store, id, group, c)));
    }
  }

  lemma {:induction false} MembersAreCalled(store: Store, id: string) returns (call: Call)
    requires HasMembers(store, id)
    ensures About(GroupMemberCalls(store), Key(Groups, [id]), call)
  {
    var g :| g in store.groupMembers && g.0 == id;
    var (project, company, channel) := GroupContext(store.conversations, id);
    call := UpsertGroup(id, GroupNamed(store.groups, id), project, company, channel);
    MembersCalled(store, call);
  }

  lemma {:induction false} ConversationIsCalled(store: Store, id: string) returns (call: Call)
    requires HasConversation(store, id)
    ensures About(Each(store.conversations, GroupOfConversation), Key(Groups, [id]), call)
  {
    var v :| v in store.conversations && v.group == Some(id);
    call := GroupOfConversation(v)[0];
    assert call in GroupOfConversation(v);
  }

  lemma {:induction false} GroupEntryIsCalled(store: Store, id: string, group: Group)
    requires (id, group) in store.groups
    ensures About(Each(store.groups, g => CallsOfGroup(store, g)), Key(Groups, [id]), GroupEntryCall(store, id, group))
  {
    assert GroupEntryCall(store, id, group) in CallsOfGroup(store, (id, group));
  }

  lemma {:induction false} OthersAreSilent(store: Store, id: string)
    ensures forall call :: !About(AfterGroups(store), Key(Groups, [id]), call)
  {
    forall call ensures !About(AfterGroups(store), Key(Groups, [id]), call) {
      if About(AfterGroups(store), Key(Groups, [id]), call) {
        OutsideGroups(store, call);
      }
    }
  }

  /** A group goes by the jid and stands in the channel that the loop over its members gives it, if it has one; else
      those of some conversation with it; else those of its entry. So a conversation without a member list takes the jid
      of an entry away. */
  lemma {:induction false} GroupJids(store: Store, id: string, rows: Rows, clock: nat -> Time, from: nat, c: Column)
    requires c.WaJid? || c.ChannelAccountId?
    ensures var left := CellOf(store, rows, clock, from, Key(Groups, [id]), c);
            if HasMembers(store, id) then left == MembersSay(store, id, c)
            else if HasConversation(store, id) then ConversationSays(store, id, c)(left)
            else forall group :: OneGroup(store, id, group) ==> left == EntrySays(store, id, group, c)
  {
    var key := Key(Groups, [id]);
    var up, entries := UpToGroups(store), Each(store.groups, g => CallsOfGroup(store, g));
    var talks, members := Each(store.conversations, GroupOfConversation), GroupMemberCalls(store);
    PlanByGroups(store);
    OthersAreSilent(store, id);
    TailSilent(rows, up + entries + talks + members, AfterGroups(store), clock, from, key, c);
    MembersOfGroupSay(store, id, c);
    ConversationsOfGroupSay(store, id, c);
    if HasMembers(store, id) {
      var one := MembersAreCalled(store, id);
      TailSays(rows, up + entries + talks, members, clock, from, key, c, Is(MembersSay(store, id, c)), one);
    } else {
      TailSilent(rows, up + entries + talks, members, clock, from, key, c);
      if HasConversation(store, id) {
        var one := ConversationIsCalled(store, id);
        TailSays(rows, up + entries, talks, clock, from, key, c, ConversationSays(store, id, c), one);
      } else {
        TailSilent(rows, up + entries, talks, clock, from, key, c);
        forall group | OneGroup(store, id, group)
          ensures CellOf(store, rows, clock, from, key, c) == EntrySays(store, id, group, c)
        {
          EntryOfGroupSays(store, id, group, c);
          GroupEntryIsCalled(store, id, group);
          TailSays(rows, up, entries, clock, from, key, c, Is(EntrySays(store, id, group, c)),
                   GroupEntryCall(store, id, group));
        }
      }
    }
  }

  // ---------------------------------------------------------------------
  // The company a group is first written for

  lemma {:induction false} EntryCallsOnly(store: Store, id: string, group: Group)
    requires OneGroup(store, id, group)
    ensures var head := UpToGroups(store) + Each(store.groups, g => CallsOfGroup(store, g));
            var one := GroupEntryCall(store, id, group);
            one in head && forall call :: About(head, Key(Groups, [id]), call) ==> call == one
  {
    var head := UpToGroups(store) + Each(store.groups, g => CallsOfGroup(store, g));
    GroupEntryIsCalled(store, id, group);
    forall call | About(head, Key(Groups, [id]), call) ensures call == GroupEntryCall(store, id, group) {
      if call in UpToGroups(store) {
        OutsideGroups(store, call);
      }
      GroupLoops(store, call);
      assert RowOf(call).id[0] == id;
    }
  }

  function LaterGroups(store: Store): seq<Call> {
    Each(store.conversations, GroupOfConversation) + GroupMemberCalls(store) + AfterGroups(store)
  }

  lemma {:induction false} LaterGroupsInsert(store: Store, id: string, c: Column)
    requires c.ProjectId? || c.CompanyId?
    ensures forall call :: About(LaterGroups(store), Key(Groups, [id]), call) ==> Passive(StatementOf(call), c)
  {
    forall call | About(LaterGroups(store), Key(Groups, [id]), call) ensures Passive(StatementOf(call), c) {
      GroupLoops(store, call);
      GroupWrites(call, c);
    }
  }

  lemma {:induction false} EntryCompanyLeft(rows: Rows, call: Call, c: Column)
    requires call.UpsertGroup? && (c.ProjectId? || c.CompanyId?)
    ensures var u := StatementOf(call);
            && u.key == Key(Groups, [call.id]) && (c in u.writes ==> IsTimeless(u.writes[c]))
            && Left(rows, u, c) == if u.key in rows then Cell(rows, u.key, c)
                                   else Str(if c.ProjectId? then call.project else call.company)
  {
    StatementsAreAboutRows(call);
    GroupWrites(call, c);
    WriteLeft(rows, StatementOf(call), c, GroupWrite(call, c));
  }

  /** A group with an entry stays with the company of its first conversation, or the default one, as it was when its row
      was inserted. */
  lemma {:induction false} GroupCompanies(store: Store, id: string, group: Group, rows: Rows, clock: nat -> Time,
                                          from: nat, c: Column)
    requires OneGroup(store, id, group) && (c.ProjectId? || c.CompanyId?)
    ensures var key, context := Key(Groups, [id]), GroupContext(store.conversations, id);
            CellOf(store, rows, clock, from, key, c) ==
              if key in rows then Cell(rows, key, c) else Str(if c.ProjectId? then context.0 else context.1)
  {
    var key, context := Key(Groups, [id]), GroupContext(store.conversations, id);
    var head := UpToGroups(store) + Each(store.groups, g => CallsOfGroup(store, g));
    var one := GroupEntryCall(store, id, group);
    PlanByGroups(store);
    RegroupThree(head, Each(store.conversations, GroupOfConversation), GroupMemberCalls(store), AfterGroups(store));
    EntryCallsOnly(store, id, group);
    EntryCompanyLeft(rows, one, c);
    OneLeaves(rows, head, clock, from, key, one, StatementOf(one), c,
              if key in rows then Cell(rows, key, c) else Str(if c.ProjectId? then context.0 else context.1));
    LaterGroupsInsert(store, id, c);
    HeadStands(rows, head, LaterGroups(store), clock, from, key, c);
  }
}
