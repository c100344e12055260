/** What one pass of persist_relational leaves in the tables, and what a second pass still moves. */
module Persisting {
  import opened Wrappers
  import opened Tables
  import opened Upserts
  import opened Relational

  // ---------------------------------------------------------------------
  // Where the statements on projects and channels come from

  /** Something other than its own entry refers to the project. */
  predicate MentionsProject(store: Store, p: string) {
    || (exists c :: c in store.companies && c.project == p)
    || (exists c :: c in store.channels && ValueStr(c.project).GetOr("default") == p)
    || (exists c :: c in store.conversations && c.project == p)
    || (exists m :: m in store.messages && m.project == p)
    || (exists m :: m in store.media && m.project == p)
    || (exists t :: t in store.transcripts && t.project == p)
    || (exists d :: d in store.dirty && d.project == p)
    || (exists s :: s in store.consumerState && s.project == p)
    || (exists k :: k in store.idempotency && k.project == p)
    || (exists c :: c in store.callbacks && ValueStr(c.project).GetOr("default") == p)
  }

  /** A conversation, a message or a contact uses the channel. */
  predicate UsesChannel(store: Store, id: string) {
    || (exists c :: c in store.conversations && c.channel == id)
    || (exists m :: m in store.messages && m.channel == id)
    || (exists c :: c in store.contacts && ChannelForCompany(store, c.project, c.company) == id)
  }

  function Mention(p: string): Call { UpsertProject(p, p, "active") }

  lemma ProjectMentionsAreReasons(store: Store, p: string)
    ensures Some(p) in ProjectMentions(store) ==> MentionsProject(store, p)
    ensures MentionsProject(store, p) ==>
              || Some(p) in ProjectMentions(store)
              || (exists c :: c in store.channels && ValueStr(c.project).GetOr("default") == p)
              || (exists c :: c in store.callbacks && ValueStr(c.project).GetOr("default") == p)
  {
  }

  predicate WritesOther(call: Call) {
    !call.UpsertProject? && !call.UpsertChannel?
  }

  lemma GroupsWriteOther(store: Store, call: Call)
    requires call in GroupCalls(store)
    ensures WritesOther(call)
  {
  }

  lemma GroupMembersWriteOther(store: Store, call: Call)
    requires call in GroupMemberCalls(store)
    ensures WritesOther(call)
  {
  }

  lemma RecordsWriteOther(store: Store, call: Call)
    requires call in RecordCalls(store)
    ensures WritesOther(call)
  {
  }

  lemma MinimalContactsWriteOther(store: Store, call: Call)
    requires call in Each(store.conversations, ContactOfConversation) + Each(store.messages, SenderOfMessage)
    ensures WritesOther(call)
  {
  }

  lemma RemainingCallsWriteOther(store: Store, call: Call)
    requires call in RemainingCalls(store)
    ensures WritesOther(call)
  {
    if call in GroupCalls(store) {
      GroupsWriteOther(store, call);
    } else if call in GroupMemberCalls(store) {
      GroupMembersWriteOther(store, call);
    } else if call in RecordCalls(store) {
      RecordsWriteOther(store, call);
    } else {
      MinimalContactsWriteOther(store, call);
    }
  }

  lemma EachMention(ids: seq<Option<string>>, call: Call)
    requires call in Each(ids, MentionProject)
    ensures call.UpsertProject? && call == Mention(call.id) && Some(call.id) in ids
  {
    var id :| id in ids && call in MentionProject(id);
  }

  lemma ProjectLoopsMention(store: Store, call: Call)
    requires call in Each(ProjectMentions(store), MentionProject)
    ensures call.UpsertProject? && call == Mention(call.id) && MentionsProject(store, call.id)
  {
    EachMention(ProjectMentions(store), call);
    ProjectMentionsAreReasons(store, call.id);
  }

  lemma ConfiguredChannelsMention(store: Store, call: Call)
    requires call in Each(store.channels, ConfiguredChannel) && call.UpsertProject?
    ensures call == Mention(call.id) && MentionsProject(store, call.id)
  {
    var c :| c in store.channels && call in ConfiguredChannel(c);
  }

  lemma CallbacksMention(store: Store, call: Call)
    requires call in Each(store.callbacks, CallsOfCallback)
    ensures !call.UpsertChannel?
    ensures call.UpsertProject? ==> call == Mention(call.id) && MentionsProject(store, call.id)
  {
    var c :| c in store.callbacks && call in CallsOfCallback(c);
  }

  lemma ContactCallsUse(store: Store, call: Call)
    requires call in Each(store.contacts, c => CallsOfContact(store, c))
    ensures !call.UpsertProject?
    ensures call.UpsertChannel? ==> UsesChannel(store, call.id) && IsUse(store, call)
  {
    var c :| c in store.contacts && call in CallsOfContact(store, c);
  }

  lemma MentionedChannelsUse(store: Store, call: Call)
    requires call in Each(ChannelMentions(store), at => MentionChannel(store, at))
    ensures call.UpsertChannel? && UsesChannel(store, call.id) && IsUse(store, call)
  {
    var at :| at in ChannelMentions(store) && call in MentionChannel(store, at);
  }

  predicate IsUse(store: Store, call: Call) {
    && call.UpsertChannel? && call.labelled == Some("WhatsApp")
    && call.status == ChannelStatus(store, call.id) && call.connectedAt == ChannelConnectedAt(store, call.id)
  }

  /** Whatever writes a project or a channel after the configured ones does so for a reason: a mention or a use. */
  lemma AfterChannelsHasReasons(store: Store, call: Call)
    requires call in AfterChannels(store)
    ensures call.UpsertProject? ==> call == Mention(call.id) && MentionsProject(store, call.id)
    ensures call.UpsertChannel? ==> UsesChannel(store, call.id) && IsUse(store, call)
  {
    if call in RemainingCalls(store) {
      RemainingCallsWriteOther(store, call);
    } else if call in Each(store.callbacks, CallsOfCallback) {
      CallbacksMention(store, call);
    } else if call in Each(store.contacts, c => CallsOfContact(store, c)) {
      ContactCallsUse(store, call);
    } else if call in Each(ChannelMentions(store), at => MentionChannel(store, at)) {
      MentionedChannelsUse(store, call);
    }
  }

  lemma CompaniesWriteOther(store: Store, call: Call)
    requires call in CompanyCalls(store)
    ensures WritesOther(call)
  {
  }

  /** Whatever writes a project after the configured ones mentions it, and for a reason. */
  lemma ProjectsAreMentioned(store: Store, call: Call)
    requires call in AfterProjects(store) && call.UpsertProject?
    ensures call == Mention(call.id) && MentionsProject(store, call.id)
  {
    if call in AfterChannels(store) {
      AfterChannelsHasReasons(store, call);
    } else if call in CompanyCalls(store) {
      CompaniesWriteOther(store, call);
    } else if call in Each(store.channels, ConfiguredChannel) {
      ConfiguredChannelsMention(store, call);
    } else {
      ProjectLoopsMention(store, call);
    }
  }

  lemma ReasonsAreMentioned(store: Store, p: string)
    requires MentionsProject(store, p)
    ensures Mention(p) in AfterProjects(store)
  {
    ProjectMentionsAreReasons(store, p);
    if Some(p) in ProjectMentions(store) {
      assert Mention(p) in MentionProject(Some(p));
    } else if c :| c in store.channels && ValueStr(c.project).GetOr("default") == p {
      assert Mention(p) in ConfiguredChannel(c);
    } else {
      var c :| c in store.callbacks && ValueStr(c.project).GetOr("default") == p;
      assert Mention(p) in CallsOfCallback(c);
      assert Mention(p) in AfterChannels(store);
    }
  }

  lemma UsesAreCalled(store: Store, id: string) returns (call: Call)
    requires UsesChannel(store, id)
    ensures call in AfterChannels(store) && call.UpsertChannel? && call.id == id
  {
    if c :| c in store.contacts && ChannelForCompany(store, c.project, c.company) == id {
      call := MentionChannel(store, (id, c.project, c.company))[0];
      assert call in CallsOfContact(store, c);
    } else if c :| c in store.conversations && c.channel == id {
      call := MentionChannel(store, (id, c.project, c.company))[0];
      assert (id, c.project, c.company) in ChannelMentions(store);
    } else {
      var m :| m in store.messages && m.channel == id;
      call := MentionChannel(store, (id, m.project, m.company))[0];
      assert (id, m.project, m.company) in ChannelMentions(store);
    }
  }

  // ---------------------------------------------------------------------
  // Calls as statements

  lemma KeysTell(call: Call)
    ensures StatementOf(call).key.table.Projects? <==> call.UpsertProject?
    ensures StatementOf(call).key.table.ChannelAccounts? <==> call.UpsertChannel?
    ensures call.UpsertProject? ==> StatementOf(call).key == ProjectKey(call.id)
    ensures call.UpsertChannel? ==> StatementOf(call).key == ChannelKey(call.id)
  {
  }

  lemma StatementsAppend(a: seq<Call>, b: seq<Call>)
    ensures Statements(a + b) == Statements(a) + Statements(b)
  {
  }

  /** A plan touches a row exactly when one of its calls is about it. */
  lemma TouchesByCall(calls: seq<Call>, key: Key)
    ensures Touches(Statements(calls), key) <==> exists c :: c in calls && StatementOf(c).key == key
  {
    var plan := Statements(calls);
    if Touches(plan, key) {
      var i :| 0 <= i < |plan| && plan[i].key == key;
      assert calls[i] in calls && StatementOf(calls[i]).key == key;
    }
    if c :| c in calls && StatementOf(c).key == key {
      var i :| 0 <= i < |calls| && calls[i] == c;
      assert plan[i].key == key;
    }
  }

  // ---------------------------------------------------------------------
  // Names and labels

  /** The map's keys are distinct. */
  predicate DistinctProjects(projects: seq<ProjectEntry>) {
    forall i, j :: 0 <= i < j < |projects| ==> projects[i].id != projects[j].id
  }

  predicate DistinctChannels(channels: seq<ChannelEntry>) {
    forall i, j :: 0 <= i < j < |channels| ==> channels[i].id != channels[j].id
  }

  lemma NameOfMentioned(store: Store, present: bool, p: string)
    ensures Net(Statements(Plan(store)), present, ProjectKey(p), Name) ==
            if MentionsProject(store, p) then Put(Str(p))
            else Net(Statements(Each(store.projects, ConfiguredProject)), present, ProjectKey(p), Name)
  {
    var head, tail := Each(store.projects, ConfiguredProject), AfterProjects(store);
    var key := ProjectKey(p);
    StatementsAppend(head, tail);
    forall i | 0 <= i < |tail| && Statements(tail)[i].key == key
      ensures Sets(Statements(tail)[i], Name, Words(p))
    {
      KeysTell(tail[i]);
      ProjectsAreMentioned(store, tail[i]);
    }
    LastWordStands(Statements(head), Statements(tail), present, key, Name, Words(p));
    TouchesByCall(tail, key);
    if MentionsProject(store, p) {
      ReasonsAreMentioned(store, p);
    } else if Touches(Statements(tail), key) {
      var c :| c in tail && StatementOf(c).key == key;
      KeysTell(c);
      ProjectsAreMentioned(store, c);
    }
  }

  lemma ConfiguredProjectCalls(projects: seq<ProjectEntry>, call: Call)
    requires call in Each(projects, ConfiguredProject)
    ensures call.UpsertProject? && StatementOf(call).key == ProjectKey(call.id)
    ensures exists e :: e in projects && e.id == call.id && call.name == ValueStr(e.name).GetOr(e.id)
  {
    var e :| e in projects && call in ConfiguredProject(e);
    KeysTell(call);
  }

  lemma NameOfConfigured(projects: seq<ProjectEntry>, present: bool, e: ProjectEntry)
    requires DistinctProjects(projects) && e in projects
    ensures Net(Statements(Each(projects, ConfiguredProject)), present, ProjectKey(e.id), Name) ==
            Put(Str(ValueStr(e.name).GetOr(e.id)))
  {
    var calls := Each(projects, ConfiguredProject);
    var plan, key, name := Statements(calls), ProjectKey(e.id), Words(ValueStr(e.name).GetOr(e.id));
    forall i | 0 <= i < |plan| && plan[i].key == key
      ensures Sets(plan[i], Name, name)
    {
      assert plan[i] == StatementOf(calls[i]);
      ConfiguredProjectCalls(projects, calls[i]);
    }
    LastWordStands([], plan, present, key, Name, name);
    assert [] + plan == plan;
    var call := ConfiguredProject(e)[0];
    assert call in calls;
    KeysTell(call);
    TouchesByCall(calls, key);
  }

  lemma NameOfUnconfigured(projects: seq<ProjectEntry>, present: bool, p: string)
    requires forall e :: e in projects ==> e.id != p
    ensures Net(Statements(Each(projects, ConfiguredProject)), present, ProjectKey(p), Name) == Keep
  {
    var calls, key := Each(projects, ConfiguredProject), ProjectKey(p);
    TouchesByCall(calls, key);
    if Touches(Statements(calls), key) {
      var c :| c in calls && StatementOf(c).key == key;
      ConfiguredProjectCalls(projects, c);
    }
    UntouchedIsKept(Statements(calls), present, key, Name);
  }

  /** The name a pass leaves a project: its own id if anything mentions the project; else the configured name, or the
      id when there is none; else what it was. So a configured name lasts exactly as long as nothing uses the project
      or the name is the id. */
  lemma ProjectNames(store: Store, rows: Rows, clock: nat -> Time, from: nat, p: string)
    requires DistinctProjects(store.projects)
    ensures var name := Cell(Pass(rows, Statements(Plan(store)), clock, from), ProjectKey(p), Name);
            if MentionsProject(store, p) then name == Str(p)
            else
              && (forall e :: e in store.projects && e.id == p ==> name == Str(ValueStr(e.name).GetOr(p)))
              && ((forall e :: e in store.projects ==> e.id != p) ==> name == Cell(rows, ProjectKey(p), Name))
  {
    var key := ProjectKey(p);
    NetIsExact(rows, Statements(Plan(store)), clock, from, key, Name);
    NameOfMentioned(store, key in rows, p);
    if e :| e in store.projects && e.id == p {
      NameOfConfigured(store.projects, key in rows, e);
      assert forall other :: other in store.projects && other.id == p ==> other == e;
    } else {
      NameOfUnconfigured(store.projects, key in rows, p);
    }
  }

  // ---------------------------------------------------------------------
  // Channels

  lemma {:induction false} EachAppend<T>(a: seq<T>, b: seq<T>, body: T -> seq<Call>)
    ensures Each(a + b, body) == Each(a, body) + Each(b, body)
  {
    if a == [] {
      assert a + b == b;
    } else {
      assert (a + b)[1..] == a[1..] + b;
      EachAppend(a[1..], b, body);
    }
  }

  function BeforeChannels(store: Store): seq<Call> {
    Each(store.projects, ConfiguredProject) + Each(ProjectMentions(store), MentionProject) + CompanyCalls(store)
  }

  lemma PlanByChannels(store: Store)
    ensures Plan(store) == BeforeChannels(store) + Each(store.channels, ConfiguredChannel) + AfterChannels(store)
  {
    RegroupFive(Each(store.projects, ConfiguredProject), Each(ProjectMentions(store), MentionProject),
                CompanyCalls(store), Each(store.channels, ConfiguredChannel), AfterChannels(store));
  }

  lemma RegroupFive(a: seq<Call>, b: seq<Call>, c: seq<Call>, d: seq<Call>, e: seq<Call>)
    ensures a + (b + c + d + e) == (a + b + c) + d + e
  {
  }

  lemma BeforeChannelsWritesNone(store: Store, call: Call)
    requires call in BeforeChannels(store)
    ensures !call.UpsertChannel?
  {
    if call in Each(store.projects, ConfiguredProject) {
      ConfiguredProjectCalls(store.projects, call);
    } else if call in CompanyCalls(store) {
      CompaniesWriteOther(store, call);
    } else {
      ProjectLoopsMention(store, call);
    }
  }

  lemma ConfiguredChannelCalls(channels: seq<ChannelEntry>, call: Call)
    requires call in Each(channels, ConfiguredChannel) && call.UpsertChannel?
    ensures exists e :: e in channels && e.id == call.id
  {
    var e :| e in channels && call in ConfiguredChannel(e);
  }

  lemma NoCallNoTouch(calls: seq<Call>, id: string)
    requires forall c :: c in calls && c.UpsertChannel? ==> c.id != id
    ensures !Touches(Statements(calls), ChannelKey(id))
  {
    TouchesByCall(calls, ChannelKey(id));
    if Touches(Statements(calls), ChannelKey(id)) {
      var c :| c in calls && StatementOf(c).key == ChannelKey(id);
      KeysTell(c);
    }
  }

  lemma {:induction false} IndexOf(channels: seq<ChannelEntry>, id: string) returns (i: nat)
    requires ChannelNamed(channels, id).Some?
    ensures i < |channels| && channels[i].id == id && channels[i] == ChannelNamed(channels, id).value
  {
    if channels[0].id == id {
      i := 0;
    } else {
      i := IndexOf(channels[1..], id);
      i := i + 1;
    }
  }

  lemma {:induction false} Unnamed(channels: seq<ChannelEntry>, id: string)
    requires ChannelNamed(channels, id).None?
    ensures forall e :: e in channels ==> e.id != id
  {
    if channels != [] {
      Unnamed(channels[1..], id);
    }
  }

  predicate NoneOn(calls: seq<Call>, id: string) {
    forall c :: c in calls && c.UpsertChannel? ==> c.id != id
  }

  lemma NoneOnOthers(channels: seq<ChannelEntry>, id: string)
    requires forall e :: e in channels ==> e.id != id
    ensures NoneOn(Each(channels, ConfiguredChannel), id)
  {
    forall c | c in Each(channels, ConfiguredChannel) && c.UpsertChannel? ensures c.id != id {
      ConfiguredChannelCalls(channels, c);
    }
  }

  function ChannelCall(e: ChannelEntry): Call {
    ConfiguredChannel(e)[2]
  }

  predicate IsCallOf(e: ChannelEntry, call: Call) {
    && call.UpsertChannel? && call.id == e.id && call.labelled == ValueStr(e.name)
    && call.status == ValueStr(e.status).GetOr("disconnected") && call.connectedAt == e.connectedAt
  }

  lemma CallsOfEntry(e: ChannelEntry)
    ensures |ConfiguredChannel(e)| == 3 && IsCallOf(e, ChannelCall(e))
    ensures forall c :: c in ConfiguredChannel(e)[..2] ==> !c.UpsertChannel?
  {
  }

  lemma NoneOnAppend(a: seq<Call>, b: seq<Call>, id: string)
    requires NoneOn(a, id) && NoneOn(b, id)
    ensures NoneOn(a + b, id)
  {
  }

  lemma NoneBeforeChannels(store: Store, id: string)
    ensures NoneOn(BeforeChannels(store), id)
  {
    forall c | c in BeforeChannels(store) ensures !c.UpsertChannel? {
      BeforeChannelsWritesNone(store, c);
    }
  }

  /** An entry's channel is written by one of the configured calls and no other. */
  lemma ConfiguredOnce(channels: seq<ChannelEntry>, id: string) returns (call: Call, head: seq<Call>, rest: seq<Call>)
    requires DistinctChannels(channels) && ChannelNamed(channels, id).Some?
    ensures IsCallOf(ChannelNamed(channels, id).value, call) && call.id == id
    ensures Each(channels, ConfiguredChannel) == head + [call] + rest
    ensures NoneOn(head, id) && NoneOn(rest, id)
  {
    var i := IndexOf(channels, id);
    assert channels == channels[..i] + [channels[i]] + channels[i + 1..];
    call, head, rest := OneEntry(channels[..i], channels[i], channels[i + 1..]);
  }

  lemma OneEntry(before: seq<ChannelEntry>, e: ChannelEntry, after: seq<ChannelEntry>)
    returns (call: Call, head: seq<Call>, rest: seq<Call>)
    requires (forall x :: x in before ==> x.id != e.id) && forall x :: x in after ==> x.id != e.id
    ensures IsCallOf(e, call) && NoneOn(head, e.id) && NoneOn(rest, e.id)
    ensures Each(before + [e] + after, ConfiguredChannel) == head + [call] + rest
  {
    call := ChannelCall(e);
    NoneOnOthers(before, e.id);
    NoneOnOthers(after, e.id);
    CallsOfEntry(e);
    var mentions := ConfiguredChannel(e)[..2];
    head, rest := Each(before, ConfiguredChannel) + mentions, Each(after, ConfiguredChannel);
    NoneOnAppend(Each(before, ConfiguredChannel), mentions, e.id);
    EachSplit(before, e, after, ConfiguredChannel);
    assert ConfiguredChannel(e) == mentions + [call];
  }

  lemma EachSplit<T>(before: seq<T>, x: T, after: seq<T>, body: T -> seq<Call>)
    ensures Each(before + [x] + after, body) == Each(before, body) + body(x) + Each(after, body)
  {
    EachAppend(before + [x], after, body);
    EachAppend(before, [x], body);
  }

  /** The calls up to the configured channels. */
  function Configured(store: Store): seq<Call> {
    BeforeChannels(store) + Each(store.channels, ConfiguredChannel)
  }

  /** A channel without an entry is not touched up to there. */
  lemma NetWithoutEntry(store: Store, id: string)
    requires ChannelNamed(store.channels, id).None?
    ensures !Touches(Statements(Configured(store)), ChannelKey(id))
  {
    Unnamed(store.channels, id);
    NoneOnOthers(store.channels, id);
    NoneBeforeChannels(store, id);
    NoneOnAppend(BeforeChannels(store), Each(store.channels, ConfiguredChannel), id);
    NoCallNoTouch(Configured(store), id);
  }

  /** A channel with an entry is written up to there by its own call alone. */
  lemma NetOfEntry(store: Store, id: string, present: bool, column: Column) returns (call: Call)
    requires DistinctChannels(store.channels) && ChannelNamed(store.channels, id).Some? && !column.UpdatedAt?
    ensures IsCallOf(ChannelNamed(store.channels, id).value, call)
    ensures Touches(Statements(Configured(store)), ChannelKey(id))
    ensures Net(Statements(Configured(store)), present, ChannelKey(id), column) == EffectOfCall(call, present, column)
  {
    NoneBeforeChannels(store, id);
    call := NetAfterNone(BeforeChannels(store), store.channels, id, present, column);
  }

  lemma NetAfterNone(before: seq<Call>, channels: seq<ChannelEntry>, id: string, present: bool, column: Column)
    returns (call: Call)
    requires DistinctChannels(channels) && ChannelNamed(channels, id).Some? && !column.UpdatedAt? && NoneOn(before, id)
    ensures IsCallOf(ChannelNamed(channels, id).value, call)
    ensures var plan := Statements(before + Each(channels, ConfiguredChannel));
            Touches(plan, ChannelKey(id)) &&
              Net(plan, present, ChannelKey(id), column) == EffectOfCall(call, present, column)
  {
    var head, rest;
    call, head, rest := ConfiguredOnce(channels, id);
    NoneOnAppend(before, head, id);
    Regroup(before, head, [call], rest);
    NetOfOne(before + head, call, rest, present, column);
  }

  lemma Regroup(a: seq<Call>, b: seq<Call>, c: seq<Call>, d: seq<Call>)
    ensures a + (b + c + d) == a + b + c + d
  {
  }

  function EffectOfCall(call: Call, present: bool, column: Column): Effect {
    if present then OnConflict(StatementOf(call), column, 0) else OnInsert(StatementOf(call), column, 0)
  }

  /** Calls of which only one is on a channel do to it what that one does. */
  lemma NetOfOne(head: seq<Call>, call: Call, rest: seq<Call>, present: bool, column: Column)
    requires call.UpsertChannel? && NoneOn(head, call.id) && NoneOn(rest, call.id) && !column.UpdatedAt?
    ensures var plan, key := Statements(head + [call] + rest), ChannelKey(call.id);
            && Touches(plan, key)
            && Net(plan, present, key, column) == EffectOfCall(call, present, column)
  {
    var key, u := ChannelKey(call.id), StatementOf(call);
    var plan := Statements(head + [call] + rest);
    KeysTell(call);
    NoCallNoTouch(head, call.id);
    NoCallNoTouch(rest, call.id);
    StatementsAppend(head + [call], rest);
    assert Statements(head + [call]) == Statements(head) + [u];
    OnlyStatement(Statements(head), u, present, column);
    UntouchedTail(Statements(head) + [u], Statements(rest), present, key, column);
    assert plan[|head|] == u;
    StatementsAreWritten(u, key, column, |head|);
  }

  lemma StatementsAreWritten(u: Statement, key: Key, column: Column, i: nat)
    requires u.key == key && !IsClock(key, column) && !IsFirstContact(key, column)
    ensures OnConflict(u, column, i) == OnConflict(u, column, 0) && OnInsert(u, column, i) == OnInsert(u, column, 0)
  {
  }

  lemma {:induction false} UntouchedTail(head: seq<Upsert>, tail: seq<Upsert>, present: bool, key: Key, column: Column)
    requires !Touches(tail, key)
    ensures Net(head + tail, present, key, column) == Net(head, present, key, column)
  {
    if tail == [] {
      assert head + tail == head;
    } else {
      var last := |tail| - 1;
      assert (head + tail)[..|head + tail| - 1] == head + tail[..last];
      TouchesSnoc(tail, key);
      UntouchedTail(head, tail[..last], present, key, column);
    }
  }

  /** The label a pass leaves a channel: WhatsApp if a conversation, a message or a contact uses it; else the label of
      its entry; else what it was. */
  lemma ChannelLabels(store: Store, rows: Rows, clock: nat -> Time, from: nat, id: string)
    requires DistinctChannels(store.channels)
    ensures var shown := Cell(Pass(rows, Statements(Plan(store)), clock, from), ChannelKey(id), Label);
            var entry := ChannelNamed(store.channels, id);
            shown ==
              if UsesChannel(store, id) then Str("WhatsApp")
              else if entry.Some? && ValueStr(entry.value.name).Some? then OptStr(ValueStr(entry.value.name))
              else Cell(rows, ChannelKey(id), Label)
  {
    var key, present := ChannelKey(id), ChannelKey(id) in rows;
    NetIsExact(rows, Statements(Plan(store)), clock, from, key, Label);
    LabelOfUsed(store, present, id);
    if ChannelNamed(store.channels, id).None? {
      NetWithoutEntry(store, id);
      UntouchedIsKept(Statements(Configured(store)), present, key, Label);
    } else {
      var call := NetOfEntry(store, id, present, Label);
      LabelOfCall(call, present);
    }
  }

  lemma LabelOfCall(call: Call, present: bool)
    requires call.UpsertChannel?
    ensures EffectOfCall(call, present, Label) == if present && call.labelled.None? then Keep
            else Put(OptStr(call.labelled))
  {
  }

  lemma LabelOfUsed(store: Store, present: bool, id: string)
    ensures Net(Statements(Plan(store)), present, ChannelKey(id), Label) ==
            if UsesChannel(store, id) then Put(Str("WhatsApp"))
            else Net(Statements(Configured(store)), present, ChannelKey(id), Label)
  {
    var head, tail, key := Configured(store), AfterChannels(store), ChannelKey(id);
    PlanByChannels(store);
    StatementsAppend(head, tail);
    forall i | 0 <= i < |tail| && Statements(tail)[i].key == key
      ensures Sets(Statements(tail)[i], Label, Words("WhatsApp"))
    {
      LabelOfMention(store, tail[i], id);
    }
    LastWordStands(Statements(head), Statements(tail), present, key, Label, Words("WhatsApp"));
    TailTouchesUsed(store, id);
  }

  lemma LabelOfMention(store: Store, call: Call, id: string)
    requires call in AfterChannels(store) && StatementOf(call).key == ChannelKey(id)
    ensures Sets(StatementOf(call), Label, Words("WhatsApp"))
  {
    KeysTell(call);
    AfterChannelsHasReasons(store, call);
  }

  lemma TimeOfMention(store: Store, call: Call, id: string)
    requires call in AfterChannels(store) && StatementOf(call).key == ChannelKey(id)
    ensures var u := StatementOf(call);
            && ConnectedAt in u.writes
            && u.writes[ConnectedAt] == Connected(ChannelStatus(store, id), OptTime(ChannelConnectedAt(store, id)))
  {
    KeysTell(call);
    AfterChannelsHasReasons(store, call);
  }

  lemma TailTouchesUsed(store: Store, id: string)
    ensures Touches(Statements(AfterChannels(store)), ChannelKey(id)) <==> UsesChannel(store, id)
  {
    var tail, key := AfterChannels(store), ChannelKey(id);
    TouchesByCall(tail, key);
    if UsesChannel(store, id) {
      var call := UsesAreCalled(store, id);
      KeysTell(call);
    } else if Touches(Statements(tail), key) {
      var c :| c in tail && StatementOf(c).key == key;
      KeysTell(c);
      AfterChannelsHasReasons(store, c);
    }
  }

  // ---------------------------------------------------------------------
  // connected_at

  /** What CASE status = 'connected' .. ELSE NULL does. */
  function Connection(status: string, at: Field): Effect {
    if status != "connected" then Put(None) else if at.Some? then Put(at) else Keep
  }

  lemma {:induction false} TailConnects(head: seq<Upsert>, tail: seq<Upsert>, present: bool, key: Key, status: string,
                                        at: Field)
    requires forall i :: 0 <= i < |tail| && tail[i].key == key ==>
               ConnectedAt in tail[i].writes && tail[i].writes[ConnectedAt] == Connected(status, at)
    ensures var net := Net(head + tail, present, key, ConnectedAt);
            if !Touches(tail, key) then net == Net(head, present, key, ConnectedAt)
            else if present || Touches(head, key) then
              net == Then(Net(head, present, key, ConnectedAt), Connection(status, at))
            else at.None? ==> net == Put(None)
  {
    if tail == [] {
      assert head + tail == head;
    } else {
      var last := |tail| - 1;
      assert (head + tail)[..|head + tail| - 1] == head + tail[..last];
      TailConnects(head, tail[..last], present, key, status, at);
      TouchesSnoc(tail, key);
      TouchesAppend(head, tail[..last], key);
    }
  }

  lemma TouchesAppend(a: seq<Upsert>, b: seq<Upsert>, key: Key)
    ensures Touches(a + b, key) <==> Touches(a, key) || Touches(b, key)
  {
    if Touches(a, key) {
      var i :| 0 <= i < |a| && a[i].key == key;
      assert (a + b)[i].key == key;
    }
    if Touches(b, key) {
      var i :| 0 <= i < |b| && b[i].key == key;
      assert (a + b)[|a| + i].key == key;
    }
  }

  lemma TimeOfUsed(store: Store, present: bool, id: string)
    ensures var net := Net(Statements(Plan(store)), present, ChannelKey(id), ConnectedAt);
            var before := Net(Statements(Configured(store)), present, ChannelKey(id), ConnectedAt);
            var at := OptTime(ChannelConnectedAt(store, id));
            if !UsesChannel(store, id) then net == before
            else if present || Touches(Statements(Configured(store)), ChannelKey(id)) then
              net == Then(before, Connection(ChannelStatus(store, id), at))
            else at.None? ==> net == Put(None)
  {
    var head, tail, key := Configured(store), AfterChannels(store), ChannelKey(id);
    var status, at := ChannelStatus(store, id), OptTime(ChannelConnectedAt(store, id));
    PlanByChannels(store);
    StatementsAppend(head, tail);
    forall i | 0 <= i < |tail| && Statements(tail)[i].key == key
      ensures ConnectedAt in Statements(tail)[i].writes &&
              Statements(tail)[i].writes[ConnectedAt] == Connected(status, at)
    {
      TimeOfMention(store, tail[i], id);
    }
    TailConnects(Statements(head), Statements(tail), present, key, status, at);
    TailTouchesUsed(store, id);
  }

  lemma TimeOfCall(call: Call, present: bool)
    requires call.UpsertChannel?
    ensures var at := OptTime(call.connectedAt);
            EffectOfCall(call, present, ConnectedAt) == if present then Connection(call.status, at) else Put(at)
  {
  }

  /** The one column a second pass may still move besides the clock columns, and exactly when: a channel that the first
      pass inserted with a connection time although it is not connected, and that nothing uses. */
  lemma ConnectedAtMoves(store: Store, rows: Rows, clock: nat -> Time, first: nat, second: nat, id: string)
    requires DistinctChannels(store.channels)
    ensures var plan := Statements(Plan(store));
            var once := Pass(rows, plan, clock, first);
            var twice := Pass(once, plan, clock, second);
            Cell(twice, ChannelKey(id), ConnectedAt) != Cell(once, ChannelKey(id), ConnectedAt) <==>
            && ChannelKey(id) !in rows
            && ChannelConnectedAt(store, id).Some?
            && ChannelStatus(store, id) != "connected"
            && !UsesChannel(store, id)
  {
    var key, plan := ChannelKey(id), Statements(Plan(store));
    var once := Pass(rows, plan, clock, first);
    if key in rows {
      SecondPass(rows, plan, clock, first, second, key, ConnectedAt);
      StampsAreClocks(plan, key, ConnectedAt);
    } else {
      NetIsExact(rows, plan, clock, first, key, ConnectedAt);
      NetIsExact(once, plan, clock, second, key, ConnectedAt);
      NetsOfTime(store, id);
    }
  }

  lemma PlanTouches(store: Store, id: string)
    requires ChannelNamed(store.channels, id).Some? ==> Touches(Statements(Configured(store)), ChannelKey(id))
    ensures Touches(Statements(Plan(store)), ChannelKey(id)) <==>
            ChannelNamed(store.channels, id).Some? || UsesChannel(store, id)
  {
    PlanByChannels(store);
    StatementsAppend(Configured(store), AfterChannels(store));
    TouchesAppend(Statements(Configured(store)), Statements(AfterChannels(store)), ChannelKey(id));
    TailTouchesUsed(store, id);
    if ChannelNamed(store.channels, id).None? {
      NetWithoutEntry(store, id);
    }
  }

  /** The effect on connected_at of a pass that inserts the channel and of one that finds it. */
  lemma NetsOfTime(store: Store, id: string)
    requires DistinctChannels(store.channels)
    ensures var plan := Statements(Plan(store));
            var at := OptTime(ChannelConnectedAt(store, id));
            var found := Net(plan, true, ChannelKey(id), ConnectedAt);
            var inserted := Net(plan, false, ChannelKey(id), ConnectedAt);
            var entry := ChannelNamed(store.channels, id).Some?;
            && (Touches(plan, ChannelKey(id)) <==> entry || UsesChannel(store, id))
            && (entry || UsesChannel(store, id) ==>
                  && found == Connection(ChannelStatus(store, id), at)
                  && inserted == if entry && !UsesChannel(store, id) then Put(at)
                                 else Put(if ChannelStatus(store, id) == "connected" then at else None))
  {
    var key := ChannelKey(id);
    TimeOfUsed(store, true, id);
    TimeOfUsed(store, false, id);
    if ChannelNamed(store.channels, id).None? {
      NetWithoutEntry(store, id);
      UntouchedIsKept(Statements(Configured(store)), true, key, ConnectedAt);
      UntouchedIsKept(Statements(Configured(store)), false, key, ConnectedAt);
    } else {
      var call := NetOfEntry(store, id, true, ConnectedAt);
      TimeOfCall(call, true);
      call := NetOfEntry(store, id, false, ConnectedAt);
      TimeOfCall(call, false);
    }
    PlanTouches(store, id);
  }
}
