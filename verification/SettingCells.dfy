/** What a pass leaves of projects, companies and channels: an entry's word stands only where nothing mentions the
    row. */
module SettingCells {
  import opened Wrappers
  import opened Tables
  import opened Text
  import opened Upserts
  import opened Relational
  import opened Persisting
  import opened Coverage
  import opened Cells
  import opened Voices

  // ---------------------------------------------------------------------
  // How the statements write each column

  function CompanyWrite(call: Call, c: Column): Option<Write>
    requires call.UpsertCompany?
  {
    match c
    case ProjectId => Some(Overwrite(Str(call.project)))
    case Name => Some(Overwrite(Str(call.name)))
    case Status => Some(Overwrite(Str(call.status)))
    case UpdatedAt => Some(Clock(0))
    case _ => None
  }

  lemma {:induction false} CompanyWrites(call: Call, c: Column)
    requires call.UpsertCompany?
    ensures WrittenAs(StatementOf(call), c, CompanyWrite(call, c))
  {
    match c
    case ProjectId =>
    case Name =>
    case Status =>
    case UpdatedAt =>
    case _ =>
  }

  function ProjectWrite(call: Call, c: Column): Option<Write>
    requires call.UpsertProject?
  {
    match c
    case Name => Some(Overwrite(Str(call.name)))
    case Status => Some(Overwrite(Str(call.status)))
    case UpdatedAt => Some(Clock(0))
    case _ => None
  }

  lemma {:induction false} ProjectWrites(call: Call, c: Column)
    requires call.UpsertProject?
    ensures WrittenAs(StatementOf(call), c, ProjectWrite(call, c))
  {
    match c
    case Name =>
    case Status =>
    case UpdatedAt =>
    case _ =>
  }

  function ChannelWrite(call: Call, c: Column): Option<Write>
    requires call.UpsertChannel?
  {
    match c
    case ProjectId => Some(Overwrite(Str(call.project)))
    case CompanyId => Some(Overwrite(Str(call.company)))
    case Provider => Some(Overwrite(Str(call.provider)))
    case PhoneE164 => Some(Coalesce(OptStr(call.phone)))
    case Label => Some(Coalesce(OptStr(call.labelled)))
    case Status => Some(Overwrite(Str(call.status)))
    case ConnectedAt => Some(Connected(call.status, OptTime(call.connectedAt)))
    case UpdatedAt => Some(Clock(0))
    case _ => None
  }

  lemma {:induction false} ChannelWrites(call: Call, c: Column)
    requires call.UpsertChannel?
    ensures WrittenAs(StatementOf(call), c, ChannelWrite(call, c))
  {
    if c in {ProjectId, CompanyId, Provider, Status} {
      ChannelOverwrites(call, c);
    } else {
      ChannelKeeps(call, c);
    }
  }

  lemma {:induction false} ChannelOverwrites(call: Call, c: Column)
    requires call.UpsertChannel? && c in {ProjectId, CompanyId, Provider, Status}
    ensures WrittenAs(StatementOf(call), c, ChannelWrite(call, c))
  {
    match c
    case ProjectId =>
    case CompanyId =>
    case Provider =>
    case _ =>
  }

  lemma {:induction false} ChannelKeeps(call: Call, c: Column)
    requires call.UpsertChannel? && !(c in {ProjectId, CompanyId, Provider, Status})
    ensures WrittenAs(StatementOf(call), c, ChannelWrite(call, c))
  {
    match c
    case PhoneE164 =>
    case Label =>
    case ConnectedAt =>
    case UpdatedAt =>
    case _ =>
  }

  // ---------------------------------------------------------------------
  // Companies

  function UpToCompanies(store: Store): seq<Call> {
    Each(store.projects, ConfiguredProject) + Each(ProjectMentions(store), MentionProject)
  }

  function AfterCompanies(store: Store): seq<Call> {
    Each(CompanyMentions(store), MentionCompany) + Each(store.channels, ConfiguredChannel) + AfterChannels(store)
  }

  lemma {:induction false} RegroupSix(a: seq<Call>, b: seq<Call>, c: seq<Call>, d: seq<Call>, e: seq<Call>,
                                      f: seq<Call>)
    ensures a + (b + (c + d) + e + f) == (a + b) + c + (d + e + f)
  {
  }

  lemma {:induction false} PlanByCompanies(store: Store)
    ensures Plan(store) == UpToCompanies(store) + Each(store.companies, ConfiguredCompany) + AfterCompanies(store)
  {
    RegroupSix(Each(store.projects, ConfiguredProject), Each(ProjectMentions(store), MentionProject),
               Each(store.companies, ConfiguredCompany), Each(CompanyMentions(store), MentionCompany),
               Each(store.channels, ConfiguredChannel), AfterChannels(store));
  }

  /** The call is a mention of the company. */
  predicate IsMention(store: Store, call: Call) {
    && call.UpsertCompany? && call.name == call.id && call.status == "active"
    && MentionsCompany(store, call.project, call.id)
  }

  lemma {:induction false} CompanyLoopMentions(store: Store, call: Call)
    requires call in Each(CompanyMentions(store), MentionCompany)
    ensures IsMention(store, call)
  {
    var at :| at in CompanyMentions(store) && call in MentionCompany(at);
    CompanyMentionsMean(store, at.value.0, at.value.1);
  }

  lemma {:induction false} ChannelMentionsCompany(store: Store, c: ChannelEntry)
    requires c in store.channels
    ensures MentionsCompany(store, ValueStr(c.project).GetOr("default"), ValueStr(c.company).GetOr("default"))
  {
  }

  lemma {:induction false} ChannelLoopMentions(store: Store, call: Call)
    requires call in Each(store.channels, ConfiguredChannel) && call.UpsertCompany?
    ensures IsMention(store, call)
  {
    var c :| c in store.channels && call in ConfiguredChannel(c);
    ChannelMentionsCompany(store, c);
  }

  lemma {:induction false} CallbackMentionsCompany(store: Store, c: Callback)
    requires c in store.callbacks
    ensures MentionsCompany(store, ValueStr(c.project).GetOr("default"), ValueStr(c.company).GetOr("default"))
  {
  }

  lemma {:induction false} CallbackLoopMentions(store: Store, call: Call)
    requires call in Each(store.callbacks, CallsOfCallback) && call.UpsertCompany?
    ensures IsMention(store, call)
  {
    var c :| c in store.callbacks && call in CallsOfCallback(c);
    CallbackMentionsCompany(store, c);
  }

  /** After the channels only callbacks mention companies. */
  lemma {:induction false} LateCompaniesAreCallbacks(store: Store, call: Call)
    requires call in AfterChannels(store) && call.UpsertCompany?
    ensures call in Each(store.callbacks, CallsOfCallback)
  {
    if call in RemainingCalls(store) {
      RemainingSetsNothing(store, call);
    } else if call in Each(store.contacts, c => CallsOfContact(store, c)) {
      ContactLoopWrites(store, call);
    } else if call in Each(ChannelMentions(store), at => MentionChannel(store, at)) {
      MentionedChannelsUse(store, call);
    } else if call in Each(store.attempts, (a: Record) => [PersistAttempt(a)]) {
      RecordLoopsWrite(store, call);
    }
  }

  lemma {:induction false} LaterCompaniesMention(store: Store, call: Call)
    requires call in AfterCompanies(store) && call.UpsertCompany?
    ensures IsMention(store, call)
  {
    if call in Each(CompanyMentions(store), MentionCompany) {
      CompanyLoopMentions(store, call);
    } else if call in Each(store.channels, ConfiguredChannel) {
      ChannelLoopMentions(store, call);
    } else {
      LateCompaniesAreCallbacks(store, call);
      CallbackLoopMentions(store, call);
    }
  }

  lemma {:induction false} RemainingSetsNothing(store: Store, call: Call)
    requires call in RemainingCalls(store)
    ensures !IsSetting(call)
  {
    MiddleAreNames(store, call);
    if call in GroupCalls(store) {
      GroupLoopsWrite(store, call);
    } else if call in GroupMemberCalls(store) {
      MemberLoopWrites(store, call);
    } else if call in RecordCalls(store) {
      RecordLoopsWrite(store, call);
    }
  }

  ghost predicate IsMentioned(store: Store, id: string) {
    exists project :: MentionsCompany(store, project, id)
  }

  /** What a mention says of a company. */
  ghost function MentionSays(store: Store, id: string, c: Column): Field -> bool {
    (f: Field) =>
      match c
      case Name => f == Str(id)
      case Status => f == Str("active")
      case _ => exists project :: MentionsCompany(store, project, id) && f == Str(project)
  }

  predicate IsCompanyColumn(c: Column) {
    c.Name? || c.Status? || c.ProjectId?
  }

  lemma {:induction false} MentionsSay(store: Store, id: string, c: Column)
    requires IsCompanyColumn(c)
    ensures forall call :: About(AfterCompanies(store), Key(Companies, [id]), call) ==>
              IsMentioned(store, id) && Says(StatementOf(call), c, MentionSays(store, id, c))
  {
    forall call | About(AfterCompanies(store), Key(Companies, [id]), call)
      ensures IsMentioned(store, id) && Says(StatementOf(call), c, MentionSays(store, id, c))
    {
      LaterCompanySays(store, call, id, c);
    }
  }

  lemma {:induction false} LaterCompanySays(store: Store, call: Call, id: string, c: Column)
    requires About(AfterCompanies(store), Key(Companies, [id]), call) && IsCompanyColumn(c)
    ensures IsMentioned(store, id) && Says(StatementOf(call), c, MentionSays(store, id, c))
  {
    AboutCompany(call, id);
    LaterCompaniesMention(store, call);
    OneMentionSays(store, call, c);
  }

  lemma {:induction false} AboutCompany(call: Call, id: string)
    requires RowOf(call) == Key(Companies, [id])
    ensures call.UpsertCompany? && call.id == id
  {
    assert RowOf(call).id[0] == id;
  }

  lemma {:induction false} OneMentionSays(store: Store, call: Call, c: Column)
    requires IsMention(store, call) && IsCompanyColumn(c)
    ensures Says(StatementOf(call), c, MentionSays(store, call.id, c))
  {
    CompanyWrites(call, c);
  }

  lemma {:induction false} MentionIsCalled(store: Store, id: string) returns (call: Call)
    requires IsMentioned(store, id)
    ensures About(AfterCompanies(store), Key(Companies, [id]), call)
  {
    var project :| MentionsCompany(store, project, id);
    call := UpsertCompany(project, id, id, "active");
    MentionIsPlanned(store, project, id, call);
  }

  lemma {:induction false} MentionIsPlanned(store: Store, project: string, id: string, call: Call)
    requires MentionsCompany(store, project, id) && call == UpsertCompany(project, id, id, "active")
    ensures call in AfterCompanies(store)
  {
    CompanyMentionsMean(store, project, id);
    if Some((project, id)) in CompanyMentions(store) {
      assert call in MentionCompany(Some((project, id)));
      assert call in Each(CompanyMentions(store), MentionCompany);
    } else if c :| c in store.channels && ValueStr(c.project).GetOr("default") == project &&
                   ValueStr(c.company).GetOr("default") == id {
      assert call in ConfiguredChannel(c);
      assert call in Each(store.channels, ConfiguredChannel);
    } else {
      var c :| c in store.callbacks && ValueStr(c.project).GetOr("default") == project &&
               ValueStr(c.company).GetOr("default") == id;
      assert call in CallsOfCallback(c);
      assert call in Each(store.callbacks, CallsOfCallback);
    }
  }

  /** The company has one entry. */
  predicate OneCompany(store: Store, e: CompanyEntry) {
    e in store.companies && forall other :: other in store.companies && other.id == e.id ==> other == e
  }

  function CompanyEntrySays(e: CompanyEntry, c: Column): Field {
    match c
    case Name => Str(ValueStr(e.name).GetOr(e.id))
    case Status => Str(ValueStr(e.status).GetOr("active"))
    case _ => Str(e.project)
  }

  lemma {:induction false} CompanyEntriesSay(store: Store, e: CompanyEntry, c: Column)
    requires OneCompany(store, e) && IsCompanyColumn(c)
    ensures var calls, key := Each(store.companies, ConfiguredCompany), Key(Companies, [e.id]);
            && (forall call :: About(calls, key, call) ==> Says(StatementOf(call), c, Is(CompanyEntrySays(e, c))))
            && About(calls, key, ConfiguredCompany(e)[0])
  {
    var calls, key := Each(store.companies, ConfiguredCompany), Key(Companies, [e.id]);
    forall call | About(calls, key, call) ensures Says(StatementOf(call), c, Is(CompanyEntrySays(e, c))) {
      var x :| x in store.companies && call in ConfiguredCompany(x);
      assert RowOf(call).id[0] == e.id;
      CompanyWrites(call, c);
    }
    assert ConfiguredCompany(e)[0] in ConfiguredCompany(e);
  }

  /** A company that anything mentions is active under its own id as its name, in a project it is mentioned with; the
      name, the status and the project of its entry stand only when nothing does. */
  lemma {:induction false} CompanyCells(store: Store, id: string, rows: Rows, clock: nat -> Time, from: nat, c: Column)
    requires IsCompanyColumn(c)
    ensures var left := CellOf(store, rows, clock, from, Key(Companies, [id]), c);
            if IsMentioned(store, id) then MentionSays(store, id, c)(left)
            else forall e :: OneCompany(store, e) && e.id == id ==> left == CompanyEntrySays(e, c)
  {
    var key := Key(Companies, [id]);
    var up, entries, late := UpToCompanies(store), Each(store.companies, ConfiguredCompany), AfterCompanies(store);
    PlanByCompanies(store);
    MentionsSay(store, id, c);
    if IsMentioned(store, id) {
      var one := MentionIsCalled(store, id);
      TailSays(rows, up + entries, late, clock, from, key, c, MentionSays(store, id, c), one);
    } else {
      TailSilent(rows, up + entries, late, clock, from, key, c);
      forall e | OneCompany(store, e) && e.id == id
        ensures CellOf(store, rows, clock, from, key, c) == CompanyEntrySays(e, c)
      {
        CompanyEntriesSay(store, e, c);
        TailSays(rows, up, entries, clock, from, key, c, Is(CompanyEntrySays(e, c)), ConfiguredCompany(e)[0]);
      }
    }
  }

  // ---------------------------------------------------------------------
  // Projects

  predicate OneProject(store: Store, e: ProjectEntry) {
    e in store.projects && forall other :: other in store.projects && other.id == e.id ==> other == e
  }

  lemma {:induction false} LaterProjectsSay(store: Store, id: string)
    ensures forall call :: About(AfterProjects(store), Key(Projects, [id]), call) ==>
              MentionsProject(store, id) && Says(StatementOf(call), Status, Is(Str("active")))
  {
    forall call | About(AfterProjects(store), Key(Projects, [id]), call)
      ensures MentionsProject(store, id) && Says(StatementOf(call), Status, Is(Str("active")))
    {
      LaterProjectSays(store, call, id);
    }
  }

  lemma {:induction false} LaterProjectSays(store: Store, call: Call, id: string)
    requires About(AfterProjects(store), Key(Projects, [id]), call)
    ensures MentionsProject(store, id) && Says(StatementOf(call), Status, Is(Str("active")))
  {
    assert call.UpsertProject? && RowOf(call).id[0] == id;
    ProjectsAreMentioned(store, call);
    ProjectWrites(call, Status);
  }

  lemma {:induction false} ProjectEntriesSay(store: Store, e: ProjectEntry)
    requires OneProject(store, e)
    ensures var calls, key := Each(store.projects, ConfiguredProject), Key(Projects, [e.id]);
            var ok := Is(Str(ValueStr(e.status).GetOr("active")));
            && (forall call :: About(calls, key, call) ==> Says(StatementOf(call), Status, ok))
            && About(calls, key, ConfiguredProject(e)[0])
  {
    var calls, key := Each(store.projects, ConfiguredProject), Key(Projects, [e.id]);
    forall call | About(calls, key, call)
      ensures Says(StatementOf(call), Status, Is(Str(ValueStr(e.status).GetOr("active"))))
    {
      var x :| x in store.projects && call in ConfiguredProject(x);
      assert RowOf(call).id[0] == e.id;
      ProjectWrites(call, Status);
    }
    assert ConfiguredProject(e)[0] in ConfiguredProject(e);
  }

  lemma {:induction false} MentionedStatus(store: Store, id: string, rows: Rows, clock: nat -> Time, from: nat)
    requires MentionsProject(store, id)
    ensures CellOf(store, rows, clock, from, Key(Projects, [id]), Status) == Str("active")
  {
    LaterProjectsSay(store, id);
    ReasonsAreMentioned(store, id);
    TailSays(rows, Each(store.projects, ConfiguredProject), AfterProjects(store), clock, from, Key(Projects, [id]),
             Status, Is(Str("active")), Mention(id));
  }

  lemma {:induction false} UnmentionedStatus(store: Store, e: ProjectEntry, later: seq<Call>, rows: Rows,
                                             clock: nat -> Time, from: nat)
    requires OneProject(store, e) && forall call :: !About(later, Key(Projects, [e.id]), call)
    ensures Cell(Pass(rows, Statements(Each(store.projects, ConfiguredProject) + later), clock, from),
                 Key(Projects, [e.id]), Status) == Str(ValueStr(e.status).GetOr("active"))
  {
    var key, entries := Key(Projects, [e.id]), Each(store.projects, ConfiguredProject);
    TailSilent(rows, entries, later, clock, from, key, Status);
    ProjectEntriesSay(store, e);
    assert [] + entries == entries;
    TailSays(rows, [], entries, clock, from, key, Status, Is(Str(ValueStr(e.status).GetOr("active"))),
             ConfiguredProject(e)[0]);
  }

  /** A project that anything mentions is active; the status of its entry stands only when nothing does. */
  lemma {:induction false} ProjectStatuses(store: Store, id: string, rows: Rows, clock: nat -> Time, from: nat)
    ensures var left := CellOf(store, rows, clock, from, Key(Projects, [id]), Status);
            if MentionsProject(store, id) then left == Str("active")
            else forall e :: OneProject(store, e) && e.id == id ==> left == Str(ValueStr(e.status).GetOr("active"))
  {
    if MentionsProject(store, id) {
      MentionedStatus(store, id, rows, clock, from);
    } else {
      LaterProjectsSay(store, id);
      forall e | OneProject(store, e) && e.id == id
        ensures CellOf(store, rows, clock, from, Key(Projects, [id]), Status) == Str(ValueStr(e.status).GetOr("active"))
      {
        UnmentionedStatus(store, e, AfterProjects(store), rows, clock, from);
      }
    }
  }

  // ---------------------------------------------------------------------
  // Channels

  predicate OneChannel(store: Store, e: ChannelEntry) {
    e in store.channels && forall other :: other in store.channels && other.id == e.id ==> other == e
  }

  lemma {:induction false} NamedIsFirst(channels: seq<ChannelEntry>, e: ChannelEntry)
    requires e in channels && forall other :: other in channels && other.id == e.id ==> other == e
    ensures ChannelNamed(channels, e.id) == Some(e)
  {
    if channels[0].id != e.id {
      NamedIsFirst(channels[1..], e);
    }
  }

  predicate IsChannelColumn(c: Column) {
    c.ProjectId? || c.CompanyId? || c.Provider? || c.Status?
  }

  /** What a use of the channel says. */
  ghost function UseSays(store: Store, id: string, c: Column): Field -> bool {
    (f: Field) =>
      match c
      case Provider => f == Str("whatsapp-rust")
      case Status => f == Str(ChannelStatus(store, id))
      case ProjectId => exists project, company :: UsesChannelFor(store, id, project, company) && f == Str(project)
      case _ => exists project, company :: UsesChannelFor(store, id, project, company) && f == Str(company)
  }

  function ChannelEntrySays(e: ChannelEntry, c: Column): Field {
    match c
    case Provider => Str(ValueStr(e.provider).GetOr("whatsapp-rust"))
    case Status => Str(ValueStr(e.status).GetOr("disconnected"))
    case ProjectId => Str(ValueStr(e.project).GetOr("default"))
    case _ => Str(ValueStr(e.company).GetOr("default"))
  }

  lemma {:induction false} LateChannelIsUse(store: Store, call: Call)
    requires call in AfterChannels(store) && call.UpsertChannel?
    ensures UsedAs(store, call)
  {
    if call in Each(ChannelMentions(store), at => MentionChannel(store, at)) {
      MentionLoopUses(store, call);
    } else if call in Each(store.contacts, c => CallsOfContact(store, c)) {
      ContactLoopUses(store, call);
    } else if call in RemainingCalls(store) {
      RemainingSetsNothing(store, call);
    } else if call in Each(store.callbacks, CallsOfCallback) {
      CallbacksMention(store, call);
    } else {
      RecordLoopsWrite(store, call);
    }
  }

  lemma {:induction false} MentionLoopUses(store: Store, call: Call)
    requires call in Each(ChannelMentions(store), at => MentionChannel(store, at))
    ensures UsedAs(store, call)
  {
    var at :| at in ChannelMentions(store) && call in MentionChannel(store, at);
    ChannelMentionsMean(store, at);
  }

  lemma {:induction false} ContactLoopUses(store: Store, call: Call)
    requires call in Each(store.contacts, c => CallsOfContact(store, c)) && call.UpsertChannel?
    ensures UsedAs(store, call)
  {
    var c :| c in store.contacts && call in CallsOfContact(store, c);
  }

  lemma {:induction false} OneUseSays(store: Store, call: Call, c: Column)
    requires UsedAs(store, call) && IsChannelColumn(c)
    ensures Says(StatementOf(call), c, UseSays(store, call.id, c))
  {
    ChannelWrites(call, c);
  }

  lemma {:induction false} AboutChannel(call: Call, id: string)
    requires RowOf(call) == Key(ChannelAccounts, [id])
    ensures call.UpsertChannel? && call.id == id
  {
    assert RowOf(call).id[0] == id;
  }

  lemma {:induction false} UsesSay(store: Store, id: string, c: Column)
    requires IsChannelColumn(c)
    ensures forall call :: About(AfterChannels(store), Key(ChannelAccounts, [id]), call) ==>
              UsesChannel(store, id) && Says(StatementOf(call), c, UseSays(store, id, c))
  {
    forall call | About(AfterChannels(store), Key(ChannelAccounts, [id]), call)
      ensures UsesChannel(store, id) && Says(StatementOf(call), c, UseSays(store, id, c))
    {
      LateUseSays(store, call, id, c);
    }
  }

  lemma {:induction false} LateUseSays(store: Store, call: Call, id: string, c: Column)
    requires About(AfterChannels(store), Key(ChannelAccounts, [id]), call) && IsChannelColumn(c)
    ensures UsesChannel(store, id) && Says(StatementOf(call), c, UseSays(store, id, c))
  {
    AboutChannel(call, id);
    AfterChannelsHasReasons(store, call);
    UseIsCalled(store, call, c);
  }

  lemma {:induction false} ChannelEntriesSay(store: Store, e: ChannelEntry, c: Column)
    requires OneChannel(store, e) && IsChannelColumn(c)
    ensures var calls, key := Each(store.channels, ConfiguredChannel), Key(ChannelAccounts, [e.id]);
            && (forall call :: About(calls, key, call) ==> Says(StatementOf(call), c, Is(ChannelEntrySays(e, c))))
            && About(calls, key, ConfiguredChannel(e)[2])
  {
    var calls, key := Each(store.channels, ConfiguredChannel), Key(ChannelAccounts, [e.id]);
    forall call | About(calls, key, call) ensures Says(StatementOf(call), c, Is(ChannelEntrySays(e, c))) {
      ItsEntrySays(store, e, call, c);
    }
    assert ConfiguredChannel(e)[2] in ConfiguredChannel(e);
  }

  lemma {:induction false} ItsEntrySays(store: Store, e: ChannelEntry, call: Call, c: Column)
    requires OneChannel(store, e) && IsChannelColumn(c)
    requires About(Each(store.channels, ConfiguredChannel), Key(ChannelAccounts, [e.id]), call)
    ensures Says(StatementOf(call), c, Is(ChannelEntrySays(e, c)))
  {
    AboutChannel(call, e.id);
    OnlyItsEntry(store, e, call);
    ChannelEntrySaysOne(e, call, c);
  }

  lemma {:induction false} OnlyItsEntry(store: Store, e: ChannelEntry, call: Call)
    requires OneChannel(store, e) && call in Each(store.channels, ConfiguredChannel)
    requires call.UpsertChannel? && call.id == e.id
    ensures call in ConfiguredChannel(e)
  {
    var x :| x in store.channels && call in ConfiguredChannel(x);
    assert x == e;
  }

  lemma {:induction false} ChannelEntrySaysOne(e: ChannelEntry, call: Call, c: Column)
    requires call in ConfiguredChannel(e) && call.UpsertChannel? && IsChannelColumn(c)
    ensures Says(StatementOf(call), c, Is(ChannelEntrySays(e, c)))
  {
    ChannelWrites(call, c);
  }

  lemma {:induction false} UsedChannelCell(store: Store, id: string, head: seq<Call>, rows: Rows, clock: nat -> Time,
                                           from: nat, c: Column)
    requires IsChannelColumn(c) && UsesChannel(store, id)
    ensures var left := Cell(Pass(rows, Statements(head + AfterChannels(store)), clock, from),
                             Key(ChannelAccounts, [id]), c);
            UseSays(store, id, c)(left)
  {
    UsesSay(store, id, c);
    var one := UsesAreCalled(store, id);
    UseIsCalled(store, one, c);
    TailSays(rows, head, AfterChannels(store), clock, from, Key(ChannelAccounts, [id]), c, UseSays(store, id, c), one);
  }

  lemma {:induction false} UnusedChannelCell(store: Store, e: ChannelEntry, head: seq<Call>, later: seq<Call>,
                                             rows: Rows, clock: nat -> Time, from: nat, c: Column)
    requires IsChannelColumn(c) && OneChannel(store, e)
    requires forall call :: !About(later, Key(ChannelAccounts, [e.id]), call)
    ensures var calls := head + Each(store.channels, ConfiguredChannel) + later;
            Cell(Pass(rows, Statements(calls), clock, from), Key(ChannelAccounts, [e.id]), c) == ChannelEntrySays(e, c)
  {
    var key, entries := Key(ChannelAccounts, [e.id]), Each(store.channels, ConfiguredChannel);
    TailSilent(rows, head + entries, later, clock, from, key, c);
    ChannelEntriesSay(store, e, c);
    TailSays(rows, head, entries, clock, from, key, c, Is(ChannelEntrySays(e, c)), ConfiguredChannel(e)[2]);
  }

  /** A channel that a conversation, a message or a contact uses runs on whatsapp-rust, for a project and a company of
      such a use, in the status of its entry or disconnected; what its entry says stands only when nothing uses it. */
  lemma {:induction false} ChannelCells(store: Store, id: string, rows: Rows, clock: nat -> Time, from: nat, c: Column)
    requires IsChannelColumn(c)
    ensures var left := CellOf(store, rows, clock, from, Key(ChannelAccounts, [id]), c);
            if UsesChannel(store, id) then UseSays(store, id, c)(left)
            else forall e :: OneChannel(store, e) && e.id == id ==> left == ChannelEntrySays(e, c)
  {
    PlanByChannels(store);
    if UsesChannel(store, id) {
      UsedChannelCell(store, id, BeforeChannels(store) + Each(store.channels, ConfiguredChannel), rows, clock, from, c);
    } else {
      UsesSay(store, id, c);
      forall e | OneChannel(store, e) && e.id == id
        ensures CellOf(store, rows, clock, from, Key(ChannelAccounts, [id]), c) == ChannelEntrySays(e, c)
      {
        UnusedChannelCell(store, e, BeforeChannels(store), AfterChannels(store), rows, clock, from, c);
      }
    }
  }

  lemma {:induction false} UseIsCalled(store: Store, call: Call, c: Column)
    requires call in AfterChannels(store) && call.UpsertChannel? && IsChannelColumn(c)
    ensures Says(StatementOf(call), c, UseSays(store, call.id, c))
  {
    LateChannelIsUse(store, call);
    OneUseSays(store, call, c);
  }

  lemma {:induction false} ChannelFills(store: Store, e: ChannelEntry, call: Call)
    requires OneChannel(store, e) && call.UpsertChannel? && call.id == e.id && ChannelAsked(store, call)
    ensures Fills(StatementOf(call), PhoneE164, OptStr(ValueStr(e.phone)))
  {
    ChannelWrites(call, PhoneE164);
  }

  /** A channel's phone number is that of its entry, or what was there: a use knows none. */
  lemma {:induction false} ChannelPhones(store: Store, e: ChannelEntry, rows: Rows, clock: nat -> Time, from: nat)
    requires OneChannel(store, e)
    ensures var key, phone := Key(ChannelAccounts, [e.id]), ValueStr(e.phone);
            CellOf(store, rows, clock, from, key, PhoneE164) ==
              if phone.Some? then Str(phone.value) else Cell(rows, key, PhoneE164)
  {
    PlanIsAskedFor(store);
    PhoneFilled(store, e, Plan(store), rows, clock, from);
  }

  lemma {:induction false} PhoneFilled(store: Store, e: ChannelEntry, calls: seq<Call>, rows: Rows, clock: nat -> Time,
                                       from: nat)
    requires OneChannel(store, e) && forall call :: call in calls <==> Asked(store, call)
    ensures var key, phone := Key(ChannelAccounts, [e.id]), OptStr(ValueStr(e.phone));
            Cell(Pass(rows, Statements(calls), clock, from), key, PhoneE164) ==
              if phone.Some? then phone else Cell(rows, key, PhoneE164)
  {
    var key, one := Key(ChannelAccounts, [e.id]), ConfiguredChannel(e)[2];
    forall call | About(calls, key, call) ensures Fills(StatementOf(call), PhoneE164, OptStr(ValueStr(e.phone))) {
      AboutChannel(call, e.id);
      ChannelFills(store, e, call);
    }
    assert ConfiguredAs(e, one);
    ChannelWrites(one, PhoneE164);
    CallsFill(rows, calls, clock, from, key, PhoneE164, OptStr(ValueStr(e.phone)), one);
  }

  // ---------------------------------------------------------------------
  // Lookups

  /** Whatever a lookup finds is the first of its kind. */
  lemma {:induction false} ContextIsFirst(conversations: seq<Conversation>, group: string) returns (i: nat)
    ensures if i < |conversations| then
              && conversations[i].group == Some(group)
              && (forall j :: 0 <= j < i ==> conversations[j].group != Some(group))
              && GroupContext(conversations, group) ==
                 (conversations[i].project, conversations[i].company, conversations[i].channel)
            else
              && (forall j :: 0 <= j < |conversations| ==> conversations[j].group != Some(group))
              && GroupContext(conversations, group) == ("default", "default", "channel_dev")
  {
    i := 0;
    if conversations != [] && conversations[0].group != Some(group) {
      var j := ContextIsFirst(conversations[1..], group);
      i := j + 1;
    }
  }

  predicate RunsFor(e: ChannelEntry, project: string, company: string) {
    e.project == Some(project) && e.company == Some(company)
  }

  predicate TalksFor(v: Conversation, project: string, company: string) {
    v.project == project && v.company == company
  }

  lemma {:induction false} FirstChannel(channels: seq<ChannelEntry>, project: string, company: string) returns (i: nat)
    ensures if i < |channels| then
              && RunsFor(channels[i], project, company)
              && (forall j :: 0 <= j < i ==> !RunsFor(channels[j], project, company))
              && FirstChannelOf(channels, project, company) == Some(channels[i].id)
            else
              && (forall j :: 0 <= j < |channels| ==> !RunsFor(channels[j], project, company))
              && FirstChannelOf(channels, project, company).None?
  {
    i := 0;
    if channels != [] && !RunsFor(channels[0], project, company) {
      var j := FirstChannel(channels[1..], project, company);
      i := j + 1;
    }
  }

  lemma {:induction false} FirstConversation(conversations: seq<Conversation>, project: string, company: string)
    returns (i: nat)
    ensures if i < |conversations| then
              && TalksFor(conversations[i], project, company)
              && (forall j :: 0 <= j < i ==> !TalksFor(conversations[j], project, company))
              && FirstConversationOf(conversations, project, company) == Some(conversations[i].channel)
            else
              && (forall j :: 0 <= j < |conversations| ==> !TalksFor(conversations[j], project, company))
              && FirstConversationOf(conversations, project, company).None?
  {
    i := 0;
    if conversations != [] && !TalksFor(conversations[0], project, company) {
      var j := FirstConversation(conversations[1..], project, company);
      i := j + 1;
    }
  }

  /** The channel of a company is the first that is configured for it, else that of its first conversation, else the
      development channel. */
  lemma {:induction false} CompanyChannels(store: Store, project: string, company: string)
    ensures var channel := ChannelForCompany(store, project, company);
            || (exists i :: 0 <= i < |store.channels| && RunsFor(store.channels[i], project, company) &&
                            channel == store.channels[i].id &&
                            forall j :: 0 <= j < i ==> !RunsFor(store.channels[j], project, company))
            || (&& (forall j :: 0 <= j < |store.channels| ==> !RunsFor(store.channels[j], project, company))
                && exists i :: 0 <= i < |store.conversations| && TalksFor(store.conversations[i], project, company) &&
                               channel == store.conversations[i].channel &&
                               forall j :: 0 <= j < i ==> !TalksFor(store.conversations[j], project, company))
            || (&& (forall j :: 0 <= j < |store.channels| ==> !RunsFor(store.channels[j], project, company))
                && (forall j :: 0 <= j < |store.conversations| ==> !TalksFor(store.conversations[j], project, company))
                && channel == "channel_dev")
  {
    var i := FirstChannel(store.channels, project, company);
    var k := FirstConversation(store.conversations, project, company);
  }

  /** The status and the connection time of a channel are those of its entry. */
  lemma {:induction false} ChannelLookups(store: Store, e: ChannelEntry)
    requires OneChannel(store, e)
    ensures ChannelStatus(store, e.id) == ValueStr(e.status).GetOr("disconnected")
    ensures ChannelConnectedAt(store, e.id) == e.connectedAt
  {
    NamedIsFirst(store.channels, e);
  }

  lemma {:induction false} UnknownChannels(store: Store, id: string)
    requires forall e :: e in store.channels ==> e.id != id
    ensures ChannelStatus(store, id) == "disconnected" && ChannelConnectedAt(store, id).None?
  {
    NoneNamed(store.channels, id);
  }

  lemma {:induction false} NoneNamed(channels: seq<ChannelEntry>, id: string)
    requires forall e :: e in channels ==> e.id != id
    ensures ChannelNamed(channels, id).None?
  {
    if channels != [] {
      NoneNamed(channels[1..], id);
    }
  }

  /** How values become fields: text is trimmed and blank text is none, and a count that no integer column holds is
      NULL. */
  lemma {:induction false} FieldsAreValues(value: Option<string>, t: Option<Time>, n: Option<nat>)
    ensures ValueStr(value).Some? <==> value.Some? && exists i :: 0 <= i < |value.value| && !IsSpace(value.value[i])
    ensures ValueStr(value).Some? ==> ValueStr(value).value == Trim(value.value)
    ensures OptStr(value) == (if value.Some? then Some(Words(value.value)) else None)
    ensures OptTime(t) == (if t.Some? then Some(When(t.value)) else None)
    ensures n.Some? ==> OptCount(n) == if n.value <= 2_147_483_647 then Some(Whole(n.value)) else None
    ensures n.None? ==> OptCount(n).None?
  {
  }
}
