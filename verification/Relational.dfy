/** persist_relational of src/db.rs: the statements one pass over a snapshot issues, in order. */
module Relational {
  import opened Wrappers
  import opened Tables
  import opened Text
  import opened Upserts

  // ---------------------------------------------------------------------
  // The snapshot. A HashMap of the source is listed in its iteration order; columns holds what a row carries besides
  // the columns that something here depends on.

  datatype ProjectEntry = ProjectEntry(id: string, name: Option<string>, status: Option<string>)
  datatype CompanyEntry = CompanyEntry(project: string, id: string, name: Option<string>, status: Option<string>)
  datatype ChannelEntry = ChannelEntry(
    id: string, project: Option<string>, company: Option<string>, provider: Option<string>, phone: Option<string>,
    name: Option<string>, status: Option<string>, connectedAt: Option<Time>)
  datatype Contact = Contact(
    id: string, project: string, company: string, channel: Option<string>, canonicalJid: Option<string>,
    lid: Option<string>, phone: Option<string>, pushName: Option<string>, displayName: string,
    pictureMedia: Option<string>, description: Option<string>, avatarUrl: Option<string>, pictureUrl: Option<string>,
    firstAt: Time, lastAt: Time)
  datatype Group = Group(
    waJid: Option<string>, subject: Option<string>, description: Option<string>, owner: Option<string>,
    subjectOwner: Option<string>, pictureMedia: Option<string>, avatarUrl: Option<string>,
    pictureUrl: Option<string>, createdAt: Option<Time>, members: Option<nat>, admins: Option<nat>)
  datatype Member = Member(
    group: string, contact: string, waJid: Option<string>, phone: Option<string>, name: string, role: string,
    admin: bool, joinedAt: Time, updatedAt: Time)
  datatype Conversation = Conversation(
    id: string, project: string, company: string, channel: string, contact: Option<string>, group: Option<string>,
    name: Option<string>, phone: Option<string>, avatarUrl: Option<string>, pictureUrl: Option<string>,
    columns: map<Column, Field>)
  datatype Message = Message(
    id: string, project: string, company: string, channel: string, sender: Option<string>,
    senderName: Option<string>, columns: map<Column, Field>)
  datatype Record = Record(id: seq<string>, project: string, company: string, columns: map<Column, Field>)
  datatype Callback = Callback(id: Option<string>, project: Option<string>, company: Option<string>,
                               columns: map<Column, Field>)

  datatype Store = Store(
    projects: seq<ProjectEntry>, companies: seq<CompanyEntry>, channels: seq<ChannelEntry>,
    conversations: seq<Conversation>, messages: seq<Message>, contacts: seq<Contact>,
    groups: seq<(string, Group)>, groupMembers: seq<(string, seq<Member>)>,
    media: seq<Record>, transcripts: seq<Record>, dirty: seq<Record>, dirtyLeases: seq<Record>,
    consumerState: seq<Record>, idempotency: seq<Record>, callbacks: seq<Callback>, attempts: seq<Record>)

  // ---------------------------------------------------------------------
  // Values and lookups

  /** value_str: a string that is not blank, trimmed. */
  function ValueStr(value: Option<string>): Option<string> {
    if value.None? || Trim(value.value) == "" then None else Some(Trim(value.value))
  }

  function Str(s: string): Field { Some(Words(s)) }

  function OptStr(s: Option<string>): Field {
    if s.Some? then Some(Words(s.value)) else None
  }

  function OptTime(t: Option<Time>): Field {
    if t.Some? then Some(When(t.value)) else None
  }

  /** i32::try_from(count).ok() */
  function OptCount(n: Option<nat>): Field {
    if n.Some? && n.value < 0x8000_0000 then Some(Whole(n.value)) else None
  }

  function ChannelNamed(channels: seq<ChannelEntry>, id: string): Option<ChannelEntry> {
    if channels == [] then None
    else if channels[0].id == id then Some(channels[0]) else ChannelNamed(channels[1..], id)
  }

  function ChannelStatus(store: Store, id: string): string {
    var entry := ChannelNamed(store.channels, id);
    if entry.Some? then ValueStr(entry.value.status).GetOr("disconnected") else "disconnected"
  }

  function ChannelConnectedAt(store: Store, id: string): Option<Time> {
    var entry := ChannelNamed(store.channels, id);
    if entry.Some? then entry.value.connectedAt else None
  }

  function FirstChannelOf(channels: seq<ChannelEntry>, project: string, company: string): Option<string> {
    if channels == [] then None
    else if channels[0].project == Some(project) && channels[0].company == Some(company) then Some(channels[0].id)
    else FirstChannelOf(channels[1..], project, company)
  }

  function FirstConversationOf(conversations: seq<Conversation>, project: string, company: string): Option<string> {
    if conversations == [] then None
    else if conversations[0].project == project && conversations[0].company == company then
      Some(conversations[0].channel)
    else FirstConversationOf(conversations[1..], project, company)
  }

  function ChannelForCompany(store: Store, project: string, company: string): string {
    FirstChannelOf(store.channels, project, company).GetOr(
      FirstConversationOf(store.conversations, project, company).GetOr("channel_dev"))
  }

  /** group_context: (project, company, channel). */
  function GroupContext(conversations: seq<Conversation>, group: string): (string, string, string) {
    if conversations == [] then ("default", "default", "channel_dev")
    else if conversations[0].group == Some(group) then
      (conversations[0].project, conversations[0].company, conversations[0].channel)
    else GroupContext(conversations[1..], group)
  }

  function GroupNamed(groups: seq<(string, Group)>, id: string): Group {
    if groups == [] then Group(Some(id), Some(id), None, None, None, None, None, None, None, None, None)
    else if groups[0].0 == id then groups[0].1 else GroupNamed(groups[1..], id)
  }

  // ---------------------------------------------------------------------
  // The statements

  /** The remaining columns of a record, of which those in fixed are only ever inserted. */
  function Given(columns: map<Column, Field>, fixed: set<Column>): map<Column, Write> {
    map c | c in columns :: if c in fixed then Once(columns[c]) else Overwrite(columns[c])
  }

  /** Columns that are all filled through COALESCE, next to the others. */
  function AndFilled(key: Key, writes: map<Column, Write>, filled: map<Column, Field>): (all: map<Column, Write>)
    requires Allowed(key, writes)
    ensures Allowed(key, all)
  {
    writes + map c | c in filled :: Coalesce(filled[c])
  }

  function ProjectKey(id: string): Key { Key(Projects, [id]) }

  function ProjectStatement(id: string, name: string, status: string): Statement {
    Upsert(ProjectKey(id), map[Name := Overwrite(Str(name)), Status := Overwrite(Str(status)), UpdatedAt := Clock(0)])
  }

  function CompanyStatement(project: string, id: string, name: string, status: string): Statement {
    Upsert(Key(Companies, [id]), map[
      ProjectId := Overwrite(Str(project)),
      Name := Overwrite(Str(name)),
      Status := Overwrite(Str(status)),
      UpdatedAt := Clock(0)])
  }

  function ChannelKey(id: string): Key { Key(ChannelAccounts, [id]) }

  function ChannelStatement(
    id: string, project: string, company: string, provider: string, phone: Option<string>, labelled: Option<string>,
    status: string, connectedAt: Option<Time>): Statement
  {
    Upsert(ChannelKey(id), map[
      ProjectId := Overwrite(Str(project)),
      CompanyId := Overwrite(Str(company)),
      Provider := Overwrite(Str(provider)),
      PhoneE164 := Coalesce(OptStr(phone)),
      Label := Coalesce(OptStr(labelled)),
      Status := Overwrite(Str(status)),
      ConnectedAt := Connected(status, OptTime(connectedAt)),
      UpdatedAt := Clock(0)])
  }

  function ContactColumns(contact: Contact, channel: string): map<Column, Write> {
    map[ProjectId := Once(Str(contact.project)),
        CompanyId := Once(Str(contact.company)),
        ChannelAccountId := Overwrite(Str(contact.channel.GetOr(channel))),
        DisplayName := Overwrite(Str(contact.displayName)),
        FirstContactAt := Once(Some(When(contact.firstAt))),
        LastContactAt := Overwrite(Some(When(contact.lastAt))),
        UpdatedAt := Clock(0)]
  }

  function ContactFields(contact: Contact): map<Column, Field> {
    map[WaJid := OptStr(if contact.canonicalJid.Some? then contact.canonicalJid else contact.lid),
        PhoneE164 := OptStr(contact.phone),
        Lid := OptStr(contact.lid),
        PushName := OptStr(contact.pushName),
        ProfilePictureMediaId := OptStr(contact.pictureMedia),
        BusinessDescription := OptStr(contact.description),
        AvatarUrl := OptStr(contact.avatarUrl),
        ProfilePictureUrl := OptStr(contact.pictureUrl)]
  }

  function ContactStatement(contact: Contact, channel: string): Statement {
    var key := Key(Contacts, [contact.id]);
    Upsert(key, AndFilled(key, ContactColumns(contact, channel), ContactFields(contact)))
  }

  function MinimalContactStatement(
    project: string, company: string, channel: string, id: string, name: Option<string>,
    phone: Option<string>): Statement
  {
    Upsert(Key(Contacts, [id]), map[
      ProjectId := Once(Str(project)),
      CompanyId := Once(Str(company)),
      ChannelAccountId := Once(Str(channel)),
      WaJid := Once(Str(id)),
      PhoneE164 := Coalesce(OptStr(phone)),
      DisplayName := Coalesce(Str(name.GetOr(id))),
      FirstContactAt := ClockOnce,
      LastContactAt := Clock(0),
      UpdatedAt := Clock(0)])
  }

  function GroupColumns(id: string, group: Group, project: string, company: string, channel: string): map<Column, Write>
  {
    map[ProjectId := Once(Str(project)),
        CompanyId := Once(Str(company)),
        ChannelAccountId := Overwrite(Str(channel)),
        WaJid := Overwrite(Str(group.waJid.GetOr(id))),
        UpdatedAt := Clock(0)]
  }

  function GroupFields(group: Group): map<Column, Field> {
    map[Subject := OptStr(group.subject),
        Description := OptStr(group.description),
        OwnerJid := OptStr(group.owner),
        SubjectOwnerJid := OptStr(group.subjectOwner),
        CreatedAtWa := OptTime(group.createdAt),
        ProfilePictureMediaId := OptStr(group.pictureMedia),
        AvatarUrl := OptStr(group.avatarUrl),
        ProfilePictureUrl := OptStr(group.pictureUrl),
        MembersCount := OptCount(group.members),
        AdminsCount := OptCount(group.admins)]
  }

  function GroupStatement(id: string, group: Group, project: string, company: string, channel: string): Statement {
    var key := Key(Groups, [id]);
    Upsert(key, AndFilled(key, GroupColumns(id, group, project, company, channel), GroupFields(group)))
  }

  function GroupMemberStatement(member: Member): Statement {
    Upsert(Key(GroupMembers, [member.group, member.contact]), map[
      WaJid := Coalesce(Str(member.waJid.GetOr(member.contact))),
      PhoneE164 := Coalesce(OptStr(member.phone)),
      Name := Coalesce(Str(member.name)),
      Role := Overwrite(Str(member.role)),
      IsAdmin := Overwrite(Some(Flag(member.admin))),
      JoinedAt := KeepFirst(Some(When(member.joinedAt))),
      UpdatedAt := Overwrite(Some(When(member.updatedAt)))])
  }

  function ConversationStatement(c: Conversation): Statement {
    Upsert(Key(Conversations, [c.id]), Given(c.columns + map[
      ProjectId := Str(c.project),
      CompanyId := Str(c.company),
      ChannelAccountId := Str(c.channel),
      ContactId := OptStr(c.contact),
      GroupId := OptStr(c.group),
      DisplayName := OptStr(c.name),
      DisplayPhone := OptStr(c.phone),
      AvatarUrl := OptStr(c.avatarUrl),
      ProfilePictureUrl := OptStr(c.pictureUrl)], {CreatedAt}))
  }

  function MessageStatement(m: Message): Statement {
    Upsert(Key(Messages, [m.id]), Given(m.columns + map[
      ProjectId := Str(m.project),
      CompanyId := Str(m.company),
      ChannelAccountId := Str(m.channel),
      SenderContactId := OptStr(m.sender),
      SenderDisplayName := OptStr(m.senderName)],
      {ProjectId, CompanyId, ConversationId, ChannelAccountId, Direction, MessageType, CreatedAtWa, CreatedAt}))
  }

  /** The tables whose records are written column by column. */
  function RecordStatement(table: Table, fixed: set<Column>, clocks: map<Column, Time>, r: Record): Statement
    requires forall c :: c in clocks ==> IsClock(Key(table, r.id), c)
    requires table !in {ChannelAccounts, Contacts, Groups, GroupMembers}
  {
    Upsert(Key(table, r.id),
           Given(r.columns + map[ProjectId := Str(r.project), CompanyId := Str(r.company)],
                 fixed + {ProjectId, CompanyId}) +
           map c | c in clocks :: Clock(clocks[c]))
  }

  /** ON CONFLICT DO NOTHING. */
  function AttemptStatement(r: Record): Statement {
    Upsert(Key(WebhookDeliveryAttempts, r.id), Given(r.columns, r.columns.Keys))
  }

  /** The calls of persist_relational. */
  datatype Call =
    | UpsertProject(id: string, name: string, status: string)
    | UpsertCompany(project: string, id: string, name: string, status: string)
    | UpsertChannel(id: string, project: string, company: string, provider: string, phone: Option<string>,
                    labelled: Option<string>, status: string, connectedAt: Option<Time>)
    | UpsertContact(contact: Contact, channel: string)
    | UpsertMinimalContact(project: string, company: string, channel: string, id: string, shown: Option<string>,
                           phone: Option<string>)
    | UpsertGroup(id: string, group: Group, project: string, company: string, channel: string)
    | UpsertGroupMember(member: Member)
    | PersistConversation(conversation: Conversation)
    | PersistMessage(message: Message)
    | PersistMedia(record: Record)
    | PersistTranscript(record: Record)
    | PersistDirty(record: Record)
    | PersistDirtyLease(record: Record)
    | PersistConsumerState(record: Record)
    | PersistIdempotency(record: Record)
    | PersistCallback(record: Record)
    | PersistAttempt(record: Record)

  function StatementOf(call: Call): Statement {
    match call
    case UpsertProject(id, name, status) => ProjectStatement(id, name, status)
    case UpsertCompany(project, id, name, status) => CompanyStatement(project, id, name, status)
    case UpsertChannel(id, project, company, provider, phone, labelled, status, at) =>
      ChannelStatement(id, project, company, provider, phone, labelled, status, at)
    case UpsertContact(contact, channel) => ContactStatement(contact, channel)
    case UpsertMinimalContact(project, company, channel, id, name, phone) =>
      MinimalContactStatement(project, company, channel, id, name, phone)
    case UpsertGroup(id, group, project, company, channel) => GroupStatement(id, group, project, company, channel)
    case UpsertGroupMember(member) => GroupMemberStatement(member)
    case PersistConversation(conversation) => ConversationStatement(conversation)
    case PersistMessage(message) => MessageStatement(message)
    case PersistMedia(r) => RecordStatement(MediaObjects, {CreatedAt}, map[], r)
    case PersistTranscript(r) =>
      RecordStatement(Transcripts, {MessageId, Provider, Model, Language, CreatedAt}, map[], r)
    case PersistDirty(r) => RecordStatement(DirtyConversations, {}, map[UpdatedAt := 0], r)
    case PersistDirtyLease(r) => RecordStatement(DirtyConversationLeases, {}, map[UpdatedAt := 0], r)
    case PersistConsumerState(r) =>
      RecordStatement(ConsumerProcessingState, {}, map[UpdatedAt := 0, LastProcessedAt := 0], r)
    case PersistIdempotency(r) =>
      RecordStatement(IdempotencyKeys, {}, map[UpdatedAt := 0, ExpiresAt := 72 * 3600 * SECOND], r)
    case PersistCallback(r) => RecordStatement(ConsumerCallbacks, {}, map[UpdatedAt := 0], r)
    case PersistAttempt(r) => AttemptStatement(r)
  }

  function Statements(calls: seq<Call>): seq<Statement> {
    seq(|calls|, i requires 0 <= i < |calls| => StatementOf(calls[i]))
  }

  // ---------------------------------------------------------------------
  // The pass

  /** The calls of a for loop over xs. */
  function Each<T>(xs: seq<T>, body: T -> seq<Call>): (calls: seq<Call>)
    ensures forall c :: c in calls <==> exists x :: x in xs && c in body(x)
  {
    if xs == [] then [] else
      assert xs == [xs[0]] + xs[1..];
      body(xs[0]) + Each(xs[1..], body)
  }

  function Map<A, B>(xs: seq<A>, f: A -> B): (ys: seq<B>)
    ensures |ys| == |xs| && forall i :: 0 <= i < |xs| ==> ys[i] == f(xs[i])
  {
    seq(|xs|, i requires 0 <= i < |xs| => f(xs[i]))
  }

  function MentionProject(id: Option<string>): seq<Call> {
    if id.None? then [] else [UpsertProject(id.value, id.value, "active")]
  }

  function MentionCompany(at: Option<(string, string)>): seq<Call> {
    if at.None? then [] else [UpsertCompany(at.value.0, at.value.1, at.value.1, "active")]
  }

  /** at is (channel, project, company). */
  function MentionChannel(store: Store, at: (string, string, string)): seq<Call> {
    [UpsertChannel(at.0, at.1, at.2, "whatsapp-rust", None, Some("WhatsApp"), ChannelStatus(store, at.0),
                   ChannelConnectedAt(store, at.0))]
  }

  function ConfiguredProject(p: ProjectEntry): seq<Call> {
    [UpsertProject(p.id, ValueStr(p.name).GetOr(p.id), ValueStr(p.status).GetOr("active"))]
  }

  /** The projects the later loops of persist_projects mention, in order. */
  function ProjectMentions(store: Store): seq<Option<string>> {
    Map(store.companies, (c: CompanyEntry) => Some(c.project)) +
    Map(store.channels, (c: ChannelEntry) => ValueStr(c.project)) +
    Map(store.conversations, (c: Conversation) => Some(c.project)) +
    Map(store.messages, (m: Message) => Some(m.project)) +
    Map(store.media, (m: Record) => Some(m.project)) +
    Map(store.transcripts, (t: Record) => Some(t.project)) +
    Map(store.dirty, (d: Record) => Some(d.project)) +
    Map(store.consumerState, (s: Record) => Some(s.project)) +
    Map(store.idempotency, (k: Record) => Some(k.project))
  }

  function ConfiguredCompany(c: CompanyEntry): seq<Call> {
    [UpsertCompany(c.project, c.id, ValueStr(c.name).GetOr(c.id), ValueStr(c.status).GetOr("active"))]
  }

  /** The companies the later loops of persist_companies mention, in order. */
  function CompanyMentions(store: Store): seq<Option<(string, string)>> {
    Map(store.channels, (c: ChannelEntry) =>
      var project, company := ValueStr(c.project), ValueStr(c.company);
      if project.Some? && company.Some? then Some((project.value, company.value)) else None) +
    Map(store.conversations, (c: Conversation) => Some((c.project, c.company))) +
    Map(store.messages, (m: Message) => Some((m.project, m.company))) +
    Map(store.dirty, (d: Record) => Some((d.project, d.company))) +
    Map(store.consumerState, (s: Record) => Some((s.project, s.company))) +
    Map(store.idempotency, (k: Record) => Some((k.project, k.company)))
  }

  function CompanyCalls(store: Store): seq<Call> {
    Each(store.companies, ConfiguredCompany) + Each(CompanyMentions(store), MentionCompany)
  }

  function ConfiguredChannel(c: ChannelEntry): seq<Call> {
    var project, company := ValueStr(c.project).GetOr("default"), ValueStr(c.company).GetOr("default");
    MentionProject(Some(project)) + MentionCompany(Some((project, company))) +
    [UpsertChannel(c.id, project, company, ValueStr(c.provider).GetOr("whatsapp-rust"), ValueStr(c.phone),
                   ValueStr(c.name), ValueStr(c.status).GetOr("disconnected"), c.connectedAt)]
  }

  /** The channels the later loops of persist_channels mention, in order. */
  function ChannelMentions(store: Store): seq<(string, string, string)> {
    Map(store.conversations, (c: Conversation) => (c.channel, c.project, c.company)) +
    Map(store.messages, (m: Message) => (m.channel, m.project, m.company))
  }

  function CallsOfContact(store: Store, c: Contact): seq<Call> {
    var channel := ChannelForCompany(store, c.project, c.company);
    MentionChannel(store, (channel, c.project, c.company)) + [UpsertContact(c, channel)]
  }

  function ContactOfConversation(c: Conversation): seq<Call> {
    if c.contact.None? then []
    else [UpsertMinimalContact(c.project, c.company, c.channel, c.contact.value, c.name, c.phone)]
  }

  function SenderOfMessage(m: Message): seq<Call> {
    if m.sender.None? then []
    else [UpsertMinimalContact(m.project, m.company, m.channel, m.sender.value, m.senderName, None)]
  }

  function CallsOfGroup(store: Store, g: (string, Group)): seq<Call> {
    var (project, company, channel) := GroupContext(store.conversations, g.0);
    [UpsertGroup(g.0, g.1, project, company, channel)]
  }

  function GroupOfConversation(c: Conversation): seq<Call> {
    if c.group.None? then []
    else
      var group := Group(c.group, c.name, None, None, None, None, c.avatarUrl, c.pictureUrl, None, None, None);
      [UpsertGroup(c.group.value, group, c.project, c.company, c.channel)]
  }

  function GroupCalls(store: Store): seq<Call> {
    Each(store.groups, g => CallsOfGroup(store, g)) + Each(store.conversations, GroupOfConversation)
  }

  function GroupMemberCalls(store: Store): seq<Call> {
    Each(store.groupMembers, (g: (string, seq<Member>)) =>
      var (project, company, channel) := GroupContext(store.conversations, g.0);
      [UpsertGroup(g.0, GroupNamed(store.groups, g.0), project, company, channel)] +
      Each(g.1, (m: Member) =>
        [UpsertMinimalContact(project, company, channel, m.contact, Some(m.name), m.phone), UpsertGroupMember(m)]))
  }

  function RecordCalls(store: Store): seq<Call> {
    Each(store.conversations, (c: Conversation) => [PersistConversation(c)]) +
    Each(store.messages, (m: Message) => [PersistMessage(m)]) +
    Each(store.media, (m: Record) => [PersistMedia(m)]) +
    Each(store.transcripts, (t: Record) => [PersistTranscript(t)]) +
    Each(store.dirty, (d: Record) => [PersistDirty(d)]) +
    Each(store.dirtyLeases, (l: Record) => [PersistDirtyLease(l)]) +
    Each(store.consumerState, (s: Record) => [PersistConsumerState(s)]) +
    Each(store.idempotency, (k: Record) => [PersistIdempotency(k)])
  }

  function CallsOfCallback(c: Callback): seq<Call> {
    var project, company := ValueStr(c.project).GetOr("default"), ValueStr(c.company).GetOr("default");
    MentionProject(Some(project)) + MentionCompany(Some((project, company))) +
    [PersistCallback(Record([ValueStr(c.id).GetOr("callback_unknown")], project, company, c.columns))]
  }

  function RemainingCalls(store: Store): seq<Call> {
    Each(store.conversations, ContactOfConversation) + Each(store.messages, SenderOfMessage) +
    GroupCalls(store) + GroupMemberCalls(store) + RecordCalls(store)
  }

  /** persist_relational after the configured channels. */
  function AfterChannels(store: Store): seq<Call> {
    Each(ChannelMentions(store), at => MentionChannel(store, at)) +
      Each(store.contacts, c => CallsOfContact(store, c)) +
    RemainingCalls(store) + Each(store.callbacks, CallsOfCallback) +
      Each(store.attempts, (a: Record) => [PersistAttempt(a)])
  }

  /** persist_relational after the configured projects. */
  function AfterProjects(store: Store): seq<Call> {
    Each(ProjectMentions(store), MentionProject) + CompanyCalls(store) + Each(store.channels, ConfiguredChannel) +
      AfterChannels(store)
  }

  /** persist_relational */
  function Plan(store: Store): seq<Call> {
    Each(store.projects, ConfiguredProject) + AfterProjects(store)
  }
}
