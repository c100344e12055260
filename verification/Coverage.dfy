/** What persist_relational writes of a snapshot: which statements it issues, which rows they touch, and what is in the
    cells afterwards. */
module Coverage {
  import opened Wrappers
  import opened Tables
  import opened Upserts
  import opened Relational
  import opened Persisting

  // ---------------------------------------------------------------------
  // Every statement has its reason in the snapshot, and every reason its statement

  /** A record or a setting of the snapshot puts the company under the project, besides its own entry. */
  predicate MentionsCompany(store: Store, project: string, company: string) {
    || (exists c :: c in store.channels && ValueStr(c.project).GetOr("default") == project &&
                    ValueStr(c.company).GetOr("default") == company)
    || (exists c :: c in store.conversations && c.project == project && c.company == company)
    || (exists m :: m in store.messages && m.project == project && m.company == company)
    || (exists d :: d in store.dirty && d.project == project && d.company == company)
    || (exists s :: s in store.consumerState && s.project == project && s.company == company)
    || (exists k :: k in store.idempotency && k.project == project && k.company == company)
    || (exists c :: c in store.callbacks && ValueStr(c.project).GetOr("default") == project &&
                    ValueStr(c.company).GetOr("default") == company)
  }

  /** A conversation, a message or a contact uses the channel on behalf of the company. */
  predicate UsesChannelFor(store: Store, id: string, project: string, company: string) {
    || (exists c :: c in store.conversations && c.channel == id && c.project == project && c.company == company)
    || (exists m :: m in store.messages && m.channel == id && m.project == project && m.company == company)
    || (exists c :: c in store.contacts && c.project == project && c.company == company &&
                    ChannelForCompany(store, project, company) == id)
  }

  ghost predicate ProjectAsked(store: Store, id: string, name: string, status: string) {
    || (exists p :: p in store.projects && p.id == id && name == ValueStr(p.name).GetOr(id) &&
                    status == ValueStr(p.status).GetOr("active"))
    || (name == id && status == "active" && MentionsProject(store, id))
  }

  ghost predicate CompanyAsked(store: Store, project: string, id: string, name: string, status: string) {
    || (exists c :: c in store.companies && c.project == project && c.id == id &&
                    name == ValueStr(c.name).GetOr(id) && status == ValueStr(c.status).GetOr("active"))
    || (name == id && status == "active" && MentionsCompany(store, project, id))
  }

  /** The call is that of the entry. */
  predicate ConfiguredAs(c: ChannelEntry, call: Call) {
    && call.UpsertChannel? && c.id == call.id && call.project == ValueStr(c.project).GetOr("default")
    && call.company == ValueStr(c.company).GetOr("default")
    && call.provider == ValueStr(c.provider).GetOr("whatsapp-rust") && call.phone == ValueStr(c.phone)
    && call.labelled == ValueStr(c.name) && call.status == ValueStr(c.status).GetOr("disconnected")
    && call.connectedAt == c.connectedAt
  }

  predicate UsedAs(store: Store, call: Call) {
    && call.UpsertChannel? && UsesChannelFor(store, call.id, call.project, call.company)
    && call.provider == "whatsapp-rust" && call.phone == None && call.labelled == Some("WhatsApp")
    && call.status == ChannelStatus(store, call.id) && call.connectedAt == ChannelConnectedAt(store, call.id)
  }

  ghost predicate ChannelAsked(store: Store, call: Call) {
    (exists c :: c in store.channels && ConfiguredAs(c, call)) || UsedAs(store, call)
  }

  /** A conversation names the contact, a message its sender, or a group its member. */
  ghost predicate MinimalAsked(store: Store, call: Call)
    requires call.UpsertMinimalContact?
  {
    || (exists c :: c in store.conversations && c.contact == Some(call.id) && c.project == call.project &&
                    c.company == call.company && c.channel == call.channel && c.name == call.shown &&
                    c.phone == call.phone)
    || (exists m :: m in store.messages && m.sender == Some(call.id) && m.project == call.project &&
                    m.company == call.company && m.channel == call.channel && m.senderName == call.shown &&
                    call.phone == None)
    || (exists g, m :: g in store.groupMembers && m in g.1 && m.contact == call.id && call.shown == Some(m.name) &&
                       call.phone == m.phone &&
                       (call.project, call.company, call.channel) == GroupContext(store.conversations, g.0))
  }

  ghost predicate GroupAsked(store: Store, call: Call)
    requires call.UpsertGroup?
  {
    || (exists g :: g in store.groups && g == (call.id, call.group) &&
                    (call.project, call.company, call.channel) == GroupContext(store.conversations, g.0))
    || (exists c :: c in store.conversations && c.group == Some(call.id) && c.project == call.project &&
                    c.company == call.company && c.channel == call.channel &&
                    call.group == Group(Some(call.id), c.name, None, None, None, None, c.avatarUrl, c.pictureUrl, None,
                                        None, None))
    || (exists g :: g in store.groupMembers && g.0 == call.id && call.group == GroupNamed(store.groups, g.0) &&
                    (call.project, call.company, call.channel) == GroupContext(store.conversations, g.0))
  }

  function RecordOf(c: Callback): Record {
    Record([ValueStr(c.id).GetOr("callback_unknown")], ValueStr(c.project).GetOr("default"),
           ValueStr(c.company).GetOr("default"), c.columns)
  }

  /** The snapshot gives a reason for the call. */
  ghost predicate Asked(store: Store, call: Call) {
    match call
    case UpsertProject(id, name, status) => ProjectAsked(store, id, name, status)
    case UpsertCompany(project, id, name, status) => CompanyAsked(store, project, id, name, status)
    case UpsertChannel(_, _, _, _, _, _, _, _) => ChannelAsked(store, call)
    case UpsertContact(contact, channel) =>
      contact in store.contacts && channel == ChannelForCompany(store, contact.project, contact.company)
    case UpsertMinimalContact(_, _, _, _, _, _) => MinimalAsked(store, call)
    case UpsertGroup(_, _, _, _, _) => GroupAsked(store, call)
    case UpsertGroupMember(member) => exists g :: g in store.groupMembers && member in g.1
    case PersistConversation(c) => c in store.conversations
    case PersistMessage(m) => m in store.messages
    case PersistMedia(m) => m in store.media
    case PersistTranscript(t) => t in store.transcripts
    case PersistDirty(d) => d in store.dirty
    case PersistDirtyLease(l) => l in store.dirtyLeases
    case PersistConsumerState(s) => s in store.consumerState
    case PersistIdempotency(k) => k in store.idempotency
    case PersistCallback(r) => exists c :: c in store.callbacks && r == RecordOf(c)
    case PersistAttempt(a) => a in store.attempts
  }

  // Each loop issues only what is asked for.

  lemma {:induction false} ProjectsAsked(store: Store, call: Call)
    requires call in Each(store.projects, ConfiguredProject) || call in Each(ProjectMentions(store), MentionProject)
    ensures Asked(store, call)
  {
    if call in Each(store.projects, ConfiguredProject) {
      var p :| p in store.projects && call in ConfiguredProject(p);
    } else {
      ProjectLoopsMention(store, call);
    }
  }

  lemma {:induction false} CompanyMentionsMean(store: Store, project: string, company: string)
    ensures Some((project, company)) in CompanyMentions(store) ==> MentionsCompany(store, project, company)
    ensures MentionsCompany(store, project, company) ==>
              || Some((project, company)) in CompanyMentions(store)
              || (exists c :: c in store.channels && ValueStr(c.project).GetOr("default") == project &&
                              ValueStr(c.company).GetOr("default") == company)
              || (exists c :: c in store.callbacks && ValueStr(c.project).GetOr("default") == project &&
                              ValueStr(c.company).GetOr("default") == company)
  {
  }

  lemma {:induction false} CompaniesAsked(store: Store, call: Call)
    requires call in CompanyCalls(store)
    ensures Asked(store, call)
  {
    if call in Each(store.companies, ConfiguredCompany) {
      var c :| c in store.companies && call in ConfiguredCompany(c);
    } else {
      var at :| at in CompanyMentions(store) && call in MentionCompany(at);
      CompanyMentionsMean(store, at.value.0, at.value.1);
    }
  }

  lemma {:induction false} ConfiguredChannelsAsked(store: Store, call: Call)
    requires call in Each(store.channels, ConfiguredChannel)
    ensures Asked(store, call)
  {
    var c :| c in store.channels && call in ConfiguredChannel(c);
    ConfiguredChannelAsked(store, c, call);
  }

  lemma {:induction false} ConfiguredChannelAsked(store: Store, c: ChannelEntry, call: Call)
    requires c in store.channels && call in ConfiguredChannel(c)
    ensures Asked(store, call)
  {
    var project, company := ValueStr(c.project).GetOr("default"), ValueStr(c.company).GetOr("default");
    if call.UpsertProject? {
      assert MentionsProject(store, project);
    } else if call.UpsertCompany? {
      assert MentionsCompany(store, project, company);
    } else {
      assert ConfiguredAs(c, call);
    }
  }

  lemma {:induction false} ChannelMentionsMean(store: Store, at: (string, string, string))
    ensures at in ChannelMentions(store) <==>
            || (exists c :: c in store.conversations && at == (c.channel, c.project, c.company))
            || (exists m :: m in store.messages && at == (m.channel, m.project, m.company))
  {
  }

  lemma {:induction false} ChannelsAsked(store: Store, call: Call)
    requires call in Each(ChannelMentions(store), at => MentionChannel(store, at))
    ensures Asked(store, call)
  {
    var at :| at in ChannelMentions(store) && call in MentionChannel(store, at);
    ChannelMentionsMean(store, at);
  }

  lemma {:induction false} ContactsAsked(store: Store, call: Call)
    requires call in Each(store.contacts, c => CallsOfContact(store, c))
    ensures Asked(store, call)
  {
    var c :| c in store.contacts && call in CallsOfContact(store, c);
  }

  lemma {:induction false} MinimalContactsAsked(store: Store, call: Call)
    requires call in Each(store.conversations, ContactOfConversation) || call in Each(store.messages, SenderOfMessage)
    ensures Asked(store, call)
  {
    if call in Each(store.conversations, ContactOfConversation) {
      var c :| c in store.conversations && call in ContactOfConversation(c);
    } else {
      var m :| m in store.messages && call in SenderOfMessage(m);
    }
  }

  lemma {:induction false} GroupsAsked(store: Store, call: Call)
    requires call in GroupCalls(store)
    ensures Asked(store, call)
  {
  }

  lemma {:induction false} GroupMembersAsked(store: Store, call: Call)
    requires call in GroupMemberCalls(store)
    ensures Asked(store, call)
  {
  }

  lemma {:induction false} RecordsAsked(store: Store, call: Call)
    ensures call in RecordCalls(store) ==> Asked(store, call)
    ensures Asked(store, call) && (|| call.PersistConversation? || call.PersistMessage? || call.PersistMedia?
                                   || call.PersistTranscript? || call.PersistDirty? || call.PersistDirtyLease?
                                   || call.PersistConsumerState? || call.PersistIdempotency?) ==>
              call in RecordCalls(store)
  {
  }

  lemma {:induction false} CallbacksAsked(store: Store, call: Call)
    requires call in Each(store.callbacks, CallsOfCallback)
    ensures Asked(store, call)
  {
    var c :| c in store.callbacks && call in CallsOfCallback(c);
    CallbackAsked(store, c, call);
  }

  lemma {:induction false} CallbackAsked(store: Store, c: Callback, call: Call)
    requires c in store.callbacks && call in CallsOfCallback(c)
    ensures Asked(store, call)
  {
    var project, company := ValueStr(c.project).GetOr("default"), ValueStr(c.company).GetOr("default");
    if call.UpsertProject? {
      assert MentionsProject(store, project);
    } else if call.UpsertCompany? {
      assert MentionsCompany(store, project, company);
    }
  }

  // Each reason has its call.

  lemma {:induction false} ProjectsCalled(store: Store, call: Call)
    requires Asked(store, call) && call.UpsertProject?
    ensures call in Plan(store)
  {
    if p :| p in store.projects && p.id == call.id && call.name == ValueStr(p.name).GetOr(call.id) &&
            call.status == ValueStr(p.status).GetOr("active") {
      assert call in ConfiguredProject(p);
      assert call in Each(store.projects, ConfiguredProject);
    } else {
      ReasonsAreMentioned(store, call.id);
    }
  }

  lemma {:induction false} CompaniesCalled(store: Store, call: Call)
    requires Asked(store, call) && call.UpsertCompany?
    ensures call in AfterProjects(store)
  {
    if c :| c in store.companies && c.project == call.project && c.id == call.id &&
            call.name == ValueStr(c.name).GetOr(call.id) && call.status == ValueStr(c.status).GetOr("active") {
      assert call in ConfiguredCompany(c);
      assert call in Each(store.companies, ConfiguredCompany);
    } else {
      MentionedCompaniesCalled(store, call);
    }
  }

  lemma {:induction false} MentionedCompaniesCalled(store: Store, call: Call)
    requires call.UpsertCompany? && MentionsCompany(store, call.project, call.id)
    requires call.name == call.id && call.status == "active"
    ensures call in AfterProjects(store)
  {
    CompanyMentionsMean(store, call.project, call.id);
    if Some((call.project, call.id)) in CompanyMentions(store) {
      assert call in MentionCompany(Some((call.project, call.id)));
      assert call in CompanyCalls(store);
    } else if c :| c in store.channels && ValueStr(c.project).GetOr("default") == call.project &&
                   ValueStr(c.company).GetOr("default") == call.id {
      assert call in ConfiguredChannel(c);
      assert call in Each(store.channels, ConfiguredChannel);
    } else {
      var c :| c in store.callbacks && ValueStr(c.project).GetOr("default") == call.project &&
               ValueStr(c.company).GetOr("default") == call.id;
      assert call in CallsOfCallback(c);
      assert call in AfterChannels(store);
    }
  }

  lemma {:induction false} ChannelsCalled(store: Store, call: Call)
    requires ChannelAsked(store, call)
    ensures call in AfterProjects(store)
  {
    if UsedAs(store, call) {
      UsedChannelsCalled(store, call);
    } else {
      var c :| c in store.channels && ConfiguredAs(c, call);
      assert call in ConfiguredChannel(c);
      assert call in Each(store.channels, ConfiguredChannel);
    }
  }

  lemma {:induction false} UsedChannelsCalled(store: Store, call: Call)
    requires UsedAs(store, call)
    ensures call in AfterChannels(store)
  {
    var at := (call.id, call.project, call.company);
    assert call in MentionChannel(store, at);
    ChannelMentionsMean(store, at);
    if at in ChannelMentions(store) {
      assert call in Each(ChannelMentions(store), at => MentionChannel(store, at));
    } else {
      var c :| c in store.contacts && c.project == call.project && c.company == call.company &&
               ChannelForCompany(store, call.project, call.company) == call.id;
      assert call in CallsOfContact(store, c);
      assert call in Each(store.contacts, c => CallsOfContact(store, c));
    }
  }

  lemma {:induction false} ContactsCalled(store: Store, call: Call)
    requires Asked(store, call) && (call.UpsertContact? || call.UpsertMinimalContact?)
    ensures call in AfterChannels(store)
  {
    if call.UpsertContact? {
      assert call in CallsOfContact(store, call.contact);
      assert call in Each(store.contacts, c => CallsOfContact(store, c));
    } else if c :| c in store.conversations && call in ContactOfConversation(c) {
      assert call in Each(store.conversations, ContactOfConversation);
      assert call in RemainingCalls(store);
    } else if m :| m in store.messages && call in SenderOfMessage(m) {
      assert call in Each(store.messages, SenderOfMessage);
      assert call in RemainingCalls(store);
    } else {
      MembersCalled(store, call);
      assert call in RemainingCalls(store);
    }
  }

  lemma {:induction false} MembersCalled(store: Store, call: Call)
    requires || (&& call.UpsertMinimalContact?
                 && exists g, m :: g in store.groupMembers && m in g.1 && m.contact == call.id &&
                                   call.shown == Some(m.name) && call.phone == m.phone &&
                                   (call.project, call.company, call.channel) == GroupContext(store.conversations, g.0))
             || (&& call.UpsertGroup?
                 && exists g :: g in store.groupMembers && g.0 == call.id &&
                                call.group == GroupNamed(store.groups, g.0) &&
                                (call.project, call.company, call.channel) == GroupContext(store.conversations, g.0))
             || (call.UpsertGroupMember? && exists g :: g in store.groupMembers && call.member in g.1)
    ensures call in GroupMemberCalls(store)
  {
  }

  lemma {:induction false} GroupsCalled(store: Store, call: Call)
    requires Asked(store, call) && (call.UpsertGroup? || call.UpsertGroupMember?)
    ensures call in RemainingCalls(store)
  {
    if call in GroupCalls(store) {
    } else {
      MembersCalled(store, call);
    }
  }

  lemma {:induction false} CallbacksCalled(store: Store, call: Call)
    requires Asked(store, call) && (call.PersistCallback? || call.PersistAttempt?)
    ensures call in AfterChannels(store)
  {
  }

  /** persist_relational issues exactly the statements that the snapshot gives a reason for. */
  lemma {:induction false} PlanIsExact(store: Store, call: Call)
    ensures call in Plan(store) <==> Asked(store, call)
  {
    if call in Plan(store) {
      PlanIsAsked(store, call);
    }
    if Asked(store, call) {
      AskedIsPlanned(store, call);
    }
  }

  lemma {:induction false} PlanIsAskedFor(store: Store)
    ensures forall call :: call in Plan(store) <==> Asked(store, call)
  {
    forall call ensures call in Plan(store) <==> Asked(store, call) {
      PlanIsExact(store, call);
    }
  }

  lemma {:induction false} PlanIsAsked(store: Store, call: Call)
    requires call in Plan(store)
    ensures Asked(store, call)
  {
    if call in Each(store.projects, ConfiguredProject) || call in Each(ProjectMentions(store), MentionProject) {
      ProjectsAsked(store, call);
    } else if call in CompanyCalls(store) {
      CompaniesAsked(store, call);
    } else if call in Each(store.channels, ConfiguredChannel) {
      ConfiguredChannelsAsked(store, call);
    } else {
      AfterChannelsAsked(store, call);
    }
  }

  lemma {:induction false} AfterChannelsAsked(store: Store, call: Call)
    requires call in AfterChannels(store)
    ensures Asked(store, call)
  {
    if call in Each(ChannelMentions(store), at => MentionChannel(store, at)) {
      ChannelsAsked(store, call);
    } else if call in Each(store.contacts, c => CallsOfContact(store, c)) {
      ContactsAsked(store, call);
    } else if call in Each(store.callbacks, CallsOfCallback) {
      CallbacksAsked(store, call);
    } else if call in RemainingCalls(store) {
      RemainingAsked(store, call);
    }
  }

  lemma {:induction false} RemainingAsked(store: Store, call: Call)
    requires call in RemainingCalls(store)
    ensures Asked(store, call)
  {
    if call in GroupCalls(store) {
      GroupsAsked(store, call);
    } else if call in GroupMemberCalls(store) {
      GroupMembersAsked(store, call);
    } else if call in RecordCalls(store) {
      RecordsAsked(store, call);
    } else {
      MinimalContactsAsked(store, call);
    }
  }

  lemma {:induction false} AskedIsPlanned(store: Store, call: Call)
    requires Asked(store, call)
    ensures call in Plan(store)
  {
    if call.UpsertProject? {
      ProjectsCalled(store, call);
    } else if call.UpsertCompany? {
      CompaniesCalled(store, call);
    } else if call.UpsertChannel? {
      ChannelsCalled(store, call);
    } else {
      LaterCalled(store, call);
    }
  }

  lemma {:induction false} LaterCalled(store: Store, call: Call)
    requires Asked(store, call) && !call.UpsertProject? && !call.UpsertCompany? && !call.UpsertChannel?
    ensures call in AfterChannels(store)
  {
    if call.UpsertContact? || call.UpsertMinimalContact? {
      ContactsCalled(store, call);
    } else if call.UpsertGroup? || call.UpsertGroupMember? {
      GroupsCalled(store, call);
    } else if call.PersistCallback? || call.PersistAttempt? {
      CallbacksCalled(store, call);
    } else {
      RecordsAsked(store, call);
    }
  }

  // ---------------------------------------------------------------------
  // The rows a pass touches

  predicate IsProject(store: Store, id: string) {
    (exists p :: p in store.projects && p.id == id) || MentionsProject(store, id)
  }

  ghost predicate IsCompany(store: Store, id: string) {
    (exists c :: c in store.companies && c.id == id) || exists project :: MentionsCompany(store, project, id)
  }

  predicate IsChannel(store: Store, id: string) {
    || (exists c :: c in store.channels && c.id == id)
    || (exists c :: c in store.conversations && c.channel == id)
    || (exists m :: m in store.messages && m.channel == id)
    || (exists c :: c in store.contacts && ChannelForCompany(store, c.project, c.company) == id)
  }

  predicate IsContact(store: Store, id: string) {
    || (exists c :: c in store.contacts && c.id == id)
    || (exists c :: c in store.conversations && c.contact == Some(id))
    || (exists m :: m in store.messages && m.sender == Some(id))
    || (exists g, m :: g in store.groupMembers && m in g.1 && m.contact == id)
  }

  predicate IsGroup(store: Store, id: string) {
    || (exists g :: g in store.groups && g.0 == id)
    || (exists c :: c in store.conversations && c.group == Some(id))
    || (exists g :: g in store.groupMembers && g.0 == id)
  }

  predicate IsMember(store: Store, id: seq<string>) {
    exists g, m :: g in store.groupMembers && m in g.1 && id == [m.group, m.contact]
  }

  predicate IsRecord(records: seq<Record>, id: seq<string>) {
    exists r :: r in records && r.id == id
  }

  /** The snapshot has a record of the row, or mentions it. */
  ghost predicate InSnapshot(store: Store, key: Key) {
    match key.table
    case Projects => |key.id| == 1 && IsProject(store, key.id[0])
    case Companies => |key.id| == 1 && IsCompany(store, key.id[0])
    case ChannelAccounts => |key.id| == 1 && IsChannel(store, key.id[0])
    case Contacts => |key.id| == 1 && IsContact(store, key.id[0])
    case Groups => |key.id| == 1 && IsGroup(store, key.id[0])
    case GroupMembers => IsMember(store, key.id)
    case Conversations => exists c :: c in store.conversations && key.id == [c.id]
    case Messages => exists m :: m in store.messages && key.id == [m.id]
    case MediaObjects => IsRecord(store.media, key.id)
    case Transcripts => IsRecord(store.transcripts, key.id)
    case DirtyConversations => IsRecord(store.dirty, key.id)
    case DirtyConversationLeases => IsRecord(store.dirtyLeases, key.id)
    case ConsumerProcessingState => IsRecord(store.consumerState, key.id)
    case IdempotencyKeys => IsRecord(store.idempotency, key.id)
    case ConsumerCallbacks => exists c :: c in store.callbacks && key.id == [ValueStr(c.id).GetOr("callback_unknown")]
    case WebhookDeliveryAttempts => IsRecord(store.attempts, key.id)
  }

  /** The row a call is about. */
  function RowOf(call: Call): Key {
    match call
    case UpsertProject(id, _, _) => Key(Projects, [id])
    case UpsertCompany(_, id, _, _) => Key(Companies, [id])
    case UpsertChannel(id, _, _, _, _, _, _, _) => Key(ChannelAccounts, [id])
    case UpsertContact(contact, _) => Key(Contacts, [contact.id])
    case UpsertMinimalContact(_, _, _, id, _, _) => Key(Contacts, [id])
    case UpsertGroup(id, _, _, _, _) => Key(Groups, [id])
    case UpsertGroupMember(member) => Key(GroupMembers, [member.group, member.contact])
    case PersistConversation(c) => Key(Conversations, [c.id])
    case PersistMessage(m) => Key(Messages, [m.id])
    case PersistMedia(r) => Key(MediaObjects, r.id)
    case PersistTranscript(r) => Key(Transcripts, r.id)
    case PersistDirty(r) => Key(DirtyConversations, r.id)
    case PersistDirtyLease(r) => Key(DirtyConversationLeases, r.id)
    case PersistConsumerState(r) => Key(ConsumerProcessingState, r.id)
    case PersistIdempotency(r) => Key(IdempotencyKeys, r.id)
    case PersistCallback(r) => Key(ConsumerCallbacks, r.id)
    case PersistAttempt(r) => Key(WebhookDeliveryAttempts, r.id)
  }

  lemma {:induction false} StatementsAreAboutRows(call: Call)
    ensures StatementOf(call).key == RowOf(call)
  {
  }

  lemma {:induction false} AskedIsInSnapshot(store: Store, call: Call)
    requires Asked(store, call)
    ensures InSnapshot(store, RowOf(call))
  {
    if call.UpsertProject? || call.UpsertCompany? || call.UpsertChannel? {
      SettingIsInSnapshot(store, call);
    } else if call.UpsertContact? || call.UpsertMinimalContact? || call.UpsertGroup? || call.UpsertGroupMember? {
      PersonIsInSnapshot(store, call);
    }
  }

  lemma {:induction false} SettingIsInSnapshot(store: Store, call: Call)
    requires Asked(store, call) && (call.UpsertProject? || call.UpsertCompany? || call.UpsertChannel?)
    ensures InSnapshot(store, RowOf(call))
  {
    assert RowOf(call).id[0] == call.id;
  }

  lemma {:induction false} PersonIsInSnapshot(store: Store, call: Call)
    requires Asked(store, call)
    requires call.UpsertContact? || call.UpsertMinimalContact? || call.UpsertGroup? || call.UpsertGroupMember?
    ensures InSnapshot(store, RowOf(call))
  {
  }

  lemma {:induction false} RowHasCall(store: Store, key: Key) returns (call: Call)
    requires InSnapshot(store, key)
    ensures Asked(store, call) && RowOf(call) == key
  {
    if key.table in {Projects, Companies, ChannelAccounts} {
      call := SettingHasCall(store, key.table, key.id[0]);
      assert RowOf(call).id == key.id;
    } else if key.table in {Contacts, Groups} {
      call := PersonHasCall(store, key.table, key.id[0]);
      assert RowOf(call).id == key.id;
    } else if key.table in {GroupMembers, Conversations, Messages, MediaObjects, Transcripts} {
      call := RecordHasCall(store, key);
    } else {
      call := ConsumerHasCall(store, key);
    }
  }

  lemma {:induction false} SettingHasCall(store: Store, table: Table, id: string) returns (call: Call)
    requires table in {Projects, Companies, ChannelAccounts} && InSnapshot(store, Key(table, [id]))
    ensures Asked(store, call) && RowOf(call) == Key(table, [id])
  {
    match table
    case Projects =>
      assert IsProject(store, id);
      if p :| p in store.projects && p.id == id {
        call := ConfiguredProject(p)[0];
      } else {
        call := UpsertProject(id, id, "active");
      }
    case Companies =>
      assert IsCompany(store, id);
      if c :| c in store.companies && c.id == id {
        call := ConfiguredCompany(c)[0];
      } else {
        var project :| MentionsCompany(store, project, id);
        call := UpsertCompany(project, id, id, "active");
      }
    case ChannelAccounts =>
      assert IsChannel(store, id);
      if c :| c in store.channels && c.id == id {
        call := ConfiguredChannel(c)[2];
        assert ConfiguredAs(c, call);
      } else {
        call := UsedChannelHasCall(store, id);
      }
  }

  lemma {:induction false} UsedChannelHasCall(store: Store, id: string) returns (call: Call)
    requires IsChannel(store, id) && !(exists c :: c in store.channels && c.id == id)
    ensures UsedAs(store, call) && call.id == id
  {
    var at: (string, string, string);
    if c :| c in store.conversations && c.channel == id {
      at := (c.channel, c.project, c.company);
    } else if m :| m in store.messages && m.channel == id {
      at := (m.channel, m.project, m.company);
    } else {
      var c :| c in store.contacts && ChannelForCompany(store, c.project, c.company) == id;
      at := (id, c.project, c.company);
    }
    assert UsesChannelFor(store, at.0, at.1, at.2);
    call := MentionChannel(store, at)[0];
  }

  lemma {:induction false} PersonHasCall(store: Store, table: Table, id: string) returns (call: Call)
    requires if table == Contacts then IsContact(store, id) else table == Groups && IsGroup(store, id)
    ensures Asked(store, call) && RowOf(call) == Key(table, [id])
  {
    if table == Contacts {
      call := ContactHasCall(store, id);
    } else {
      call := GroupHasCall(store, id);
    }
  }

  lemma {:induction false} ContactHasCall(store: Store, id: string) returns (call: Call)
    requires IsContact(store, id)
    ensures Asked(store, call) && RowOf(call) == Key(Contacts, [id])
  {
    if c :| c in store.contacts && c.id == id {
      call := UpsertContact(c, ChannelForCompany(store, c.project, c.company));
    } else if c :| c in store.conversations && c.contact == Some(id) {
      call := UpsertMinimalContact(c.project, c.company, c.channel, id, c.name, c.phone);
    } else if m :| m in store.messages && m.sender == Some(id) {
      call := UpsertMinimalContact(m.project, m.company, m.channel, id, m.senderName, None);
    } else {
      var g, m :| g in store.groupMembers && m in g.1 && m.contact == id;
      var (project, company, channel) := GroupContext(store.conversations, g.0);
      call := UpsertMinimalContact(project, company, channel, id, Some(m.name), m.phone);
    }
  }

  lemma {:induction false} GroupHasCall(store: Store, id: string) returns (call: Call)
    requires IsGroup(store, id)
    ensures Asked(store, call) && RowOf(call) == Key(Groups, [id])
  {
    if g :| g in store.groups && g.0 == id {
      var (project, company, channel) := GroupContext(store.conversations, g.0);
      call := UpsertGroup(g.0, g.1, project, company, channel);
    } else if c :| c in store.conversations && c.group == Some(id) {
      var group := Group(Some(id), c.name, None, None, None, None, c.avatarUrl, c.pictureUrl, None, None, None);
      call := UpsertGroup(id, group, c.project, c.company, c.channel);
    } else {
      var g :| g in store.groupMembers && g.0 == id;
      var (project, company, channel) := GroupContext(store.conversations, g.0);
      call := UpsertGroup(g.0, GroupNamed(store.groups, g.0), project, company, channel);
    }
  }

  lemma {:induction false} RecordHasCall(store: Store, key: Key) returns (call: Call)
    requires InSnapshot(store, key) && key.table in {GroupMembers, Conversations, Messages, MediaObjects, Transcripts}
    ensures Asked(store, call) && RowOf(call) == key
  {
    match key.table
    case GroupMembers =>
      var g, m :| g in store.groupMembers && m in g.1 && key.id == [m.group, m.contact];
      call := UpsertGroupMember(m);
    case Conversations =>
      var c :| c in store.conversations && key.id == [c.id];
      call := PersistConversation(c);
    case Messages =>
      var m :| m in store.messages && key.id == [m.id];
      call := PersistMessage(m);
    case MediaObjects =>
      var m :| m in store.media && m.id == key.id;
      call := PersistMedia(m);
    case Transcripts =>
      var t :| t in store.transcripts && t.id == key.id;
      call := PersistTranscript(t);
  }

  lemma {:induction false} ConsumerHasCall(store: Store, key: Key) returns (call: Call)
    requires InSnapshot(store, key)
    requires key.table in {DirtyConversations, DirtyConversationLeases, ConsumerProcessingState, IdempotencyKeys,
                           ConsumerCallbacks, WebhookDeliveryAttempts}
    ensures Asked(store, call) && RowOf(call) == key
  {
    match key.table
    case DirtyConversations =>
      var d :| d in store.dirty && d.id == key.id;
      call := PersistDirty(d);
    case DirtyConversationLeases =>
      var l :| l in store.dirtyLeases && l.id == key.id;
      call := PersistDirtyLease(l);
    case ConsumerProcessingState =>
      var s :| s in store.consumerState && s.id == key.id;
      call := PersistConsumerState(s);
    case IdempotencyKeys =>
      var k :| k in store.idempotency && k.id == key.id;
      call := PersistIdempotency(k);
    case ConsumerCallbacks =>
      var c :| c in store.callbacks && key.id == [ValueStr(c.id).GetOr("callback_unknown")];
      call := PersistCallback(RecordOf(c));
    case WebhookDeliveryAttempts =>
      var a :| a in store.attempts && a.id == key.id;
      call := PersistAttempt(a);
  }

  /** A pass touches a row of any of the sixteen tables if and only if the snapshot has a record of it or mentions it;
      so exactly those rows are there afterwards, besides what was there before. */
  lemma {:induction false} TouchesSnapshot(store: Store, key: Key)
    ensures Touches(Statements(Plan(store)), key) <==> InSnapshot(store, key)
  {
    var calls := Plan(store);
    TouchesByCall(calls, key);
    if Touches(Statements(calls), key) {
      var c :| c in calls && StatementOf(c).key == key;
      PlanIsExact(store, c);
      StatementsAreAboutRows(c);
      AskedIsInSnapshot(store, c);
    }
    if InSnapshot(store, key) {
      var c := RowHasCall(store, key);
      PlanIsExact(store, c);
      StatementsAreAboutRows(c);
    }
  }

  /** So a whole pass leaves exactly the rows of the snapshot, besides what was there before. */
  lemma {:induction false} RowsAfterPass(store: Store, rows: Rows, clock: nat -> Time, from: nat, key: Key)
    ensures key in Pass(rows, Statements(Plan(store)), clock, from) <==> key in rows || InSnapshot(store, key)
  {
    TouchesSnapshot(store, key);
    NetIsExact(rows, Statements(Plan(store)), clock, from, key, UpdatedAt);
  }
}
