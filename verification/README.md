# Verified model of the WhatsApp gateway's event pipeline and its neighbours

This project models the parts of the gateway that other parts rely on without looking: the durable event pipeline
between PostgreSQL and Kafka, the rate limiter, the WhatsApp channel manager, cursor paging with bounded search, the
payload gate in front of the broker, and the relational copy of the snapshot. Everything is stated for all inputs, all
interleavings or all reachable states. `dafny verify dfyconfig.toml` checks it.

## The event pipeline

An event is written to `event_outbox`, claimed under a lease by a publisher, appended to the broker's log, delivered to
consumer groups and recorded in `event_inbox`; failures end in `kafka_deadletters`, from which they can be replayed.

* `Tables` has the rows and every SQL statement as a function on table contents, with SQL's three-valued logic (`Sql`)
  for the claim predicate. `MetadataDb` is the same store as a class: one method per statement or transaction.
* `Pipeline` is the step system: a clock, any number of publishers and consumers with program counters, and one step for
  each place where something else can happen in between - enqueue, claim, send (acknowledged, appended with the
  acknowledgement lost, or not appended), each mark, each deadletter insert, crash, delivery, inbox check, handler,
  inbox mark, commit, replay. A statement may fail wherever the source only logs the failure.
* `Safety` proves one invariant over every interleaving and reads off no-loss, never-stuck, commit soundness, consumer
  conservation, snapshot coverage and the absence of raw media on the broker.
* `Topics` shows that the required topics are exactly the ones in use, which types go to each, and that work goes to one
  worker group. `Broker` shows over all runs that no oversized record reaches the log and that all records of one
  conversation and topic lie in one partition.
* `Dedupe`, `Leases`, `Published`, `Retries` and `Replays` restrict the steps by a rule that says under which
  operating conditions a stronger property holds; where the property is about one event, so is the rule. `Progress`,
  `Starvation` and `Pace` look at one publisher loop as a sequence of timed rounds.
* `Publishing` and `Consuming` show that every branch of `publish_outbox_record` and `consume_one_message_with_inbox`
  is a sequence of allowed steps, and `Workers` has the two as methods on mutable state with exactly those effects.

What the properties show about the code:

* Marks are keyed on `event_id` alone, so published is not terminal: `Counterexamples.PublishedIsNotTerminal` takes a
  published row back to `failed` by a stale worker. `Published.PublishedEndsExactly` says which steps do that from any
  state, and `Published.OnlyReplayTakesBack` that among timely steps only a replay does.
* A row can be `deadlettered` with nothing left to replay, in three ways: its deadletter insert fails, which is only
  logged (`Counterexamples.DeadletteredWithoutRecord`, at any retry limit that `attempt_count` can reach; which calls
  do this is `Replays.CallLosesRecordExactly`); the worker crashes between the mark of a refused event and its insert;
  or an operator replays the record after the exhausted branch has inserted it and before it marks the row, while the
  worker waits for the deadletter topic (`Counterexamples.ReplayInBetweenLosesRecord`). `Replays.RecordEndsExactly` says
  of which steps, in which states, this is true, and `Replays.DeadletteredIsOnRecord` that runs without them keep an
  unreplayed record.
* A payload that does not decode is retried every 60 seconds for good, never deadlettered, and keeps its place in the
  order. With fewer such rows ahead than one round claims, a row is claimed within a bound that depends neither on the
  broker nor on the time between rounds; with as many, rounds that lie a minute or more apart can pass it by for good
  (`Starvation.StarvationIsExact`). The loop claims again at once after a batch, though, and within a minute an
  undecodable row is claimed only once: a minute's rounds claim the row as soon as their limits add up to more than the
  work and the undecodable rows ahead, however many (`Pace.PromptRoundsClaim`). At m rounds to the minute the row can be
  starved exactly when at least m times the limit of such rows are ahead (`Pace.StarvationAtPaceIsExact`).
* Replay does not reset `attempt_count`: an event that ran out of retries gets one more try, and is deadlettered again
  if that fails (`Replays.ReplayGivesOneTry`).
* Every send is accounted for in every run (`Retries.SendsAreAccounted`). While an event is not marked late, replayed or
  revived, any send of it beyond the retry limit is one whose outcome did not reach the row (`Retries.SendsAreBounded`).
* So is every handler run (`Dedupe.RunsAreAccounted`): a group's handler runs on an event at most once more than it
  ended without an inbox row, because of a crash or a failed statement. This holds of every deployment in which an event
  id stands for one type, conversation and channel (`Dedupe.DeploymentsDedupe`).

## The others

* `RateLimit`: `check` refines a call history. The clock is read before the lock is taken, so minutes may be seen out of
  order; the bound per minute holds of a sequence of minutes exactly when no minute returns after a different one
  (`RateLimit.BoundIsExact`, with `RateLimit.LateCallBreaksBound` as the shortest instance).
* `Reconnect` and `Supervisors`/`ChannelTasks`: reconnect bookkeeping against its history, and start/stop as
  concurrent steps. A channel never has more than one client task that has neither ended nor been aborted; an aborted
  task runs on to its next await, so beyond the model two may overlap for that long. A `stop_channel`, which does not
  take `start_lock`, can be outrun - the channel becomes active again without another call to start it - exactly when
  some start of the channel is under way: waiting for the lock, holding it, past its check, or with its task spawned
  and still running.
* `Paging`: following cursors gives back the list; bounded search pages like the first 5000 matches. Its `total` is
  that of the window exactly when the look-ahead of offset + limit + 1 matches reaches the end of the window, and is
  too small otherwise. The store sorts the matches it hands over after cutting them off, so searching it pages the
  first 5000 matches exactly when those are stored in order, and following its cursors from the start yields them all
  in stored order, whatever the limit, exactly then (`StoreSearch`).
* `PayloadGate` and `PayloadOrder`: the two recursive gates agree, and the field they report is the first forbidden key
  in pre-order, both as the head of a list of all paths and by an order on places in the tree.
* `Upserts`, `Relational`, `Persisting`, `RelationalDb`: a pass of `persist_relational` is a list of upserts, and what a
  list of upserts does to one cell is a single effect. A second pass moves only clock columns, plus `connected_at` in
  one case that is characterised exactly: the insert stores `connected_at` as it is, the conflict clause clears it
  unless the channel is connected. A pass that broke off is healed by the next one. A project's configured name is
  overwritten by its id as soon as anything mentions the project, and a channel's label by "WhatsApp" as soon as
  anything uses the channel (`Persisting.ProjectNames`, `Persisting.ChannelLabels`).
* `Coverage` says which statements a pass issues and which rows of the sixteen tables it touches, both as an if and only
  if over the snapshot. `Cells` says what the rows with one record hold afterwards, column by column; `Voices`,
  `GroupCells` and `SettingCells` whose word counts where several records write a row: a contact's name is the last
  one any group, message or conversation has for it, a company goes by its id as soon as anything mentions it, and a
  conversation without a member list replaces the jid of a group's entry by the group's id.

What the outside decides is a parameter: whether the database and the broker answer (`reached`, `io`), which rows a
`SELECT .. LIMIT` picks among those it may pick (`choice`), readings of the clock, the sizes of encoded values, the
partitioner, and which stored payloads the running build can read back.

## Model

| member | source | states |
|---|---|---|
| `PayloadGate.GateAgreement` | src/eventbus.rs:718-805 | the detector and the field finder agree on every JSON tree; the field found is the spelling of the first forbidden path in pre-order |
| `PayloadGate.PathsAreExact` | src/eventbus.rs:778-805 | the pre-order list holds exactly the paths that resolve to a forbidden key |
| `PayloadGate.GateMeans` | src/eventbus.rs:718-730 | the gate closes exactly when some object at any depth has an entry named bytes, file_bytes, raw_media or body |
| `PayloadGate.ContainsBytesIsExact` | src/eventbus.rs:718-730 | the detector is true exactly when some path, at any depth, leads to a forbidden key |
| `PayloadGate.FindIsFirst` | src/eventbus.rs:778-805 | the depth-first search with its rendered path finds the first of those paths, or none when there is none |
| `PayloadOrder.ReportsFirstPlace` | src/eventbus.rs:778-805 | the reported field spells a place that leads to a forbidden key and precedes every other such place in pre-order; nothing is reported exactly when there is none |
| `PayloadOrder.PlaceIsPath` | src/eventbus.rs:778-805 | the names along a place that leads to a forbidden key are a path that does |
| `PayloadOrder.PathHasPlace` | src/eventbus.rs:778-805 | every path that leads to a forbidden key is that of some place |
| `PayloadGate.PathIsSpelled` | src/eventbus.rs:783-799 | how a place is spelled: keys after a dot, the first one bare, indices in brackets, in decimal |
| `EventBus.EncodersKeepMediaOut` | src/eventbus.rs:732-772 | whatever either encoder accepts has no forbidden key at any depth of its event payload, and a refusal names the first one |
| `EventBus.EncodeEventIsExact` | src/eventbus.rs:732-751 | an event is accepted, as itself, if and only if no path leads to a forbidden key and its bytes are within message_max_bytes; a clean one that is too large is answered with its size and the limit |
| `EventBus.EncodeDeadletterIsExact` | src/eventbus.rs:753-772 | the same of an envelope: the gate looks at the event inside, the limit at the whole |
| `EventBus.DecodeUndoesEncode` | src/eventbus.rs:774-776 | an encoded event decodes to itself in a build that reads it back, an encoded envelope never to an event |
| `EventBus.KeysTellConversations` | src/eventbus.rs:705-716 | within a company two keys are equal if and only if the conversations are, whatever the channels; without conversations, if and only if the channels are; with neither the key is project and company, and no other event of the company has it |
| `EventBus.KeyIsSpelled` | src/eventbus.rs:705-716 | project, company and then the conversation, or else the channel |
| `Broker.SendsFit` | src/eventbus.rs:506-531 | whatever a publisher sends is clean and within the limit |
| `Broker.NothingOversized` | src/eventbus.rs:732-772 | in every run whatever no record of the log, event or envelope, is larger than message_max_bytes |
| `Broker.RefusedIsNeverSent` | src/eventbus.rs:506-530 | a call on an oversized event or one with raw media leaves the log alone, deadletters the row and files the event with one attempt more |
| `Broker.ExhaustedIsFiled` | src/eventbus.rs:545-565 | a failed send files the event exactly when the attempts are used up, with their number, the error, and the topic and key it was for |
| `Broker.StepStaysKeyed` | src/eventbus.rs:705-716 | every step keeps each row, claim and record under the topic and key of its own event |
| `Broker.ConversationsStayTogether` | src/eventbus.rs:705-716 | over every run, retries, replays and duplicates included: two records of one topic whose events belong to one conversation lie in one partition, whatever the channels; likewise of one channel without a conversation |
| `Broker.RecordsAreKeyedByConversation` | src/eventbus.rs:705-716 | two records of a company's conversations carry the same key if and only if the conversation is the same |
| `Topics.TopicsAreRequired` | src/eventbus.rs:616-688 | the topics required at start are exactly those some event type goes to, the deadletter topic and the retry topic |
| `Topics.WorkGoesToOneGroup` | src/workers.rs:23-57 | an event with work to do is read by exactly one worker group, the one for its type; the sending and transcription topics carry nothing else |
| `Topics.GroupSuffix` | src/eventbus.rs:651-651 | every event type with the prefix goes to the group topic |
| `Topics.MessageTypes` | src/eventbus.rs:638-639 | exactly the seven message types go to the persisted-message topic |
| `Topics.ConversationTypes` | src/eventbus.rs:645-645 | exactly reads and updates go to the conversation event topic |
| `Topics.ReceiptTypes` | src/eventbus.rs:646-646 | exactly receipts go to the delivery receipt topic |
| `Topics.DirtyTypes` | src/eventbus.rs:644-644 | exactly dirty marks go to the dirty conversation topic |
| `Topics.DownloadTypes` | src/eventbus.rs:640-640 | exactly download requests go to the media download topic |
| `Topics.MediaTypes` | src/eventbus.rs:641-641 | exactly stored media go to the stored media topic |
| `Topics.TranscribedTypes` | src/eventbus.rs:643-643 | exactly transcribed audio and completed transcripts go to the transcribed topic |
| `Topics.StatusTypes` | src/eventbus.rs:647-649 | exactly the four channel states go to the channel status topic |
| `Topics.ContactTypes` | src/eventbus.rs:650-650 | exactly contact updates go to the contact topic |
| `Topics.PrefixedTypes` | src/eventbus.rs:651-652 | the group and websocket topics take exactly the types with their prefix |
| `Topics.SystemTypes` | src/eventbus.rs:653-660 | the system topic takes exactly the ignored types, by ending, prefix or name, that are not a group's or a websocket's |
| `Tables.ClaimableMeans` | src/db.rs:164-184 | the claim predicate under three-valued logic: what a NULL lease does in each status |
| `Tables.EventuallyClaimable` | src/db.rs:169-182 | a row becomes claimable and stays so once its timers have passed, if and only if it is in the backlog and not publishing with a NULL lease; otherwise it never is |
| `Tables.PersistAddsMissing` | src/db.rs:594-617 | re-persisting any event list leaves every existing row as it is and adds exactly the missing ids |
| `Tables.PersistQueuesFirst` | src/db.rs:594-617 | each added row is queued and is that of the first event in the list with its id |
| `Tables.PersistTwice` | src/db.rs:575-622 | persisting the same snapshot again changes nothing |
| `Tables.PersistedIsClaimable` | src/db.rs:594-617 | each event a snapshot adds is claimable from that very moment on, never tried, never leased, under its own topic, key, type and payload |
| `Tables.InsertRequeues` | src/db.rs:122-156 | when an inserted event is due: at once if new, when its old lease and timer have run out if it was there, never if published; and what it takes over |
| `Tables.ClaimLeases` | src/db.rs:186-211 | a claimed row is out of reach until exactly its lease end, and is returned as it was |
| `Tables.FinalMarksEnd` | src/db.rs:213-292 | published and deadlettered rows are never claimable; what the two marks record and keep |
| `Tables.FailedIsDueAfterDelay` | src/db.rs:241-267 | a failed row is claimable exactly from its delay on, of a second at least |
| `Tables.RequeuedIsClaimable` | src/db.rs:499-536 | a replayed row is claimable from that moment on, with its old count, under its event's topic and key |
| `Tables.DeadlettersAreReplayable` | src/db.rs:307-341 | a filed row carries its envelope's event, count and error, can be replayed exactly if the event reads back, and never once stamped |
| `Tables.BacklogConservation` | src/db.rs:294-305 | backlog count, published rows and deadlettered rows add up to the table |
| `Tables.InboxTestMeans` | src/db.rs:343-374 | the duplicate test asks for a row of the group with this event or at this offset; the unique offset is another event's row there |
| `Tables.MarkedIsProcessed` | src/db.rs:376-407 | a mark makes the test find its event and its offset, in its group, and nothing else |
| `MetadataDb.MetadataDb.InsertEventOutbox` | src/db.rs:122-156 | upsert that re-queues all but a published row and keeps lease, timers and count |
| `MetadataDb.MetadataDb.ClaimEventOutboxBatch` | src/db.rs:158-211 | for any choice the SELECT may make among the rows not locked elsewhere: leases exactly the chosen rows and returns them as they were; a claimable row is left out only by a full claim of rows that became available earlier, or then and were created no later |
| `MetadataDb.MetadataDb.MarkEventOutboxPublished` | src/db.rs:213-239 | published with its position, one attempt more, lease kept; nothing on failure or integer overflow |
| `MetadataDb.MetadataDb.MarkEventOutboxFailed` | src/db.rs:241-267 | failed, one attempt more, lease cleared, due after the delay; nothing on failure |
| `MetadataDb.MetadataDb.MarkEventOutboxDeadlettered` | src/db.rs:269-292 | deadlettered, one attempt more, lease cleared; nothing on failure |
| `MetadataDb.MetadataDb.InsertKafkaDeadletter` | src/db.rs:307-341 | one new row with the envelope's event, or no change |
| `MetadataDb.MetadataDb.EventInboxProcessed` | src/db.rs:343-372 | true exactly when the group has the event id or the offset on record |
| `MetadataDb.MetadataDb.MarkEventInboxProcessed` | src/db.rs:374-407 | records the event at its offset, and fails when another event of the group sits at that offset |
| `MetadataDb.MetadataDb.ReplayKafkaDeadletter` | src/db.rs:474-550 | which of the three results it gives, and the re-queued row and stamp of a success; otherwise no change |
| `MetadataDb.MetadataDb.PersistSnapshotAndOutbox` | src/db.rs:575-622 | all or nothing; after a commit the outbox covers the snapshot, each new event is queued and claimable at once, and no existing row has changed |
| `Pipeline.Invariance` | src/eventbus.rs:446-584 | what every permitted step keeps holds at the end of every run of the step system |
| `Safety.StepKeeps` | src/eventbus.rs:480-584 | every step of every worker keeps the invariant of all tables, workers and the log, and takes back no row, record, commit or deadletter |
| `Safety.NoLoss` | src/db.rs:158-305 | in every interleaving no row disappears, every row is in the backlog, published or deadlettered, published rows have a position, and every recorded position is a log record of that event |
| `Safety.NeverStuck` | src/db.rs:169-182 | in every reachable state a publishing row has a lease, and every backlog row is claimable at every time after its timers |
| `Safety.CommitsAreSound` | src/eventbus.rs:1081-1130 | a committed offset's event is in the group's inbox, and each inbox row names a log record of its own event and shares its offset with no other |
| `Safety.DuplicateTestIsExact` | src/db.rs:343-372 | for a delivered record the "event id or offset" test is true exactly when this event was recorded before |
| `Safety.InboxRowsAreSettled` | src/workers.rs:115-159 | every inbox row has a successful handler run of its group or a deadletter row that the group's handler inserted for that event |
| `Safety.NoRawMediaOnTheBroker` | src/eventbus.rs:732-772 | in every reachable state no record of the log has a forbidden key at any depth of its event payload |
| `Safety.OutboxCoversSnapshot` | src/db.rs:575-622 | at every moment every event of the last committed snapshot has an outbox row |
| `Dedupe.OneSlotPerEvent` | src/eventbus.rs:705-716 | with topic and key functions of the event, two consumers of a group that hold the same event are the same |
| `Dedupe.NoRunOnceRecorded` | src/eventbus.rs:1087-1110 | once an event is in a group's inbox no step runs that group's handler on it |
| `Dedupe.HandledAtMostOnce` | src/eventbus.rs:1081-1130 | over every run, however many copies are on the log: at most one inbox insert per group and event, and no handler run after it |
| `Dedupe.RunsAreAccounted` | src/eventbus.rs:1087-1130 | in every run whatever, the handler runs of a group on an event are exactly those followed by the inbox insert, those that left no inbox row because of a crash or a failed statement, and those whose insert is next |
| `Dedupe.RunsAreBounded` | src/eventbus.rs:1087-1130 | in every routed run a handler runs on an event at most once more than it left no inbox row |
| `Dedupe.DeploymentsDedupe` | src/eventbus.rs:634-716 | with the topics and keys of topic_for_event and partition_key, in every run in which an event id stands for one type, conversation and channel: at most one inbox insert per group and event, and at most one handler run more than were left unmarked |
| `Leases.HeldIsNotClaimable` | src/db.rs:169-182 | an event that a claim still holds is leased, so no other claim can take it |
| `Leases.StepKeepsBacking` | src/db.rs:122-211 | every timely step, one whose mark, if it lands, was issued before its lease ended, keeps each live hold backed by the row's lease columns, a re-insert in the middle of a lease included |
| `Leases.HoldsAreExclusive` | src/db.rs:158-211 | in every timely run no event is held by two claims at once |
| `Leases.MarksActAsGuarded` | src/db.rs:213-292 | in every timely run each mark does what the same statement guarded by locked_by would do |
| `Published.PublishedEndsExactly` | src/db.rs:213-292 | from any state a published row leaves that status if and only if the step is a replay of the event or a mark of it that lands and does not confirm the publish |
| `Published.StepKeepsBacklog` | src/db.rs:158-292 | every timely step keeps each event whose claim still holds in the backlog |
| `Published.OnlyReplayTakesBack` | src/db.rs:213-292 | in every timely run the next timely step takes a published row back if and only if it is a replay of the event |
| `Published.PublishedIsTerminal` | src/db.rs:213-292 | in every timely run a published event stays published through every continuation without a replay of it |
| `Retries.BackoffBounds` | src/eventbus.rs:566-581 | the backoff lies in 10..320 seconds and does not decrease with the attempts |
| `Retries.TotalBackoffClosedForm` | src/eventbus.rs:566-581 | the sum of the first n backoffs in closed form |
| `Retries.SendsAreAccounted` | src/eventbus.rs:531-581 | in every run, crashes and failed marks included, the sends of an event are at most its marked attempts, those lost to a crash or a failed mark, and those in flight |
| `Retries.SendsAreBounded` | src/eventbus.rs:545-581 | in every run in which this one event is not marked late, replayed or revived, it is sent at most max(1, retry_max_attempts) times plus the sends whose outcome was lost or is with a worker past its lease |
| `Retries.BackoffsAreWaitedOut` | src/db.rs:241-267 | in every such run any claim of the event with n attempts has waited at least the sum of the first n backoffs |
| `Retries.RetriesAreScheduled` | src/eventbus.rs:566-581 | in every such run a failed send that is not the last leaves the row failed, below the limit, and due after the backoff of its attempts |
| `Publishing.CallIsSteps` | src/eventbus.rs:480-584 | every branch of publish_outbox_record is a run of allowed steps that ends in the stated outbox, deadletters and log |
| `Workers.PublishOutboxRecord` | src/eventbus.rs:480-584 | the method reaches the same tables and log, keeps the publish metrics balanced and moves each of them by what the call did |
| `Workers.FailedSend` | src/eventbus.rs:545-581 | the failed-send arm: deadletter, relay and mark in that order when exhausted, otherwise the scheduled retry |
| `Workers.PublishBatch` | src/eventbus.rs:446-478 | one turn of the publisher loop claims the batch and leaves the outbox, the deadletters and the log as its calls in turn do |
| `Workers.PublishRecords` | src/eventbus.rs:472-476 | the loop over the batch, with the log that each call saw |
| `Progress.DrainIsPointwise` | src/eventbus.rs:472-476 | draining a batch changes each of its rows by that row's own call and no other row, whatever the order of the batch |
| `Progress.CallUsesAttempt` | src/eventbus.rs:531-581 | a call that marks its row uses up an attempt and keeps the row's place in the order |
| `Progress.ClaimsDecodable` | src/db.rs:164-190 | with fewer undecodable rows ahead than the limit, a claim that leaves a claimable row out takes a decodable one ahead of it |
| `Progress.OldestFirst` | src/db.rs:164-190 | a claim takes a row before another only if it became available earlier, or then and was created no later |
| `Progress.WaitingRound` | src/db.rs:164-190 | with fewer undecodable rows ahead than the round claims, a round that leaves a claimable row waiting uses up an attempt of a decodable row ahead of it |
| `Progress.EveryRowIsClaimed` | src/db.rs:164-190 | with fewer undecodable rows ahead of it than a round claims, a claimable row is claimed within as many rounds as the decodable rows ahead have attempts left, however the rounds are spaced |
| `Progress.OldRowsAreClaimed` | src/db.rs:164-190 | over rounds in which rows are queued as the clock goes on, however many: a due row is claimed within as many rounds as the decodable rows that became available before it, or then and were created no later, have attempts left, when fewer undecodable ones of that kind are there than a round claims |
| `Starvation.UndecodableRowsStarve` | src/eventbus.rs:491-505 | in any table, with a limit's worth of undecodable rows ahead of it, a claimable row is passed by in any number of rounds of that limit that come late enough for those rows to be due again |
| `Starvation.StarvationIsExact` | src/eventbus.rs:446-505 | over rounds any time apart, for any table whose decodable backlog rows can still count, any claimable row and any claim limit: there is a number of rounds within which the row is claimed if and only if fewer undecodable rows are ahead of it than a round claims |
| `Pace.PromptRoundsClaim` | src/eventbus.rs:446-505 | whatever the number of undecodable rows ahead, a claimable row is claimed by rounds of one minute as soon as their number times the limit exceeds the work ahead and the undecodable rows ahead |
| `Pace.BriskRoundsClaim` | src/eventbus.rs:446-505 | with m rounds to the minute and fewer undecodable rows ahead than m rounds claim, a claimable row is claimed within m rounds for each attempt left ahead of it, and m more |
| `Pace.StarvingSchedule` | src/eventbus.rs:446-505 | with m rounds' worth of undecodable rows ahead, a schedule of any length with m rounds to the minute that never claims the row |
| `Pace.StarvationAtPaceIsExact` | src/eventbus.rs:446-505 | with m rounds to the minute a claimable row is bound to be claimed if and only if fewer undecodable rows are ahead of it than m rounds claim |
| `Replays.ReplayedAtMostOnce` | src/db.rs:474-550 | in any interleaving each deadletter row is replayed at most once, and never again once stamped |
| `Replays.ReplayMakesClaimable` | src/db.rs:499-536 | a replay leaves its event claimable at that moment from any prior status, with its attempt count |
| `Replays.ReplayGivesOneTry` | src/db.rs:511-522 | the count is not reset: the next call of an exhausted event that is replayed deadletters it again unless its send succeeds, provided the mark lands |
| `Replays.CallLosesRecordExactly` | src/eventbus.rs:480-584 | a call deadletters an event without a deadletter row if and only if its mark lands, its insert does not, and the payload decodes but is refused by the encoder or fails its last send |
| `Replays.RecordEndsExactly` | src/eventbus.rs:506-565 | from any state of the invariant that keeps an event's unreplayed record, or its insert as some worker's next step, a step loses it if and only if it is its only insert failing, a crash before that insert, or a replay of the only record between its insert and the mark |
| `Replays.DeadletteredIsOnRecord` | src/eventbus.rs:506-565 | in every run without such a step the event, once deadlettered, has a deadletter row that can be replayed, or some worker is about to insert it |
| `Counterexamples.DeadletteredWithoutRecord` | src/eventbus.rs:506-565 | for any event that reads back and any retry limit attempt_count can reach, a run that ends with the event deadlettered, on no log and on no record |
| `Counterexamples.ReplayInBetweenLosesRecord` | src/eventbus.rs:548-565 | a run in which no statement fails and no worker crashes, and that ends with the event deadlettered and its only record already replayed |
| `Counterexamples.PublishedIsNotTerminal` | src/db.rs:249-258 | a run in which a stale worker takes a published row back to failed |
| `Consuming.ConsumeIsSteps` | src/eventbus.rs:1071-1132 | every branch of the consumer call is a run of allowed steps that ends in the stated inbox, deadletters and commits |
| `Workers.HandleMessage` | src/workers.rs:115-159 | the status by outcome, and exactly one deadletter row when the handler failed and the insert went through |
| `Workers.ConsumeOneMessageWithInbox` | src/eventbus.rs:1071-1132 | the new inbox, deadletters and commits, and when the call commits, declines to commit or fails |
| `RateLimit.RateLimiter.Check` | src/rate_limit.rs:25-62 | the new buckets, acceptance, and the key and wait that a refusal reports |
| `RateLimit.RateLimiter.RefreshUntilFull` | src/rate_limit.rs:25-62 | the first loop stops at the first key at its limit, having started over only the stale buckets up to there |
| `RateLimit.RateLimiter.Charge` | src/rate_limit.rs:25-62 | the second loop adds one to every listed key, saturating |
| `RateLimit.FirstFullIsFirst` | src/rate_limit.rs:25-62 | the key a refusal names is the first one at its limit |
| `RateLimit.CheckRefinesHistory` | src/rate_limit.rs:25-62 | as long as no minute returns after a different one, a call is accepted exactly when the limit is positive and every key has fewer accepted calls in this minute |
| `RateLimit.UsedIsHits` | src/rate_limit.rs:25-66 | for any key lists the stored count is the history count, capped at the counter's width |
| `RateLimit.CountsAreExact` | src/rate_limit.rs:25-66 | with duplicate-free key lists the cap is never met: the stored count equals the history count |
| `RateLimit.CheckIsAtomic` | src/rate_limit.rs:25-62 | a refused call changes no key's count of the minute, an accepted one adds exactly its own keys |
| `RateLimit.MinuteBound` | src/rate_limit.rs:25-66 | at most m accepted calls per key and minute window as long as no minute returns after a different one |
| `RateLimit.BoundIsExact` | src/rate_limit.rs:25-66 | the bound holds of every history with these minutes, whatever its keys and limits, if and only if no minute returns after a different one |
| `RateLimit.ForwardIsNoReturn` | src/rate_limit.rs:64-66 | a clock that does not go back returns to no minute |
| `RateLimit.SixtySecondBound` | src/rate_limit.rs:25-66 | then also at most 2m accepted calls per key in any 60 seconds, both ends included |
| `RateLimit.RetryAfterSuffices` | src/rate_limit.rs:68-70 | the reported wait is 1..60 seconds and the same call is accepted when it is over |
| `RateLimit.RetryAfterIsShortest` | src/rate_limit.rs:68-70 | within the minute of the refusal the same call is refused again at every earlier moment |
| `RateLimit.LateCallBreaksBound` | src/rate_limit.rs:25-35 | three calls, the last with an earlier minute, that exceed the bound |
| `Reconnect.IntentIsHistory` | src/whatsapp.rs:344-404 | the stored intent is what the history of calls says: wanted last, connected since the last session loss, loss not taken yet, failures in a row |
| `Reconnect.DelayDoublesToCeiling` | src/whatsapp.rs:381-389 | the n-th delay in a row is 5 seconds doubled n times, at most 300, never below the one before |
| `Reconnect.ResetsTakenOnce` | src/whatsapp.rs:361-379 | a reset is due exactly when a session loss came after the last take; true answers and the one due are the bursts of losses, so they never outnumber the losses |
| `Reconnect.WhatsappManager.NextReconnectDelaySecs` | src/whatsapp.rs:383-389 | the delay for the attempts so far, and one attempt more for this channel only |
| `Reconnect.WhatsappManager.TakeNeedsSessionReset` | src/whatsapp.rs:370-379 | answers whether a reset was due and clears it |
| `Supervisors.StepKeepsInv` | src/whatsapp.rs:406-530 | every step of concurrent starts, stops and task ends keeps each live task registered or about to be registered by the holder of start_lock |
| `Supervisors.SingleLiveClient` | src/whatsapp.rs:435-530 | in every interleaving a channel has at most one live task, and while nobody holds start_lock it is the registered one |
| `Supervisors.StopLeavesUnregistered` | src/whatsapp.rs:424-433 | what is live right after a stop: exactly the task that a concurrent start has spawned and not registered |
| `Supervisors.StopIsOutrunExactly` | src/whatsapp.rs:424-530 | in every reachable state the channel can become active again after a stop without another call for it if and only if some start of it is under way, in any phase, its task not yet ended |
| `Supervisors.StopCanBeOutrun` | src/whatsapp.rs:424-530 | two runs in which the channel is active after its stop without another start: spawned at the stop, and still building |
| `ChannelTasks.ChannelTasks.StopChannel` | src/whatsapp.rs:424-433 | the method takes the stop step, whatever the starts in progress |
| `ChannelTasks.ChannelTasks.ClearFinished` | src/whatsapp.rs:442-454 | the first critical section takes the check step, and reports whether the channel was active |
| `ChannelTasks.ChannelTasks.SpawnTask` | src/whatsapp.rs:494-515 | takes the spawn step, whatever the others do |
| `ChannelTasks.ChannelTasks.Register` | src/whatsapp.rs:517-528 | takes the insert step, whatever the others do |
| `ChannelTasks.ChannelTasks.StartChannel` | src/whatsapp.rs:435-530 | the three sections one after the other: active afterwards exactly when it was or the bot came up, one task more at most, other channels untouched |
| `Paging.ParseIsExact` | src/routes.rs:1192-1196 | a cursor parses exactly when it is digits after an optional plus sign that spell a usize, and to that number |
| `Paging.CursorRoundTrip` | src/routes.rs:1180-1199 | the cursor of a page leads back to the index it was made from |
| `Paging.PageHoldsWhatIsAsked` | src/models.rs:281-283 | a page holds the items from its offset on, as many as asked for or left: 50 by default, 1 at least, 500 at most; its total is the whole list |
| `Paging.WhereAPageStarts` | src/routes.rs:1186-1199 | a missing or blank cursor is the beginning; exactly a cursor that spells no usize is refused |
| `Paging.FollowIsComplete` | src/routes.rs:1168-1184 | from any offset the pages are exactly the rest of the list, all but the last full |
| `Paging.PagingIsComplete` | src/routes.rs:1168-1184 | following next_cursor from the start gives back the whole list for any limit |
| `Paging.SearchAgreesWithWindow` | src/routes.rs:1201-1212 | a search page is the page of the first 5000 matches except for its total, and when the total agrees |
| `Paging.SearchCursorsAreAccepted` | src/routes.rs:1201-1212 | which cursors a search refuses, and that it never hands out one of them |
| `Paging.SearchFollowsWindow` | src/routes.rs:1788-1797 | page for page, following a search is paging the window |
| `Paging.SearchIsComplete` | src/routes.rs:1788-1797 | over a store that hands over the first matches in order, following a search yields exactly the first 5000 matches from the offset on |
| `StoreSearch.StoredSearchAgreesExactly` | src/state.rs:5688-5717 | over the store as it is, which sorts after it cuts off, every search page is that of the matches in stored order if and only if the first 5000 of them are stored in order of their sequence numbers |
| `StoreSearch.StoredSearchIsCompleteExactly` | src/state.rs:5688-5717 | over that store, following the cursors of a search from the start yields the first 5000 matches in stored order for every limit if and only if they are stored in order of their sequence numbers |
| `StoreSearch.SortFacts` | src/state.rs:5715-5716 | the sort gives the same messages in order |
| `Upserts.NetIsExact` | src/db.rs:1416-1679 | for any list of upserts the net effect says what each cell holds afterwards, and rows appear exactly for the keys touched |
| `Upserts.SecondPass` | src/db.rs:624-642 | once the row is there a second pass moves exactly the cells whose net effect is a stamp |
| `Upserts.PassIsStable` | src/db.rs:624-642 | from any tables a second pass changes no cell outside the clock columns and connected_at |
| `Upserts.FilledStaysFilled` | src/db.rs:1487-1493 | a COALESCE column that holds a value holds one after any pass |
| `Upserts.BrokenPassHeals` | src/db.rs:624-642 | a pass after one that broke off leaves what an unbroken pass leaves, except times and connected_at |
| `Upserts.LastWordStands` | src/db.rs:644-795 | when the later statements on a row all set a column to one value, that is what is left |
| `Coverage.PlanIsExact` | src/db.rs:624-642 | persist_relational issues a statement, with these very arguments, if and only if the snapshot gives a reason for it: an entry, a record or a mention |
| `Coverage.TouchesSnapshot` | src/db.rs:624-1414 | for each of the sixteen tables: a pass touches a row if and only if the snapshot has a record of it or mentions it |
| `Coverage.RowsAfterPass` | src/db.rs:624-1414 | after a whole pass exactly those rows are there, besides the ones that were before |
| `Cells.MessageCells` | src/db.rs:974-1046 | each column of a message's row after a pass: its own, sender included, but what is only inserted stays in a row that was there |
| `Cells.ConversationCells` | src/db.rs:915-972 | the same of a conversation, contact and group included; only created_at stays |
| `Cells.RecordCells` | src/db.rs:1048-1310 | the same of media, transcripts, dirty marks, dirty leases, consumer states and idempotency keys, but for the clock columns |
| `Cells.RowsTellTime` | src/db.rs:1245-1310 | updated_at, a consumer's last_processed_at and a key's expires_at hold the time of the last statement on the row, the expiry 72 hours more |
| `Cells.MentionsTellLast` | src/db.rs:1554-1598 | a contact known from mentions only was last in contact when the last statement on its row was executed |
| `Cells.MentionsTellFirst` | src/db.rs:1554-1598 | and first when the first one was, unless its row was there already |
| `Cells.CallbackCells` | src/db.rs:1312-1368 | the same of a callback under its trimmed id; project and company, trimmed or the default, stay as first written |
| `Cells.AttemptCells` | src/db.rs:1370-1414 | a delivery attempt is inserted as it is and never changed |
| `Cells.MemberCells` | src/db.rs:1644-1679 | role, admin flag and update time are the record's, name and jid are always filled, the phone stays when the record has none, the first joined_at stands |
| `Voices.ContactCells` | src/db.rs:797-842 | what a contact's entry says stands whoever mentions the contact; its company and first contact are the entry's if the row is new |
| `Voices.UnmentionedCells` | src/db.rs:1508-1555 | a contact that nothing mentions has its own name, number and last contact as well |
| `Voices.ContactNames` | src/db.rs:797-913 | a contact goes by a group's name for it as a member, else by a message's for its sender, else by a conversation's, the id standing in for a missing name |
| `GroupCells.GroupOwnCells` | src/db.rs:844-913 | what only a group's entry knows is in its row, or what was there when the entry does not know |
| `GroupCells.GroupJids` | src/db.rs:844-913 | jid and channel are those of the member loop, else of a conversation with the group, else of the entry |
| `GroupCells.GroupCompanies` | src/db.rs:844-913 | a group with an entry is inserted for the company of its first conversation, or the default one, and stays there |
| `SettingCells.CompanyCells` | src/db.rs:691-738 | a company that anything mentions is active under its id as its name, in a project it is mentioned with; else its entry stands |
| `SettingCells.ProjectStatuses` | src/db.rs:644-689 | a project that anything mentions is active; else the status of its entry stands |
| `SettingCells.ChannelCells` | src/db.rs:740-795 | a used channel runs on whatsapp-rust for a company that uses it, in the status of its entry; else its entry stands |
| `SettingCells.ChannelPhones` | src/db.rs:1463-1506 | a channel's number is that of its entry, or what was there |
| `SettingCells.CompanyChannels` | src/db.rs:1714-1737 | the channel of a company is the first configured for it, else that of its first conversation, else channel_dev |
| `SettingCells.ContextIsFirst` | src/db.rs:1739-1758 | the context of a group is that of its first conversation, or the defaults when it has none |
| `SettingCells.FieldsAreValues` | src/db.rs:1682-1689 | text is trimmed, blank text is none, and a count that no integer column holds is NULL |
| `Text.TrimIsMiddle` | src/db.rs:1682-1689 | trimming removes spaces at both ends and nothing else |
| `Persisting.ProjectNames` | src/db.rs:644-689 | the name a pass leaves a project: its id if anything mentions it, else the configured one, else the old one |
| `Persisting.ChannelLabels` | src/db.rs:740-795 | the label a pass leaves a channel: WhatsApp if anything uses it, else that of its entry, else the old one |
| `Persisting.ConnectedAtMoves` | src/db.rs:1474-1494 | a second pass moves connected_at exactly for a channel just inserted with a connection time, not connected and unused |
| `RelationalDb.RepeatedPassIsStable` | src/db.rs:624-642 | a repeated pass adds no row and moves only clock columns, and connected_at only of channels that were new |
| `RelationalDb.SecondPassHeals` | src/db.rs:624-642 | the same for whole tables after a first pass that stopped anywhere |
| `RelationalDb.RelationalDb.Execute` | src/db.rs:1416-1433 | one upsert: the row inserted or updated with this statement's time, or no change |
| `RelationalDb.RelationalDb.PersistRelational` | src/db.rs:624-642 | the statements up to the first failure, in order, all of them when none fails, and no filled cell emptied |

## Left out

- src/state.rs apart from its message search: dirty leases, idempotent sends, receipts, webhook retries, and its own outbox drainer, which marks rows published with position (-1, -1) when no broker is configured; the positions here are those of the Kafka publisher.
- Columns that nothing here depends on: headers, updated_at, first and last failure times, payload copies in the inbox, trace ids; column defaults of the relational tables.
- Dedupe.HandledAtMostOnce: assumes one consumer per partition of a group and no delivery by two at once, as the rule on slots says; a rebalance in the middle of a handler is not part of the model.
- Progress.EveryRowIsClaimed: speaks of one publisher loop without crashes, replays and rows locked elsewhere, of decodable rows whose count can still grow, and of arrivals behind the row; ties of available_at and created_at may go either way.
- Pace.PromptRoundsClaim: speaks of the same schedules, in which besides the undecodable rows ahead can still count as many attempts as there are rounds; otherwise their marks fail and they are due again as soon as their lease ends.
- Pace.StarvationAtPaceIsExact: under the same conditions, and for at most 60,000,000 rounds to the minute, one per microsecond of the model's clock.
- Retries.SendsAreBounded: of this one event it asks that it reads back, that no mark of it lands after its claim's lease, and that it is neither replayed nor re-inserted once deadlettered; each of the last three starts further tries. A record that was refused or does not decode is not sent at all.
- Workers.PublishBatch: the order of the returned batch, the rows locked elsewhere and the choice of the SELECT are parameters; the loop's sleeps and the claim's failure branch, which only sleeps, are not modelled.
- Workers.ConsumeOneMessageWithInbox: a message without a payload fails like one that does not decode.
- Interleavings inside one method: the methods run alone, and `Publishing` and `Consuming` tie them to steps that interleave.
- Reconnect.WhatsappManager: one call at a time, as its lock makes it; the reconnect task and the session files are not modelled.
- ChannelTasks.ChannelTasks.StartChannel: the bot, the session store and the event callback are the one parameter that says whether they came up.
- Paging.SearchIsComplete: takes the store to hand over the first matches in order; StoreSearch.StoredSearchIsCompleteExactly says when following a search of the store as it is comes to the same. The text match itself is not modelled.
- Broker.ConversationsStayTogether: every event is enqueued under topic_for_event and partition_key, and the partitioner goes by topic and key; a change of the number of partitions is not part of the model.
- Progress.OldRowsAreClaimed: under the conditions of Progress.EveryRowIsClaimed, but for arrivals.
- Cells.MessageCells: here and in the other modules on cells a record is the only one of its table with its id, as the maps of the snapshot have it.
- Voices.ContactNames: which of several names of the same rank a contact gets is the iteration order of a map; the phone number of a contact that is mentioned is not followed further than Upserts.FilledStaysFilled.
- Relational.Plan: foreign keys, bad UUIDs and the loops of one table that mention the same kind of row are one list of mentions in the source's order; the expiry of idempotency keys is taken from the clock of its own statement instead of one reading for all.
- Relational.ChannelEntry: connected_at is the parsed time; reading RFC 3339 text is not part of this model.
- The direct publisher without an outbox, topic creation, health checks and metrics other than the publish and deadletter counts.
- Number rendering in JSON paths follows decimal notation; JSON parsing and printing are not part of this model.
