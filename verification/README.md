# A model of the campaign send pipeline

This project models the send pipeline of a cold-email engine and proves what no single function of it enforces: that
nothing is sent to a lead after it was stopped, that each step is sent once and in order, that retries are bounded,
that the daily cap holds however senders interleave, and that one reply has one effect. Where the code does not keep
such a promise, it says exactly when. Check it with `dafny verify dfyconfig.toml`.

## How it is built

**Tables and transitions.** `Base`, `Text`, `CampaignDomain`, `Tables`, `SendQueue`, `Sending`, `Commands`, `Inbox`,
`Matching`, `Subjects` and `Replies` hold the rows of both contexts and the transition each transaction commits, as
functions from tables to tables.

**The machine.** `Machine` interleaves eight kinds of transaction in any order: create a campaign, add leads, start,
claim, process a claim, send a test email, poll, consume replies. A claim is a *token* its worker keeps: the snapshot
it took away. A token may never be used (a crash), or be used after its lease ran out and others have claimed and
finished the job. The Python path acts on the snapshot without reading the job's status again; the by-id path refuses
a job that is no longer running. The state logs what no table records: every claim and its fate, and every send of a
lead.

**The invariant.** `Invariant` states what every reachable state satisfies, row by row. `Tokens`, `ProcessingKeeps`,
`SendKeeps`, `ProcessKeeps`, `QueueKeeps`, `CommandKeeps`, `AddLeadsKeeps`, `StartKeeps` and `PollKeeps` show that
each transaction keeps it, and `Reachable` puts them together over runs. `Evolution` shows what one transaction may do
to a row that is already there.

**The theorems.** `JobTheorems`, `LeadTheorems`, `OutcomeTheorems`, `ReplyTheorems`, `MailTheorems`,
`CommandTheorems`, `ConsumerTheorems` (over `Batches` and `ReplyOrder`), `Metrics`, `StaleTokens` and
`DisagreeingFeed` read the properties off the invariant and the evolution, over whole runs; the last two continue the
concrete run of `Scenario`. `AddedRows`, `InboxTheorems`, `ReplyEffects`, `SendTheorems` and `MatchingTheorems` say
what each transaction leaves, column by column, and what a reply has to carry to find its message. A theorem that
starts from a state satisfying `Inv` holds of every reachable state, by `Reachable.ReachableStatesAreSound`.

**The guards.** `Guards` takes the guard sequence of a send apart into single statements, run by any number of senders
in any interleaving; `LateMail` counts what can still reach a suppressed address, and `GuardsAgree` ties the
statements to the atomic send of the machine. `ClaimLocks` does the same for the claim: row locks shared by any number
of open transactions, and the commit of a claim as the machine's atomic claim.

**One lead.** `LeadRaces` takes apart what a processing call and the consumer do to one lead: read the row without a
lock, decide, write the changed columns under the row's lock. `LostStops` says exactly when a stop is lost and when a
step goes out twice, and `LeadRacesAgree` ties the decisions to the transactions of the machine.

**The code's own form.** `Repositories`, `MessagingHandlers`, `CampaignHandlers`, `Drivers` and `Worker` are the
classes, methods and loops of the source. Each method is proved to commit exactly the transition the machine uses, and
the Python and Go drains and the worker's tick are proved to be runs of the machine, against whatever others commit
between their transactions.

## What is false of the code

- **"Done" is not the last word on a job's status.** Row updates are guarded by the identifier alone
  (`apps/api/app/contexts/campaign/infrastructure/persistence/send_job_repo.py:209`), so a worker that outlives its lease
  marks a job cancelled that another worker has sent. `JobTheorems.TerminalStatusOverRuns` says exactly when this
  happens in a run, `JobTheorems.CancellableIffHeld` from which states it still can, and `StaleTokens.DoneIsNotForever`
  gives a run. The link, the lead and the sends are not affected.
- **A suppressed address can still be mailed, more than once.** The list is read at the start of the transaction.
  `Guards.SuppressionRace` says exactly which open transactions can still commit after the suppression has, and
  `LateMail.LateMailIsBounded` that each of them adds one message at most and that no others add any;
  `LateMail.SuppressedAddressIsMailedTwice` gives a run with two. With whole transactions as steps the promise holds
  without exception (`MailTheorems.SuppressedAddressIsNeverMailed`).
- **Replies are not always handled in feed order.** A consumer skips the events another one holds
  (`apps/api/app/contexts/campaign/infrastructure/messaging/reply_feed.py:41`), so of two replies to one lead the later
  one can decide why it stopped. `ConsumerTheorems.SharingMattersExactly` says for exactly which feeds that can happen,
  and `DisagreeingFeed.SharingCanMatter` gives a run from empty tables to such a feed, and two ways of draining it that
  leave different tables. A lone consumer keeps the order.
- **A stop can be lost, and a step can go out twice, when transactions overlap.** The lead row is read without a lock
  (`apps/api/app/contexts/campaign/infrastructure/persistence/lead_repo.py:28-30`) and written later
  (`apps/api/app/contexts/campaign/infrastructure/persistence/lead_repo.py:58-70`).
  `LostStops.StoppedLeadIsMailedExactly`, `LostStops.StopIsLostExactly` and `LostStops.StepRepeatsExactly` say from which
  states it can still happen, in terms of what open processing calls have read; `LostStops.OvertakenSendsAreWrong` says
  which commit is the first to do it. `LostStops.RepliedLeadIsDone` gives a run that turns a paused lead into a done one,
  although the call went by identifier, and `LostStops.SnapshotsRepeat` one that sends a step twice, from snapshots. By
  identifier alone no step goes out twice (`LostStops.ByIdNeverRepeats`). Where every write is from a row nobody has
  written since it was read, all is as with whole transactions (`LeadRaces.CurrentCommitIsAtomic`,
  `LeadRaces.CleanRunsAreSound`).

## Assumptions

- Everywhere but in `Guards`, `LateMail`, `GuardsAgree`, `ClaimLocks`, `LeadRaces` and `LostStops` one transaction is one
  step. The engine sets no isolation level and rows of leads and campaigns are read without a lock, so these results are
  not claimed for finer interleavings of any two transactions that read and write the same lead or campaign: two
  processing calls, a processing call and a consumer run, two consumer runs, or adding leads to a draft while it is being
  started, which can leave a pending lead in an active campaign.
- In `LeadRaces` a statement sees the committed rows, an UPDATE names the columns in which the target differs from the
  session's copy of the row, and that copy is the row as first read or as read again just before the UPDATE: the session
  may or may not still hold it. The campaign is active and does not change.
- The machine's clock is shared and does not run backwards: each transaction reads it at or after the last one. `Guards`
  asks less: a sender's second reading is not before its first.
- In `Guards`, `ClaimLocks` and `LeadRaces` a statement sees the committed rows, a lock is held to the end of its
  transaction, and commit, visibility and unlocking are one step.
- A by-id call uses up one claim. The Go sender makes one call per claim (`apps/sender-go/cmd/sender/main.go:92`); calls
  that no claim stands behind could defer a job more often than it was claimed.
- Identifiers come from a counter and stand for fresh UUIDs. Creation order of leads is the order of identifiers.
- Provider, classifier, fetched messages, lock contention and clock readings are inputs of each transaction, and arbitrary.
- `Repositories` methods that follow a link or list events ask for unique links and unique event identifiers, which every
  reachable state has (`ConsumerTheorems.ReachableFeed`), and for rows to stand under their primary keys.

## Model

| member | source | states |
|---|---|---|
| Reachable.ReachableStatesAreSound | apps/api/app/contexts/campaign/application/process_send_jobs.py:73-117 | In every state of every run from empty tables, whatever commands, claims, sends, polls and consumer batches it interleaves, with stale and lost tokens, the joint invariant of leads, jobs, claims, sends, messages, suppressions and outbox holds |
| Reachable.ApplyKeeps | apps/api/app/contexts/campaign/application/process_send_jobs.py:73-135 | Each committed transaction keeps that invariant: the inductive step, over all eight kinds |
| ProcessKeeps.ProcessKeepsCampaign | apps/api/app/contexts/campaign/application/process_send_jobs.py:73-117 | All six outcomes of a processing call, from a snapshot however stale or from a fresh read, keep it |
| QueueKeeps.ClaimKeeps | apps/api/app/contexts/campaign/infrastructure/persistence/send_job_repo.py:22-41 | A claim of any set of due or expired jobs keeps it |
| StartKeeps.StartKeepsCampaign | apps/api/app/contexts/campaign/application/commands/start_campaign.py:36-49 | Starting a campaign keeps it: each pending lead becomes scheduled with exactly its first job |
| AddLeadsKeeps.AddLeadsKeepsCampaign | apps/api/app/contexts/campaign/application/commands/add_leads.py:34-52 | Adding leads to a draft or an active campaign keeps it |
| PollKeeps.PollKeepsMessaging | apps/api/app/contexts/messaging/application/poll_inbox.py:62-158 | A poll keeps the messaging invariant: matches and messages unique, intent exactly on matched rows, events mirroring rows, suppressions in place |
| JobTheorems.TerminalForever | apps/api/app/contexts/campaign/application/process_send_jobs.py:77-117 | A done, failed or cancelled job is never pending or running again in any run and keeps its link |
| JobTheorems.TerminalStatusOverRuns | apps/api/app/entrypoints/worker.py:156-164 | After any run a terminal job has the status it had, except that it is cancelled if and only if it was before or some worker acted on a snapshot of it |
| JobTheorems.CancellableIffHeld | apps/api/app/entrypoints/worker.py:156-164 | In every reachable state some run turns a done or failed job cancelled if and only if a claim of it is still outstanding |
| StaleTokens.StaleTokenOverwritesDone | apps/api/app/contexts/campaign/infrastructure/persistence/send_job_repo.py:209-214 | From any reachable state, any due job the guards let through can be sent by a second claimant and then marked cancelled by the first |
| StaleTokens.DoneIsNotForever | apps/api/app/contexts/campaign/infrastructure/persistence/send_job_repo.py:152-153 | A concrete run from empty tables whose last operation turns a done job cancelled |
| JobTheorems.AttemptsAreClaimsMinusDeferrals | apps/api/app/contexts/campaign/infrastructure/persistence/send_job_repo.py:131-145 | In every reachable state the attempts of a job are its claims minus its deferrals, and never negative |
| JobTheorems.FewOutcomesPerJob | apps/api/app/contexts/campaign/domain/send_job.py:74-77 | At most two retries per job, and at most one outcome that ends it, whatever the crashes, deferrals and stale claims |
| JobTheorems.FewOutcomesPerLead | apps/api/app/contexts/campaign/domain/send_job.py:11-13 | A lead of an N-step campaign sees at most 3N outcomes that are neither deferred nor cancelled |
| JobTheorems.ClaimsAreALeaseApart | apps/api/app/contexts/campaign/infrastructure/persistence/send_job_repo.py:22-41 | Two claims of one job with no processing of it in between, in any run, are more than the lease apart |
| JobTheorems.ClaimByColumns | apps/api/app/contexts/campaign/infrastructure/persistence/send_job_repo.py:22-41 | A claim takes jobs of its own workspace that are due or whose lease of five minutes has run out, runs each under a lease of its worker on one attempt more, hands out that snapshot, and leaves every other job and workspace alone |
| OutcomeTheorems.OutcomeIsDecided | apps/api/app/contexts/campaign/application/process_send_jobs.py:73-117 | In every reachable state each of the six outcomes occurs if and only if its row of a decision table over lead, mailbox, suppression, lock, cap, provider and attempts holds, with the third failed attempt the last; the call never raises |
| OutcomeTheorems.EveryCallLeavesItsOutcome | apps/api/app/contexts/campaign/application/process_send_jobs.py:73-117 | After any run a processing call refuses and writes nothing, or settles its claim with one outcome that leaves exactly its columns: a send its message with both provider identifiers, its link, step and follow-up; a deferral the attempt back, its reason and the next due time; a retry a minute for each attempt and the error; a suppression or last failure a failed lead with its reason; a cancellation the job alone; every other row and table is spared |
| LeadTheorems.LeadJobCoupling | apps/api/app/contexts/campaign/domain/campaign.py:144-198 | A scheduled or sent lead has exactly one live job, at its next step; a pending or done lead none; a stopped lead no pending job and at most one running |
| LeadTheorems.StoppedJobEndsCancelled | apps/api/app/contexts/campaign/application/process_send_jobs.py:77-84 | Over any run the running job of a stopped lead can only end cancelled |
| LeadTheorems.SendsAreStepsInOrder | apps/api/app/contexts/campaign/domain/campaign.py:152-167 | The committed sends of a lead are exactly steps 1 to steps_sent, once each, in order, each linked from the job of that step |
| LeadTheorems.SendsOnlyGrow | apps/api/app/contexts/campaign/domain/campaign.py:152-167 | Recorded sends are only appended to, over any run |
| LeadTheorems.StepsAreSpaced | apps/api/app/contexts/campaign/domain/campaign.py:204-218 | Consecutive steps to a lead are stamped at least the later step's delay apart |
| LeadTheorems.StepsSentAreLinks | apps/api/app/contexts/campaign/infrastructure/persistence/send_job_repo.py:120-129 | Summed over leads, steps_sent is the number of linked jobs, and no message is linked twice |
| LeadTheorems.StopOnReplyNeverFails | apps/api/app/contexts/campaign/application/handle_classified_replies.py:56-59 | The LeadTransitionError branch is unreachable: a linked message implies a lead that can be stopped |
| LeadTheorems.HandledBatchStops | apps/api/app/contexts/campaign/application/handle_classified_replies.py:32-63 | After a batch, the lead behind every version 2 event matched to a campaign email is stopped and the event acknowledged |
| LeadTheorems.StoppedForever | apps/api/app/contexts/campaign/domain/campaign.py:169-198 | A stopped lead is frozen over any run: no dispatch, no step counted, same stop reason |
| LeadTheorems.RepliedLeadIsNeverSentTo | apps/api/app/contexts/campaign/application/handle_classified_replies.py:43-63 | Once the consumer has handled a reply its lead stays stopped and is never sent to again |
| LeadTheorems.IntentTellsTheStop | apps/api/app/contexts/campaign/domain/campaign.py:169-198 | In every reachable state a bounce is recorded exactly on leads failed as bounced, an unsubscribe exactly on leads paused as unsubscribed, any other intent exactly on leads paused as replied, and none on leads stopped by a send |
| ReplyTheorems.RepliesAndStopsCorrespond | apps/api/app/contexts/campaign/application/handle_classified_replies.py:32-63 | After every run from empty tables the lead behind a handled reply to a campaign message is stopped, and a lead stopped by a reply has such a reply, handled, with the intent it records |
| LeadTheorems.CampaignShape | apps/api/app/contexts/campaign/application/commands/add_leads.py:34-52 | Addresses in a campaign are normalised and pairwise distinct; a draft has only pending leads and no jobs, an active campaign no pending lead |
| CommandTheorems.AddLeadsResultIsRight | apps/api/app/contexts/campaign/application/commands/add_leads.py:34-52 | Adding leads to a stored campaign never fails; added plus skipped is the input length, and the campaign ends with the addresses it had and those on the list |
| AddedRows.AddedRowsAreRight | apps/api/app/contexts/campaign/application/commands/add_leads.py:34-52 | Each address on the list that the campaign does not have becomes one lead, in the order of the list, pending in a draft, scheduled with its first job in an active campaign; nothing else is written |
| CommandTheorems.CreatedCampaignIsRight | apps/api/app/contexts/campaign/application/commands/create_campaign.py:31-38 | Creating is refused exactly without steps or with a negative delay, each with its error; otherwise the draft holds every subject, body and delay as given, and nothing else is written |
| CommandTheorems.StartResultIsRight | apps/api/app/contexts/campaign/application/commands/start_campaign.py:36-49 | Starting fails exactly without the campaign or, for a draft, without leads, and is a no-op on an active one; otherwise every lead of the campaign is scheduled at that moment, each gets its first job, pending, untried, due the first delay later, with the payload of its step, and every other row and table stays |
| MailTheorems.SuppressedAddressIsNeverMailed | apps/api/app/contexts/messaging/application/poll_inbox.py:130-139 | Once a poll has stored an unsubscribe or bounce, no later transaction of any run mails any spelling of the address in that workspace |
| MailTheorems.PollsCountOnce | apps/api/app/contexts/messaging/application/poll_inbox.py:67-155 | Over any run: one row per message, one match per sent message, InboundReceived events are the inbound rows and ReplyMatched and ReplyClassified events the matched rows, one each |
| MailTheorems.AcknowledgedForever | apps/api/app/contexts/campaign/infrastructure/messaging/reply_feed.py:26-56 | An acknowledged event is never offered again, in any run |
| MailTheorems.ReplayIsInertForever | apps/api/app/contexts/messaging/application/poll_inbox.py:68-72 | After a poll and any run of transactions, polling its messages again, in any order and with any candidates, counts nothing and leaves the new cursor in its mailbox and every table else as it was |
| PollKeeps.PollCounts | apps/api/app/contexts/messaging/application/poll_inbox.py:74-158 | processed counts the new inbound rows and classified the new matched rows |
| InboxTheorems.EachMessageIsStoredOnce | apps/api/app/contexts/messaging/application/poll_inbox.py:67-152 | A message that is stored already changes nothing; a new one leaves its row with every column, its events, the suppression its intent calls for, and one candidate fewer if it answers one |
| InboxTheorems.PollStoresInOrder | apps/api/app/contexts/messaging/application/poll_inbox.py:67-158 | A poll stores every message it fetches for the first time, once, in the order fetched, with every column from the message; it counts them and reports the intents in that order |
| InboxTheorems.AnsweredIsTakenOut | apps/api/app/contexts/messaging/application/poll_inbox.py:102-104 | The candidate answered is taken out of the list, and the others keep their order |
| InboxTheorems.PollMovesCursor | apps/api/app/contexts/messaging/application/poll_inbox.py:155-157 | A poll leaves the new cursor in its mailbox, the rest of that mailbox and every other one as they were, and writes no campaign row |
| InboxTheorems.CursorIsTheLastPolls | apps/api/app/contexts/messaging/application/poll_inbox.py:155-157 | Over any run the cursor of a mailbox is that of its last poll |
| SendTheorems.SendIsDecided | apps/api/app/contexts/messaging/application/commands/send_email.py:61-96 | A send, from a campaign or a test, fails with the error of the first guard that stops it, each in its turn, and otherwise stores exactly one message under both identifiers of the provider's receipt |
| SendTheorems.ThreadIsAnswered | apps/api/app/contexts/messaging/application/matching.py:27-33 | After a send in a thread and any run, a reply in that thread that names no candidate answers the last candidate of the thread |
| LeadRaces.CurrentCommitIsAtomic | apps/api/app/contexts/campaign/application/process_send_jobs.py:73-117 | After a clean run, a commit from a row nobody has written since it was read is the atomic transition of the row as it is: record_sent, fail_lead or stop_on_reply |
| LeadRaces.CleanRunsAreSound | apps/api/app/contexts/campaign/domain/campaign.py:144-198 | Where every write is from a current row, in any interleaving of calls and replies, the sends are steps 1 to steps_sent, the row keeps its invariant, sends are only appended, and a stopped lead is frozen |
| LostStops.OvertakenSendsAreWrong | apps/api/app/contexts/campaign/infrastructure/persistence/lead_repo.py:28-30 | After a clean run, a send is committed from an overtaken row if and only if it is to a stopped lead or repeats a step |
| LostStops.StoppedLeadIsMailedExactly | apps/api/app/contexts/campaign/application/handle_classified_replies.py:43-63 | From any reachable state with a stopped lead some run commits another message to it if and only if an open processing call read the row before the stop and can still send |
| LostStops.StopIsLostExactly | apps/api/app/contexts/campaign/infrastructure/persistence/lead_repo.py:58-70 | From any reachable state with a stopped lead some run ends with the lead not stopped if and only if such a call has not yet written the row, or has written it with another state |
| LostStops.OldCopiesOverwriteLittle | apps/api/app/contexts/campaign/infrastructure/persistence/lead_repo.py:58-70 | What a commit from the row as first read overwrites: a stop leaves the steps counted since, a send the reason and intent of a stop, and on a middle step its state |
| LostStops.OneSenderAtATime | apps/api/app/contexts/messaging/application/commands/send_email.py:69-70 | Over any run at most one open call to a lead is past the mailbox lock |
| LostStops.CommitSettlesItsStep | apps/api/app/contexts/campaign/application/process_send_jobs.py:81-117 | A committed call leaves its job no longer running, unless it puts the step off, and touches no other step |
| LostStops.StepRepeatsExactly | apps/api/app/contexts/campaign/application/process_send_jobs.py:73-98 | After a clean run a step that has been sent can be the next to be committed again if and only if an open processing call read the row before it was sent and can still send it |
| LostStops.ByIdNeverRepeats | apps/api/app/contexts/campaign/infrastructure/persistence/send_job_repo.py:105-118 | When all processing calls lock their job by identifier and refuse one that is not running, no step is committed twice in any interleaving, replies and lost stops included |
| LostStops.SnapshotsRepeat | apps/api/app/entrypoints/worker.py:156-164 | From snapshots any step that is due can be committed twice |
| LostStops.RepliedLeadIsDone | apps/api/app/contexts/campaign/infrastructure/persistence/lead_repo.py:58-70 | A run in which a by-id call overlaps a handled reply and turns the paused lead into a done one that has been sent its last step |
| LeadRacesAgree.CallsAgree | apps/api/app/contexts/campaign/application/process_send_jobs.py:73-117 | The atomic processing call cancels exactly where the row does not call for the step, and otherwise writes the row its outcome decides on |
| LeadRacesAgree.StopsAgree | apps/api/app/contexts/campaign/application/handle_classified_replies.py:43-63 | The atomic stop acts exactly where the row calls for it, and writes the row decided on |
| Guards.DailyCapHolds | apps/api/app/contexts/messaging/application/commands/send_email.py:69-96 | For any interleaving of any number of senders, messages of a mailbox stamped in one UTC day never exceed its cap, midnight between count and stamp included, for any lock key function |
| Guards.SuppressedMailIsARace | apps/api/app/contexts/messaging/application/commands/send_email.py:67-68 | Every message committed to an address after its suppression comes from a transaction that had passed its check before |
| LateMail.LateMailIsBounded | apps/api/app/contexts/messaging/application/commands/send_email.py:67-68 | Messages committed to an address after its suppression come from different transactions, each open and past its check when it was suppressed, so there are at most as many |
| LateMail.BoundIsMet | apps/api/app/contexts/messaging/application/commands/send_email.py:64-96 | Where those transactions find the lock free and the cap wide enough some run sends exactly that many |
| LateMail.SuppressedAddressIsMailedTwice | apps/api/app/contexts/messaging/application/commands/send_email.py:67-68 | A concrete run from empty tables in which two transactions past their checks each mail the suppressed address |
| Guards.SuppressionRace | apps/api/app/contexts/messaging/application/commands/send_email.py:64-78 | The open transaction to a suppressed address can still commit if and only if it has passed its check and its count is, or can be, below the cap |
| GuardsAgree.SoloSendIsAtomicSend | apps/api/app/contexts/messaging/application/commands/send_email.py:61-96 | Uninterrupted, the statement-grain guards commit exactly when the atomic send of the machine succeeds, and both models stay in agreement |
| ConsumerTheorems.BatchesDoNotMatter | apps/api/app/contexts/campaign/infrastructure/messaging/reply_feed.py:26-56 | From any reachable state, runs with any limits, whatever events other consumers hold, handle events of the feed, each once, acknowledge them, leave exactly the others, and leave the tables of one fold over what they handled, timestamps aside |
| ConsumerTheorems.LoneConsumerKeepsOrder | apps/api/app/contexts/campaign/infrastructure/messaging/reply_feed.py:39-41 | When no event is held the runs handle a prefix of the one (created_at, id) order |
| ConsumerTheorems.AnyTwoCutsAgree | apps/api/app/contexts/campaign/application/handle_classified_replies.py:32-41 | When no event is held two ways of cutting the feed that reach equally far handle the same events and leave the same tables |
| ConsumerTheorems.SkippedEventsMatterExactly | apps/api/app/contexts/campaign/infrastructure/messaging/reply_feed.py:41 | Runs that handled the same events in different orders leave the same tables if and only if each lead that could still be stopped has the same intent in its first handled reply |
| ConsumerTheorems.SharingMattersExactly | apps/api/app/contexts/campaign/infrastructure/messaging/reply_feed.py:26-44 | However consumers share out a feed, draining it leaves the same tables, if and only if no two waiting replies would stop one lead for different intents |
| ReplyOrder.FirstReplyDecides | apps/api/app/contexts/campaign/application/handle_classified_replies.py:43-63 | Handling any sequence of replies in closed form: of the replies to one lead the first decides its row and cancels its pending jobs, and the others change nothing |
| ReplyEffects.NamedStopsItsLead | apps/api/app/contexts/campaign/application/handle_classified_replies.py:32-63 | A classified reply to a job's message fails its lead on a bounce and pauses it otherwise, with reason, intent and time, cancels its pending jobs and is acknowledged; a lead that cannot be stopped is left alone |
| ReplyEffects.UnnamedIsAcknowledged | apps/api/app/contexts/campaign/application/handle_classified_replies.py:43-55 | A reply that names no job's message, or predates version 2, is acknowledged and writes nothing else |
| ReplyEffects.StoppedAreThoseStopped | apps/api/app/contexts/campaign/application/handle_classified_replies.py:32-41 | The leads a batch returns are exactly those it has stopped, each once, with the rows it left |
| DisagreeingFeed.SharingCanMatter | apps/api/app/contexts/campaign/infrastructure/messaging/reply_feed.py:26-44 | A run from empty tables, of a campaign, a lead, two claimed and sent steps and a poll of two replies, after which two ways of sharing out the feed leave different tables |
| DisagreeingFeed.TwoRepliesDisagree | apps/api/app/contexts/messaging/application/poll_inbox.py:67-158 | In any state, polling two new replies of different intent to messages of one lead that is not stopped leaves two waiting events that disagree about it |
| Batches.ShortRunDrains | apps/api/app/contexts/campaign/infrastructure/messaging/reply_feed.py:36-40 | A run that meets no lock and gets fewer events than its limit leaves the feed empty, whatever the runs before it met |
| Repositories.SendJobRepository.Claim | apps/api/app/contexts/campaign/infrastructure/persistence/send_job_repo.py:81-103 | Of the unlocked rows of the workspace that are due or on a lease that has run out, the first up to the limit, sorted, none skipped that is due earlier than one taken; exactly those rows become running, and the claims say what they say |
| ClaimLocks.ConcurrentClaimsAreDisjoint | apps/api/app/contexts/campaign/infrastructure/persistence/send_job_repo.py:37 | In any interleaving of transactions over one lock table, claims that are open at the same time have taken different jobs |
| ClaimLocks.CommitIsAnAtomicClaim | apps/api/app/contexts/campaign/infrastructure/persistence/send_job_repo.py:22-41 | Whatever others do between a claim and its commit, the commit is one atomic claim of rows that may still be claimed |
| ClaimLocks.OnlyCommitsWrite | apps/api/app/contexts/campaign/infrastructure/persistence/send_job_repo.py:209-214 | Rows are written by commits alone, as their transaction left them; a roll-back leaves none |
| Repositories.ClaimsWithinTheLeaseAreDisjoint | apps/api/app/contexts/campaign/infrastructure/persistence/send_job_repo.py:30-33 | A claim takes nothing another claim took within the lease |
| Repositories.ClaimTakesAllItMay | apps/api/app/contexts/campaign/infrastructure/persistence/send_job_repo.py:36 | A claim takes as many rows as are eligible, up to the limit |
| Matching.MatchReplyIsTiered | apps/api/app/contexts/messaging/application/matching.py:9-43 | The match is a listed candidate and is decided by the first tier that finds any: In-Reply-To, References in order, thread, correspondence (section 3.6.4 of RFC 5322) |
| Matching.TieredMatchIsUnique | apps/api/app/contexts/messaging/application/matching.py:9-43 | The tiered specification determines the match |
| Matching.FindMatch | apps/api/app/contexts/messaging/application/matching.py:9-43 | The dictionaries and the scan compute that match |
| MatchingTheorems.SpellingsOfAnId | apps/api/app/contexts/messaging/application/matching.py:46-50 | However an identifier is bracketed, padded or capitalised, it is what a header names |
| MatchingTheorems.OnlySpellingsNameAnId | apps/api/app/contexts/messaging/application/matching.py:46-50 | And a header names it only if it is such a spelling |
| MatchingTheorems.EmptyBracketsNameNothing | apps/api/app/contexts/messaging/application/matching.py:46-50 | Brackets around white space or nothing name no identifier |
| MatchingTheorems.ReferencesInHeaderOrder | apps/api/app/contexts/messaging/application/matching.py:53-61 | The references of a header are those of its parts, in the order they stand in it |
| MatchingTheorems.OneReference | apps/api/app/contexts/messaging/application/matching.py:53-61 | A header that is one identifier refers to it alone |
| MatchingTheorems.AnswersInReplyTo | apps/api/app/contexts/messaging/application/matching.py:18-20 | In-Reply-To answers the last candidate sent under the identifier it spells |
| MatchingTheorems.FirstOfTwoReferences | apps/api/app/contexts/messaging/application/matching.py:22-24 | Of references that name candidates the one that stands first is answered |
| MatchingTheorems.AnswersInThread | apps/api/app/contexts/messaging/application/matching.py:26-33 | When no header names a candidate, the last candidate of the thread is answered |
| MatchingTheorems.AnswersCorrespondence | apps/api/app/contexts/messaging/application/matching.py:35-41 | When none is in the thread either, the first candidate to the sender, in any case, under the same subject is answered |
| MatchingTheorems.UnansweredExactly | apps/api/app/contexts/messaging/application/matching.py:9-43 | A reply answers nothing if and only if it names no candidate, is in no candidate's thread and corresponds to none |
| Matching.ReferenceIdList | apps/api/app/contexts/messaging/application/matching.py:53-61 | The header loop collects the identifiers in order |
| Matching.IndexByMessageId | apps/api/app/contexts/messaging/application/matching.py:12-16 | The dictionary by message identifier holds the last candidate of each |
| Matching.IndexByThread | apps/api/app/contexts/messaging/application/matching.py:27-31 | The dictionary by thread holds the last candidate of each |
| Subjects.PrefixesDoNotCount | apps/api/app/contexts/messaging/application/matching.py:64-71 | Putting any stack of reply or forward prefixes, with any case and spacing, before a subject does not change its normal form |
| Subjects.OnlyPrefixesAreDropped | apps/api/app/contexts/messaging/application/matching.py:64-71 | A subject without a prefix keeps everything but the white space around it and the case of its letters |
| Subjects.PrefixWords | apps/api/app/contexts/messaging/application/matching.py:6 | The words that head a prefix are re, fwd and fw in any case, and no others |
| Subjects.NormalizeIsIdempotent | apps/api/app/contexts/messaging/application/matching.py:64-71 | Normalising twice is normalising once |
| Subjects.NormalizeSubject | apps/api/app/contexts/messaging/application/matching.py:64-71 | The loop terminates and computes the normal form |
| Metrics.MetricsAreConsistent | apps/api/app/contexts/campaign/application/queries/get_campaign_metrics.py:34-60 | In every reachable state replied plus bounced is at most contacted, contacted at most emails_sent, bounced counts the bounce intents, and both rates, under any rounding to four digits, lie in [0, 1], reach its ends with the exact share, and are half a ten-thousandth from it at most |
| Metrics.MetricsCountLeads | apps/api/app/contexts/campaign/application/queries/get_campaign_metrics.py:34-55 | Each number counts the rows of the campaign it stands for |
| Metrics.RepliesByIntent | apps/api/app/contexts/campaign/application/queries/get_campaign_metrics.py:38-42 | The counts by intent list every intent but a bounce that some lead has, with the number of those leads |
| Metrics.StatesPartitionLeads | apps/api/app/contexts/campaign/infrastructure/persistence/lead_repo.py:87-119 | In-progress, completed, paused and failed leads are all leads, each once |
| CampaignDomain.AcceptedEmailsAreNewAndDistinct | apps/api/app/contexts/campaign/domain/campaign.py:102-117 | Exactly the unseen non-empty normal forms become leads, each once |
| CampaignDomain.AddLeads | apps/api/app/contexts/campaign/domain/campaign.py:102-117 | The loop with its seen set yields those leads in order |
| CampaignDomain.ScheduleLeads | apps/api/app/contexts/campaign/domain/campaign.py:128-142 | The loop schedules every lead and its first job, or stops at the first lead that cannot be |
| CampaignDomain.Campaign.RecordSent | apps/api/app/contexts/campaign/domain/campaign.py:144-167 | Recording succeeds exactly for the next step of a scheduled or sent lead of this active campaign, and each other case has its error |
| CampaignDomain.Campaign.StopOnReply | apps/api/app/contexts/campaign/domain/campaign.py:169-190 | Stopping fails, each time with its error, exactly for a foreign lead or one never sent to; it keeps steps_sent, and a stopped lead as it is |
| CampaignDomain.Campaign.FailLead | apps/api/app/contexts/campaign/domain/campaign.py:192-198 | Failing fails, each time with its error, exactly for a foreign lead or one pending or done; a stopped lead stays as it is |
| CampaignDomain.NewCampaign | apps/api/app/contexts/campaign/domain/campaign.py:67-96 | A campaign is refused exactly without steps or with a negative delay; otherwise it is a draft with the steps given, numbered from 1 |
| Base.StartOfUtcDay | apps/api/app/shared/util/clock.py:8-9 | The multiple of a day that the moment falls after, by less than a day |
| Text.NormalizeEmailIsIdempotent | apps/api/app/contexts/campaign/domain/lead.py:63-64 | Normalising an address twice is normalising it once |
| Text.SpellingsNormalizeTheSame | apps/api/app/contexts/campaign/domain/lead.py:63-64 | Two addresses have the same normal form if and only if they differ in padding and the case of letters alone |
| CampaignHandlers.ProcessClaimedSendJobHandler.Execute | apps/api/app/contexts/campaign/application/process_send_jobs.py:73-117 | The branches and repository calls commit exactly the transition, outcome by outcome |
| CampaignHandlers.ProcessSendJobByIdHandler.Execute | apps/api/app/contexts/campaign/application/process_send_jobs.py:127-135 | The job is read afresh; it is refused exactly when no longer running, and then nothing is written |
| CampaignHandlers.AddLeadsHandler.Execute | apps/api/app/contexts/campaign/application/commands/add_leads.py:34-52 | The handler commits exactly the add-leads transition, or fails as it does |
| CampaignHandlers.StartCampaignHandler.Execute | apps/api/app/contexts/campaign/application/commands/start_campaign.py:36-49 | The handler commits exactly the start transition over the pending leads in order, or fails as it does |
| CampaignHandlers.HandleClassifiedRepliesHandler.RunOnce | apps/api/app/contexts/campaign/application/handle_classified_replies.py:32-41 | The loop folds the single-event transition over the claimed batch and returns the leads it stopped, in order |
| MessagingHandlers.SendEmailHandler.Execute | apps/api/app/contexts/messaging/application/commands/send_email.py:61-96 | The guards in order, then the row with every column, the delivery, and both identifiers of the receipt; a failed delivery leaves its unsent row behind |
| MessagingHandlers.EmailDispatch.Dispatch | apps/api/app/contexts/campaign/infrastructure/messaging/email_dispatch.py:51-81 | The savepoint takes a failed send back whole, and each error maps to its dispatch result |
| MessagingHandlers.PollInboxHandler.RunOnce | apps/api/app/contexts/messaging/application/poll_inbox.py:62-158 | The loop over fetched messages commits exactly the poll transition and counts, and leaves the new cursor |
| Repositories.LeadRepository.UpdateMany | apps/api/app/contexts/campaign/infrastructure/persistence/lead_repo.py:58-70 | Progress columns of each lead are written in turn; a missing row is an error |
| Repositories.LeadRepository.ListPending | apps/api/app/contexts/campaign/infrastructure/persistence/lead_repo.py:41-52 | All pending leads of the campaign, in creation order |
| Repositories.OutboundMessageRepository.ListUnanswered | apps/api/app/contexts/messaging/infrastructure/persistence/outbound_repo.py:34-49 | Sent, unanswered messages of the mailbox, newest first; only the limit leaves any out, and only older ones |
| Repositories.SendJobRepository.Complete | apps/api/app/contexts/campaign/infrastructure/persistence/send_job_repo.py:120-129 | The row with this identifier alone becomes done and linked, whatever it was; its due time, attempts, lock and fixed columns stay, and so does every other row and table |
| SendQueue.CompletedIsFound | apps/api/app/contexts/campaign/infrastructure/persistence/send_job_repo.py:120-129 | Completing a job makes its lead findable by the message, keeps links unique, and changes no other message's lead |
| Repositories.SendJobRepository.CancelPendingForLead | apps/api/app/contexts/campaign/infrastructure/persistence/send_job_repo.py:155-163 | The status of each pending job of the lead becomes cancelled and its other columns stay; a running or terminal job and every other lead's job stay whole |
| Repositories.SendJobRepository.FindLeadIdByOutboundMessage | apps/api/app/contexts/campaign/infrastructure/persistence/send_job_repo.py:165-173 | The lead behind a message, if and only if a job links to it |
| Repositories.ClassifiedReplyFeed.Claim | apps/api/app/contexts/campaign/infrastructure/messaging/reply_feed.py:26-44 | Unprocessed events in (created_at, id) order, none skipped but for locks and the limit |
| Drivers.DrainSendJobs | apps/api/app/entrypoints/worker.py:146-169 | The Python drain is a run of the machine, against anything others commit in between; each processed snapshot ends with the outcome returned, and a lost call ends the drain |
| Drivers.Drain | apps/sender-go/cmd/sender/main.go:59-101 | The Go drain is a run of the machine; each call settles its own claim or is refused, and a lost call leaves its claim outstanding |
| Worker.Tick | apps/api/app/entrypoints/worker.py:172-198 | A tick is a run of the machine whose stages are one poll, one run of up to fifty replies, and a claim of up to ten jobs with each processed in turn, each stage present unless it raises |

## Left out

- HTTP routes, the MCP server, the viewer, metrics exporters, logging, the Go HTTP client and configuration: plumbing.
- Gmail adapters, OAuth, LLM clients and classifiers: their answers are inputs. Provider-side exactly-once delivery is not promised by the code; every property is about committed rows.
- Row deletion, row-level security, migrations, API keys and authentication.
- CreateCampaignHandler and its mailbox lookup: the machine creates campaigns with any mailbox.
- `created_at` of leads and jobs, `step_id` apart from the payload's, identifiers of suppression rows, and outbox payload fields no consumer reads. One clock reading stands for all those a poll takes for one message.
- Go's payload check: a job whose payload does not decode is a lost call (`apps/sender-go/cmd/sender/main.go:87-91`).
- `list_by_campaign`, `count_by_state`, `next_send_at_by_lead` and `count_addresses`: queries with no part in the protocol.
- Unicode: white space and case are ASCII.
- Floating point: rates are reals, rounded to four digits either way at a half.
- `_normalize_message_id` is not idempotent on nested brackets; matching is stated over its result.
- `LeadRaces` leaves out claims, so any number of workers may hold a snapshot of any step; the pending jobs a stop cancels; and a second reply to the lead in one consumer transaction, which finds it stopped.
- PostgresMailboxSendLock: its answer is an input of the atomic send; holding it is modelled in `Guards`, where a lock key may be shared by several mailboxes.
- Repositories.OrderBy: stands for `ORDER BY ... LIMIT ...` of the database; ties are broken arbitrarily in claims.
- Drivers.OthersCommit: its body commits nothing; only its contract, any run that spares the driver's tokens, is used.
- A mailbox's daily cap never changes, and a workspace has one mailbox, its first.
