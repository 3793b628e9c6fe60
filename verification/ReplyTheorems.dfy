/** From a stored reply to a stopped lead and back, over whole runs. */
module ReplyTheorems {
  import opened AddLeadsKeeps
  import opened Base
  import opened CampaignDomain
  import opened Evolution
  import opened Invariant
  import opened LeadTheorems
  import opened Machine
  import opened MailTheorems
  import opened Matching
  import opened PollKeeps
  import opened ProcessKeeps
  import opened QueueKeeps
  import opened Reachable
  import opened SendKeeps
  import opened SendQueue
  import opened Sending
  import opened StartKeeps
  import opened Tables
  import Commands
  import Inbox
  import Replies

  // ---------- Links and replies that an operation brings ----------

  lemma {:induction false} StartedJobsUnlinked(s: Sys, campaign: Id, pending: seq<Lead>, moment: Time, j: Id)
    requires CampaignInv(s) && s.clock <= moment && Commands.IsPendingList(s.db.leads, campaign, pending)
    requires j in ApplyStart(s, campaign, pending, moment).db.jobs && j !in s.db.jobs
    ensures ApplyStart(s, campaign, pending, moment).db.jobs[j].outbound.None?
  {
    if campaign in s.db.campaigns && s.db.campaigns[campaign].status.Draft? && pending != [] {
      assert CampaignRowOk(s.db.campaigns, s.db.nextId, campaign);
      var target := s.db.campaigns[campaign];
      StartShape(s, target, pending, moment);
      var (scheduled, jobs) := Started(target).Schedule(pending, moment, s.db.nextId).value;
      StartedJobOk(s, target, pending, moment, scheduled, jobs, j);
    }
  }

  lemma {:induction false} SettledJobsUnlinked(
    db: Db, claim: ClaimedSendJob, moment: Time, result: DispatchResult, j: Id)
    requires Accepts(db, claim) && Sending.Settle(db, claim, moment, result).Processed?
    requires j in Sending.Settle(db, claim, moment, result).db.jobs && j !in db.jobs
    ensures Sending.Settle(db, claim, moment, result).db.jobs[j].outbound.None?
  {
  }

  lemma {:induction false} ProcessedJobsUnlinked(db: Db, claim: ClaimedSendJob, moment: Time, env: SendEnv, j: Id)
    requires ProcessClaimed(db, claim, moment, env).Processed?
    requires j in ProcessClaimed(db, claim, moment, env).db.jobs && j !in db.jobs
    ensures ProcessClaimed(db, claim, moment, env).db.jobs[j].outbound.None?
  {
    if Accepts(db, claim) {
      DispatchLeavesRows(db, claim, env);
      var (after, result) :=
        Dispatch(db, claim.workspace, claim.payload.toEmail, claim.payload.subject, claim.payload.body, env);
      SettledJobsUnlinked(after, claim, moment, result, j);
    }
  }

  lemma {:induction false} HandledJobKeys(db: Db, batch: seq<OutboxEvent>, moment: Time)
    ensures Replies.HandleAll(db, batch, moment).jobs.Keys == db.jobs.Keys
    ensures Replies.HandleAll(db, batch, moment).leads.Keys == db.leads.Keys
  {
    if batch != [] {
      var last := |batch| - 1;
      HandledJobKeys(db, batch[..last], moment);
      var before := Replies.HandleAll(db, batch[..last], moment);
      assert Replies.HandleEvent(before, batch[last], moment).jobs.Keys == before.jobs.Keys;
      assert Replies.HandleEvent(before, batch[last], moment).leads.Keys == before.leads.Keys;
    }
  }

  lemma {:induction false} FollowUpsUnlinked(s: Sys, job: Id, index: nat, byId: bool, moment: Time, env: SendEnv, j: Id)
    requires Inv(s) && Enabled(s, ProcessToken(job, index, byId, moment, env))
    requires j in Process(s, job, index, byId, moment, env).db.jobs && j !in s.db.jobs
    ensures Process(s, job, index, byId, moment, env).db.jobs[j].outbound.None?
  {
    var claim := ClaimInHand(s, job, index, byId);
    if claim.Some? && ProcessClaimed(s.db, claim.value, moment, env).Processed? {
      ProcessedJobsUnlinked(s.db, claim.value, moment, env, j);
    }
  }

  lemma {:induction false} AddedJobsUnlinked(s: Sys, campaign: Id, emails: seq<string>, moment: Time, j: Id)
    requires Inv(s) && s.clock <= moment
    requires j in ApplyAddLeads(s, campaign, emails, moment).db.jobs && j !in s.db.jobs
    ensures ApplyAddLeads(s, campaign, emails, moment).db.jobs[j].outbound.None?
  {
    AddLeadsInserts(s, campaign, emails, moment);
  }

  /** A new job has no link. */
  lemma {:induction false} NewJobsUnlinked(s: Sys, op: Op, j: Id)
    requires Inv(s) && Enabled(s, op) && j in Apply(s, op).db.jobs && j !in s.db.jobs
    ensures Apply(s, op).db.jobs[j].outbound.None?
  {
    match op
    case AddLeads(campaign, emails, moment) => AddedJobsUnlinked(s, campaign, emails, moment, j);
    case StartCampaign(campaign, pending, moment) => StartedJobsUnlinked(s, campaign, pending, moment, j);
    case ClaimJobs(_, worker, chosen, moment) =>
    case ProcessToken(job, index, byId, moment, env) => FollowUpsUnlinked(s, job, index, byId, moment, env, j);
    case HandleReplies(_, batch, moment) => HandledJobKeys(s.db, batch, moment);
    case _ => QuietOps(s, op);
  }

  /** A job linked to a message that was already there was linked to it before. */
  /** A processed job is linked to the new message, or as it was. */
  lemma {:induction false} ProcessedLink(s: Sys, j: Id, index: nat, byId: bool, moment: Time, env: SendEnv)
    requires Inv(s) && Enabled(s, ProcessToken(j, index, byId, moment, env)) && j in s.db.jobs
    ensures var t := Process(s, j, index, byId, moment, env);
      && j in t.db.jobs
      && (t.db.jobs[j].outbound == s.db.jobs[j].outbound || t.db.jobs[j].outbound == Some(s.db.nextId))
  {
    var claim := ClaimInHand(s, j, index, byId);
    assert JobRowOk(s, j);
    ClaimIsSettling(s, j, index, byId);
    if claim.Some? && ProcessClaimed(s.db, claim.value, moment, env).Processed? {
      ProcessedJobs(s.db, claim.value, moment, env, j);
    }
  }

  lemma {:induction false} OldMessagesLinkedBefore(s: Sys, op: Op, j: Id)
    requires Inv(s) && Enabled(s, op) && j in Apply(s, op).db.jobs
    requires Apply(s, op).db.jobs[j].outbound.Some? && Apply(s, op).db.jobs[j].outbound.value in s.db.outbounds
    ensures j in s.db.jobs && s.db.jobs[j].outbound == Apply(s, op).db.jobs[j].outbound
  {
    if j !in s.db.jobs { NewJobsUnlinked(s, op, j); }
    ApplyRows(s, op, j);
    MessageIsNew(s);
    if Touches(op, j) && op.ProcessToken? { ProcessedLink(s, j, op.index, op.byId, op.moment, op.env); }
  }

  /** Only a poll writes events, with new identifiers; only the consumer acknowledges. */
  lemma {:induction false} EventsAndAcknowledgements(s: Sys, op: Op, k: nat)
    requires Inv(s) && Enabled(s, op)
    ensures var t := Apply(s, op);
      && s.db.events <= t.db.events
      && (|s.db.events| <= k < |t.db.events| ==> op.PollInbox? && s.db.nextId <= t.db.events[k].id)
      && (!op.HandleReplies? ==> t.db.processed == s.db.processed)
      && s.db.nextId <= t.db.nextId
  {
    match op
    case PollInbox(workspace, candidates, inputs, _) =>
      UnansweredAreOk(s.db, s.db.mailboxes[workspace].id, candidates);
      PollAllAdds(Inbox.PollStart(s.db, candidates), workspace, s.db.mailboxes[workspace].id, inputs);
      NewEventIds(Inbox.PollStart(s.db, candidates), workspace, s.db.mailboxes[workspace].id, inputs);
    case HandleReplies(_, batch, moment) => HandleAllLeavesMail(s.db, batch, moment);
    case ProcessToken(job, index, byId, moment, env) =>
      MessageIsNew(s);
      var claim := ClaimInHand(s, job, index, byId);
      if claim.Some? { ProcessFrame(s.db, claim.value, moment, env); }
    case SendTestEmail(workspace, toEmail, subject, body, env) =>
      MessageIsNew(s);
      SendFrame(s.db, workspace, toEmail, subject, body, env);
    case _ => CommandsLeaveMessaging(s, op);
  }

  /** Every event after the first `n` has an identifier from `first` on. */
  ghost predicate NewFrom(events: seq<OutboxEvent>, n: nat, first: Id) {
    forall k :: n <= k < |events| ==> first <= events[k].id
  }

  lemma {:induction false} NewEventIdsOfOne(
    st: Inbox.PollState, workspace: Id, mailbox: Id, input: Inbox.PollInput, n: nat, first: Id)
    requires NewFrom(st.db.events, n, first) && first <= st.db.nextId
    ensures var after := Inbox.PollOne(st, workspace, mailbox, input);
      first <= after.db.nextId && NewFrom(after.db.events, n, first)
  {
    match MatchReply(input.fetched, st.candidates)
    case None =>
    case Some(matched) =>
  }

  lemma {:induction false} NewEventIds(st: Inbox.PollState, workspace: Id, mailbox: Id, inputs: seq<Inbox.PollInput>)
    ensures var after := Inbox.PollAll(st, workspace, mailbox, inputs);
      st.db.nextId <= after.db.nextId && NewFrom(after.db.events, |st.db.events|, st.db.nextId)
  {
    if inputs != [] {
      var last := |inputs| - 1;
      NewEventIds(st, workspace, mailbox, inputs[..last]);
      NewEventIdsOfOne(Inbox.PollAll(st, workspace, mailbox, inputs[..last]), workspace, mailbox, inputs[last],
                       |st.db.events|, st.db.nextId);
    }
  }

  // ---------- A handled reply has stopped its lead ----------

  ghost predicate HandledOk(s: Sys, k: nat, j: Id)
    requires k < |s.db.events| && j in s.db.jobs
  {
    var (event, job) := (s.db.events[k], s.db.jobs[j]);
    && event.kind.ReplyClassified? && event.id in s.db.processed
    && event.matched.Some? && job.outbound == event.matched ==>
      job.lead in s.db.leads && s.db.leads[job.lead].IsStopped()
  }

  ghost predicate HandledStop(s: Sys) {
    && (forall id :: id in s.db.processed ==> id < s.db.nextId)
    && (forall k, j {:trigger HandledOk(s, k, j)} :: 0 <= k < |s.db.events| && j in s.db.jobs ==> HandledOk(s, k, j))
  }

  lemma {:induction false} HandledStep(s: Sys, op: Op, k: nat, j: Id)
    requires Inv(s) && HandledStop(s) && Enabled(s, op) && k < |Apply(s, op).db.events| && j in Apply(s, op).db.jobs
    ensures HandledOk(Apply(s, op), k, j)
  {
    var t := Apply(s, op);
    EventsAndAcknowledgements(s, op, k);
    if k < |s.db.events| && t.db.events[k].kind.ReplyClassified? && t.db.events[k].id in t.db.processed
       && t.db.events[k].matched.Some? && t.db.jobs[j].outbound == t.db.events[k].matched
    {
      var event := s.db.events[k];
      assert EventOk(s.db, k);
      assert InboundRowOk(s.db, event.aggregate);
      OldMessagesLinkedBefore(s, op, j);
      ApplyRowsEvolve(s, op);
      assert JobEvolves(s, t, j);
      if event.id in s.db.processed {
        assert HandledOk(s, k, j);
        assert LeadEvolves(s, t, s.db.jobs[j].lead);
      } else {
        HandleAllLeavesMail(s.db, op.batch, op.moment);
        var i :| 0 <= i < |op.batch| && op.batch[i].id == event.id;
        SameEvent(s.db, op.workspace, op.batch[i], k);
        HandledBatchStops(s, op.batch, op.moment, i, j);
      }
    }
  }

  /** An event of the feed with the identifier of an outbox event is that event. */
  lemma {:induction false} SameEvent(db: Db, workspace: Id, event: OutboxEvent, k: nat)
    requires EventIdsGrow(db) && k < |db.events| && Replies.InFeed(db, workspace, event) && event.id == db.events[k].id
    ensures event == db.events[k]
  {
    var i :| 0 <= i < |db.events| && db.events[i] == event;
  }

  lemma {:induction false} AcknowledgedAreOld(s: Sys, op: Op)
    requires Inv(s) && HandledStop(s) && Enabled(s, op)
    ensures forall id :: id in Apply(s, op).db.processed ==> id < Apply(s, op).db.nextId
  {
    EventsAndAcknowledgements(s, op, 0);
    if op.HandleReplies? {
      HandleAllLeavesMail(s.db, op.batch, op.moment);
      forall i | 0 <= i < |op.batch| ensures op.batch[i].id < s.db.nextId {
        assert Replies.InFeed(s.db, op.workspace, op.batch[i]);
        var m :| 0 <= m < |s.db.events| && s.db.events[m] == op.batch[i];
      }
    }
  }

  lemma {:induction false} HandledStopKept(s: Sys, op: Op)
    requires Inv(s) && HandledStop(s) && Enabled(s, op)
    ensures HandledStop(Apply(s, op))
  {
    AcknowledgedAreOld(s, op);
    forall k, j | 0 <= k < |Apply(s, op).db.events| && j in Apply(s, op).db.jobs ensures HandledOk(Apply(s, op), k, j) {
      HandledStep(s, op, k, j);
    }
  }

  // ---------- A lead stopped by a reply has a handled reply behind it ----------

  /** Event `k`, acknowledged, answers the message of job `j` of this lead with this intent. */
  ghost predicate Caused(s: Sys, l: Id, intent: Intent, k: nat, j: Id) {
    && k < |s.db.events| && j in s.db.jobs
    && s.db.events[k].id in s.db.processed && s.db.events[k].kind.ReplyClassified?
    && s.db.events[k].matched.Some? && s.db.events[k].matched == s.db.jobs[j].outbound
    && s.db.jobs[j].lead == l && s.db.events[k].intent == intent
  }

  ghost predicate CauseOk(s: Sys, l: Id)
    requires l in s.db.leads
  {
    s.db.leads[l].replyIntent.Some? ==> exists k, j :: Caused(s, l, s.db.leads[l].replyIntent.value, k, j)
  }

  ghost predicate RepliesHaveCauses(s: Sys) {
    forall l {:trigger CauseOk(s, l)} :: l in s.db.leads ==> CauseOk(s, l)
  }

  /** Events, acknowledgements and links stay, so a cause stays a cause. */
  lemma {:induction false} CauseStays(s: Sys, t: Sys, l: Id, intent: Intent, k: nat, j: Id)
    requires Caused(s, l, intent, k, j) && s.db.events <= t.db.events && s.db.processed <= t.db.processed
    requires j in t.db.jobs && t.db.jobs[j].outbound == s.db.jobs[j].outbound && t.db.jobs[j].lead == l
    ensures Caused(t, l, intent, k, j)
  {
  }

  /** A lead the event does not write keeps its cause. */
  lemma {:induction false} UnwrittenLeadKeepsCause(s: Sys, event: OutboxEvent, moment: Time, l: Id)
    requires Inv(s) && l in s.db.leads && CauseOk(s, l)
    requires var t := WithDb(s, Replies.HandleEvent(s.db, event, moment));
      l in t.db.leads && t.db.leads[l] == s.db.leads[l]
    ensures CauseOk(WithDb(s, Replies.HandleEvent(s.db, event, moment)), l)
  {
    var t := WithDb(s, Replies.HandleEvent(s.db, event, moment));
    if s.db.leads[l].replyIntent.Some? {
      var m, j :| Caused(s, l, s.db.leads[l].replyIntent.value, m, j);
      HandleEventRows(s, event, moment, j);
      assert JobRowOk(s, j);
      CauseStays(s, t, l, s.db.leads[l].replyIntent.value, m, j);
    }
  }

  /** A lead the event writes is the one its message was sent to, and takes the event's intent. */
  lemma {:induction false} WrittenLead(s: Sys, event: OutboxEvent, moment: Time, l: Id)
    requires Inv(s) && l in s.db.leads
    requires var t := WithDb(s, Replies.HandleEvent(s.db, event, moment));
      l in t.db.leads && t.db.leads[l] != s.db.leads[l]
    ensures event.matched.Some? && FindLead(s.db.jobs, event.matched.value) == Some(l)
    ensures Replies.HandleEvent(s.db, event, moment).leads[l].replyIntent == Some(event.intent)
  {
    LinkedLeadWasSentTo(s, event.matched.value);
  }

  /** An event that stops a lead is the cause. */
  lemma {:induction false} HandledEventCauses(s: Sys, k: nat, moment: Time, l: Id)
    requires Inv(s) && k < |s.db.events| && s.db.events[k].kind.ReplyClassified? && l in s.db.leads && CauseOk(s, l)
    ensures var t := WithDb(s, Replies.HandleEvent(s.db, s.db.events[k], moment));
      l in t.db.leads && CauseOk(t, l)
  {
    var event := s.db.events[k];
    var t := WithDb(s, Replies.HandleEvent(s.db, event, moment));
    HandleEventRows(s, event, moment, l);
    if t.db.leads[l] == s.db.leads[l] {
      UnwrittenLeadKeepsCause(s, event, moment, l);
    } else {
      WrittenLead(s, event, moment, l);
      var j :| LinksTo(s.db.jobs, j, event.matched.value) && s.db.jobs[j].lead == l;
      HandleEventRows(s, event, moment, j);
      assert Caused(t, l, event.intent, k, j);
    }
  }

  lemma {:induction false} HandledBatchCauses(s: Sys, workspace: Id, batch: seq<OutboxEvent>, moment: Time, l: Id)
    requires Inv(s) && l in s.db.leads && CauseOk(s, l)
    requires forall i :: 0 <= i < |batch| ==> batch[i] in s.db.events && batch[i].kind.ReplyClassified?
    ensures var t := WithDb(s, Replies.HandleAll(s.db, batch, moment));
      l in t.db.leads && CauseOk(t, l)
  {
    if batch != [] {
      var last := |batch| - 1;
      HandledBatchCauses(s, workspace, batch[..last], moment, l);
      HandleAllKeeps(s, batch[..last], moment);
      HandleAllLeavesMail(s.db, batch[..last], moment);
      var u := WithDb(s, Replies.HandleAll(s.db, batch[..last], moment));
      assert u.db.events == s.db.events && batch[last] in s.db.events;
      var k :| 0 <= k < |u.db.events| && u.db.events[k] == batch[last];
      HandledEventCauses(u, k, moment, l);
    } else {
      assert WithDb(s, Replies.HandleAll(s.db, batch, moment)) == s;
    }
  }

  lemma {:induction false} SettledReplies(db: Db, claim: ClaimedSendJob, moment: Time, result: DispatchResult, l: Id)
    requires Accepts(db, claim) && Sending.Settle(db, claim, moment, result).Processed? && l in db.leads
    ensures var after := Sending.Settle(db, claim, moment, result).db;
      && after.leads.Keys == db.leads.Keys
      && after.leads[l].replyIntent == db.leads[l].replyIntent
  {
  }

  lemma {:induction false} ProcessedReplies(db: Db, claim: ClaimedSendJob, moment: Time, env: SendEnv, l: Id)
    requires ProcessClaimed(db, claim, moment, env).Processed? && l in db.leads
    ensures var after := ProcessClaimed(db, claim, moment, env).db;
      && after.leads.Keys == db.leads.Keys
      && after.leads[l].replyIntent == db.leads[l].replyIntent
  {
    if Accepts(db, claim) {
      DispatchLeavesRows(db, claim, env);
      var (after, result) :=
        Dispatch(db, claim.workspace, claim.payload.toEmail, claim.payload.subject, claim.payload.body, env);
      SettledReplies(after, claim, moment, result, l);
    }
  }

  lemma {:induction false} StartedReplies(s: Sys, campaign: Id, pending: seq<Lead>, moment: Time, l: Id)
    requires CampaignInv(s) && s.clock <= moment && Commands.IsPendingList(s.db.leads, campaign, pending)
    requires l in ApplyStart(s, campaign, pending, moment).db.leads
    ensures l in s.db.leads
    ensures s.db.leads[l].replyIntent == ApplyStart(s, campaign, pending, moment).db.leads[l].replyIntent
  {
    if campaign in s.db.campaigns && s.db.campaigns[campaign].status.Draft? && pending != [] {
      assert CampaignRowOk(s.db.campaigns, s.db.nextId, campaign);
      var target := s.db.campaigns[campaign];
      StartShape(s, target, pending, moment);
      var (scheduled, jobs) := Started(target).Schedule(pending, moment, s.db.nextId).value;
      StartedLeadKeys(s, target, pending, moment, scheduled, jobs);
      if s.db.leads[l].campaign == target.id {
        assert LeadRowOk(s, l);
        assert Commands.PendingListed(s.db.leads, target.id, pending, l);
        var i :| 0 <= i < |pending| && pending[i] == s.db.leads[l];
        StartedLookups(s, target, pending, moment, scheduled, jobs, i);
      } else {
        OtherCampaignsLead(s, target, pending, moment, scheduled, jobs, l);
      }
    }
  }

  lemma {:induction false} InsertedAreUnanswered(s: Sys, t: Sys, l: Id)
    requires Inserts(s, t) && l in t.db.leads && l !in s.db.leads
    ensures t.db.leads[l].replyIntent.None?
  {
    assert LeadRowOk(t, l);
  }

  /** Only the consumer gives a lead a reply. */
  lemma {:induction false} ProcessingLeavesReplies(
    s: Sys, job: Id, index: nat, byId: bool, moment: Time, env: SendEnv, l: Id)
    requires Inv(s) && Enabled(s, ProcessToken(job, index, byId, moment, env))
    requires l in Process(s, job, index, byId, moment, env).db.leads
    requires Process(s, job, index, byId, moment, env).db.leads[l].replyIntent.Some?
    ensures l in s.db.leads
    ensures s.db.leads[l].replyIntent == Process(s, job, index, byId, moment, env).db.leads[l].replyIntent
  {
    var claim := ClaimInHand(s, job, index, byId);
    if claim.Some? && ProcessClaimed(s.db, claim.value, moment, env).Processed? {
      if l in s.db.leads { ProcessedReplies(s.db, claim.value, moment, env, l); }
      ProcessedLeadKeys(s.db, claim.value, moment, env);
    }
  }

  lemma {:induction false} RepliesOnlyFromConsumer(s: Sys, op: Op, l: Id)
    requires Inv(s) && Enabled(s, op) && !op.HandleReplies? && l in Apply(s, op).db.leads
    requires Apply(s, op).db.leads[l].replyIntent.Some?
    ensures l in s.db.leads && s.db.leads[l].replyIntent == Apply(s, op).db.leads[l].replyIntent
  {
    match op
    case AddLeads(campaign, emails, moment) =>
      AddLeadsInserts(s, campaign, emails, moment);
      if l !in s.db.leads { InsertedAreUnanswered(s, Apply(s, op), l); }
    case StartCampaign(campaign, pending, moment) => StartedReplies(s, campaign, pending, moment, l);
    case ProcessToken(job, index, byId, moment, env) =>
      ProcessingLeavesReplies(s, job, index, byId, moment, env, l);
    case ClaimJobs(_, _, _, _) =>
    case _ => QuietOps(s, op);
  }

  lemma {:induction false} SettledLeadKeys(db: Db, claim: ClaimedSendJob, moment: Time, result: DispatchResult)
    requires Accepts(db, claim) && Sending.Settle(db, claim, moment, result).Processed?
    ensures Sending.Settle(db, claim, moment, result).db.leads.Keys == db.leads.Keys
  {
  }

  lemma {:induction false} ProcessedLeadKeys(db: Db, claim: ClaimedSendJob, moment: Time, env: SendEnv)
    requires ProcessClaimed(db, claim, moment, env).Processed?
    ensures ProcessClaimed(db, claim, moment, env).db.leads.Keys == db.leads.Keys
  {
    if Accepts(db, claim) {
      DispatchLeavesRows(db, claim, env);
      var (after, result) :=
        Dispatch(db, claim.workspace, claim.payload.toEmail, claim.payload.subject, claim.payload.body, env);
      SettledLeadKeys(after, claim, moment, result);
    }
  }

  lemma {:induction false} CausesKept(s: Sys, op: Op, l: Id)
    requires Inv(s) && RepliesHaveCauses(s) && Enabled(s, op) && l in Apply(s, op).db.leads
    ensures CauseOk(Apply(s, op), l)
  {
    var t := Apply(s, op);
    if op.HandleReplies? {
      HandledJobKeys(s.db, op.batch, op.moment);
      assert CauseOk(s, l);
      forall i | 0 <= i < |op.batch| ensures op.batch[i] in s.db.events && op.batch[i].kind.ReplyClassified? {
        assert Replies.InFeed(s.db, op.workspace, op.batch[i]);
      }
      HandledBatchCauses(s, op.workspace, op.batch, op.moment, l);
      CauseOfDb(WithDb(s, t.db), t, l);
    } else if t.db.leads[l].replyIntent.Some? {
      RepliesOnlyFromConsumer(s, op, l);
      assert CauseOk(s, l);
      var k, j :| Caused(s, l, s.db.leads[l].replyIntent.value, k, j);
      EventsAndAcknowledgements(s, op, 0);
      ApplyRowsEvolve(s, op);
      assert JobEvolves(s, t, j);
      CauseStays(s, t, l, s.db.leads[l].replyIntent.value, k, j);
    }
  }

  lemma {:induction false} CauseOfDb(s: Sys, t: Sys, l: Id)
    requires s.db == t.db && l in s.db.leads && CauseOk(s, l)
    ensures CauseOk(t, l)
  {
    if s.db.leads[l].replyIntent.Some? {
      var k, j :| Caused(s, l, s.db.leads[l].replyIntent.value, k, j);
      assert Caused(t, l, s.db.leads[l].replyIntent.value, k, j);
    }
  }

  // ---------- Over runs ----------

  lemma {:induction false} RepliesOverRuns(s: Sys, ops: seq<Op>)
    requires Inv(s) && HandledStop(s) && RepliesHaveCauses(s) && IsRun(s, ops)
    ensures HandledStop(Exec(s, ops)) && RepliesHaveCauses(Exec(s, ops))
    decreases |ops|
  {
    if ops != [] {
      var t := Apply(s, ops[0]);
      ApplyKeeps(s, ops[0]);
      HandledStopKept(s, ops[0]);
      forall l | l in t.db.leads ensures CauseOk(t, l) {
        CausesKept(s, ops[0], l);
      }
      RepliesOverRuns(t, ops[1..]);
    }
  }

  /**
   After every run from empty tables: the lead behind a handled reply to a campaign message is stopped; and a lead
   stopped by a reply has a handled reply to one of its messages, with the intent the lead records.
   */
  lemma {:induction false} RepliesAndStopsCorrespond(s: Sys, ops: seq<Op>)
    requires Init(s) && IsRun(s, ops)
    ensures HandledStop(Exec(s, ops)) && RepliesHaveCauses(Exec(s, ops))
  {
    InitHolds(s);
    RepliesOverRuns(s, ops);
  }
}
