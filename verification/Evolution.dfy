/** What one operation may do to a row that is already there, and what it must leave alone. */
module Evolution {
  import opened AddLeadsKeeps
  import opened Base
  import opened CampaignDomain
  import opened CommandKeeps
  import opened Invariant
  import opened Machine
  import opened ProcessKeeps
  import opened ProcessingKeeps
  import opened QueueKeeps
  import opened Reachable
  import opened SendQueue
  import opened Sending
  import opened StartKeeps
  import opened Tables
  import Commands
  import Replies

  // ---------- Jobs ----------

  /** The operation claims this job, or processes a claim of it. */
  predicate Touches(op: Op, j: Id) {
    match op
    case ClaimJobs(_, _, chosen, _) => j in chosen
    case ProcessToken(job, _, _, _, _) => job == j
    case _ => false
  }

  /** The row is as it was, unless it was pending and has been cancelled. */
  ghost predicate JobLeft(s: Sys, t: Sys, j: Id) {
    && j in s.db.jobs && j in t.db.jobs && j in s.jobLogs && j in t.jobLogs
    && t.jobLogs[j] == s.jobLogs[j]
    && (t.db.jobs[j] == s.db.jobs[j]
        || (s.db.jobs[j].status.Pending? && t.db.jobs[j] == CancelRow(s.db.jobs[j], t.db.jobs[j].updatedAt)))
  }

  /** Every claim is still on record, and a settled one stays settled. */
  predicate TokensGrow(before: seq<Token>, after: seq<Token>) {
    && |before| <= |after|
    && forall i :: 0 <= i < |before| ==>
         && after[i].claim == before[i].claim && after[i].claimedAt == before[i].claimedAt
         && (!before[i].fate.Outstanding? ==> after[i].fate == before[i].fate)
  }

  /** Fixed columns stay; a link, once set, stays; a terminal job stays terminal, and may only turn cancelled. */
  ghost predicate JobEvolves(s: Sys, t: Sys, j: Id) {
    && j in s.db.jobs && j in t.db.jobs && j in s.jobLogs && j in t.jobLogs
    && var (before, after) := (s.db.jobs[j], t.db.jobs[j]);
      && after.id == before.id && after.workspace == before.workspace && after.mailbox == before.mailbox
      && after.lead == before.lead && after.payload == before.payload
      && (before.outbound.Some? ==> after.outbound == before.outbound)
      && (before.IsTerminal() ==> after.status == before.status || after.status.Cancelled?)
      && t.jobLogs[j].firstDue == s.jobLogs[j].firstDue
      && TokensGrow(s.jobLogs[j].tokens, t.jobLogs[j].tokens)
  }

  // ---------- Leads ----------

  /** Steps are only added; a stopped lead is frozen. */
  ghost predicate LeadEvolves(s: Sys, t: Sys, l: Id) {
    && l in s.db.leads && l in t.db.leads && l in s.leadLogs && l in t.leadLogs
    && SameLead(s.db.leads[l], t.db.leads[l])
    && s.leadLogs[l].sends <= t.leadLogs[l].sends
    && s.leadLogs[l].jobs <= t.leadLogs[l].jobs
    && (s.db.leads[l].IsStopped() ==> t.db.leads[l] == s.db.leads[l] && t.leadLogs[l] == s.leadLogs[l])
  }

  ghost predicate RowsEvolve(s: Sys, t: Sys) {
    && (forall l {:trigger LeadEvolves(s, t, l)} :: l in s.db.leads ==> LeadEvolves(s, t, l))
    && (forall j {:trigger JobEvolves(s, t, j)} :: j in s.db.jobs ==> JobEvolves(s, t, j))
  }

  // ---------- Operations that leave the rows of leads and jobs as they are ----------

  lemma {:induction false} RowsStay(s: Sys, t: Sys, j: Id, l: Id)
    requires CampaignInv(s) && Grows(s, t)
    ensures j in s.db.jobs ==> JobLeft(s, t, j)
    ensures l in s.db.leads ==> LeadEvolves(s, t, l)
  {
  }

  /** Creating a campaign, sending a test email and polling leave the rows of leads and jobs as they are. */
  lemma {:induction false} QuietOps(s: Sys, op: Op)
    requires Inv(s) && Enabled(s, op) && (op.CreateCampaign? || op.SendTestEmail? || op.PollInbox?)
    ensures Grows(s, Apply(s, op))
  {
    match op
    case CreateCampaign(workspace, mailbox, name, drafts, moment) =>
      CreateGrows(s, workspace, mailbox, name, drafts, moment);
    case SendTestEmail(workspace, toEmail, subject, body, env) =>
      TestEmailGrows(s, workspace, toEmail, subject, body, env);
    case PollInbox(workspace, candidates, inputs, cursor) => PollGrows(s, workspace, candidates, inputs, cursor);
  }

  // ---------- Adding leads ----------

  /** A row that was there keeps its contents and its log. */
  ghost predicate OldRowsStay(s: Sys, t: Sys, id: Id) {
    && (id in s.db.leads ==>
         LeadEvolves(s, t, id) && t.db.leads[id] == s.db.leads[id] && t.leadLogs[id] == s.leadLogs[id])
    && (id in s.db.jobs ==> JobLeft(s, t, id) && t.db.jobs[id] == s.db.jobs[id])
  }

  lemma {:induction false} AddLeadsStays(s: Sys, campaign: Id, emails: seq<string>, moment: Time, id: Id)
    requires CampaignInv(s) && s.clock <= moment
    ensures OldRowsStay(s, ApplyAddLeads(s, campaign, emails, moment), id)
  {
    AddLeadsInserts(s, campaign, emails, moment);
  }

  // ---------- Starting a campaign ----------

  lemma {:induction false} StartedRows(
    s: Sys, target: Campaign, pending: seq<Lead>, moment: Time, scheduled: seq<Lead>, jobs: seq<SendJob>, id: Id)
    requires Starts(s, target, pending, moment, scheduled, jobs)
    ensures var t := After(s, target, pending, moment, scheduled, jobs);
      && (id in s.db.leads ==> LeadEvolves(s, t, id))
      && (id in s.db.jobs ==> JobLeft(s, t, id))
  {
    OldJobKept(s, target, pending, moment, scheduled, jobs, id);
    if id in s.db.leads {
      assert LeadRowOk(s, id);
      if s.db.leads[id].campaign == target.id {
        assert Commands.PendingListed(s.db.leads, target.id, pending, id);
        var i :| 0 <= i < |pending| && pending[i] == s.db.leads[id];
        StartedLookups(s, target, pending, moment, scheduled, jobs, i);
      } else {
        OtherCampaignsLead(s, target, pending, moment, scheduled, jobs, id);
      }
    }
  }

  lemma {:induction false} StartRows(s: Sys, campaign: Id, pending: seq<Lead>, moment: Time, id: Id)
    requires CampaignInv(s) && s.clock <= moment && Commands.IsPendingList(s.db.leads, campaign, pending)
    ensures var t := ApplyStart(s, campaign, pending, moment);
      && (id in s.db.leads ==> LeadEvolves(s, t, id))
      && (id in s.db.jobs ==> JobLeft(s, t, id))
  {
    if campaign in s.db.campaigns && s.db.campaigns[campaign].status.Draft? && pending != [] {
      assert CampaignRowOk(s.db.campaigns, s.db.nextId, campaign);
      var target := s.db.campaigns[campaign];
      StartShape(s, target, pending, moment);
      var (scheduled, jobs) := Started(target).Schedule(pending, moment, s.db.nextId).value;
      StartedRows(s, target, pending, moment, scheduled, jobs, id);
    } else {
      RowsStay(s, s.(clock := moment), id, id);
    }
  }

  // ---------- Claiming ----------

  lemma {:induction false} ClaimRowsEvolve(s: Sys, workspace: Id, worker: Id, chosen: set<Id>, moment: Time, id: Id)
    requires Claims(s, workspace, chosen, moment)
    ensures var t := ApplyClaim(s, worker, chosen, moment);
      && (id in s.db.leads ==> LeadEvolves(s, t, id))
      && (id in s.db.jobs ==> JobEvolves(s, t, id))
      && (id in s.db.jobs && id !in chosen ==> JobLeft(s, t, id))
  {
  }

  // ---------- Consuming replies ----------

  /** Stopping a lead writes that lead, if it was not stopped yet, and its pending jobs. */
  lemma {:induction false} StopRows(s: Sys, l: Id, intent: Intent, moment: Time, id: Id)
    requires Stops(s, l, intent, moment)
    ensures var t := Stopped(s, l, intent, moment);
      && (id in s.db.leads ==> LeadEvolves(s, t, id))
      && (id in s.db.jobs ==> JobLeft(s, t, id))
  {
    StoppedLookups(s, l, intent, moment);
    if id in s.db.jobs {
      assert JobRowOk(s, id);
    }
  }

  lemma {:induction false} HandleEventRows(s: Sys, event: OutboxEvent, moment: Time, id: Id)
    requires Inv(s)
    ensures var t := WithDb(s, Replies.HandleEvent(s.db, event, moment));
      && (id in s.db.leads ==> LeadEvolves(s, t, id))
      && (id in s.db.jobs ==> JobLeft(s, t, id))
  {
    var reply := Replies.ToReply(event);
    assert id in s.db.leads ==> LeadRowOk(s, id);
    assert id in s.db.jobs ==> JobRowOk(s, id);
    if reply.matched.Some? && FindLead(s.db.jobs, reply.matched.value).Some? {
      var l := FindLead(s.db.jobs, reply.matched.value).value;
      LinkedLeadWasSentTo(s, reply.matched.value);
      if s.db.leads[l].IsReplyable() {
        assert LeadRowOk(s, l);
        StopRows(s, l, reply.intent, moment, id);
      }
    }
  }

  /** The row of a job after two operations that left it. */
  lemma {:induction false} JobLeftTwice(s: Sys, t: Sys, u: Sys, j: Id)
    requires JobLeft(s, t, j) && JobLeft(t, u, j)
    ensures JobLeft(s, u, j)
  {
  }

  lemma {:induction false} LeadEvolvesTwice(s: Sys, t: Sys, u: Sys, l: Id)
    requires LeadEvolves(s, t, l) && LeadEvolves(t, u, l)
    ensures LeadEvolves(s, u, l)
  {
  }

  lemma {:induction false} JobEvolvesTwice(s: Sys, t: Sys, u: Sys, j: Id)
    requires JobEvolves(s, t, j) && JobEvolves(t, u, j)
    ensures JobEvolves(s, u, j)
  {
  }

  lemma {:induction false} HandleAllRows(s: Sys, batch: seq<OutboxEvent>, moment: Time, id: Id)
    requires Inv(s)
    ensures var t := WithDb(s, Replies.HandleAll(s.db, batch, moment));
      && (id in s.db.leads ==> LeadEvolves(s, t, id))
      && (id in s.db.jobs ==> JobLeft(s, t, id))
  {
    if batch == [] {
      RowsStay(s, s, id, id);
    } else {
      var last := |batch| - 1;
      var t, u :=
        WithDb(s, Replies.HandleAll(s.db, batch[..last], moment)), WithDb(s, Replies.HandleAll(s.db, batch, moment));
      HandleAllRows(s, batch[..last], moment, id);
      HandleAllKeeps(s, batch[..last], moment);
      HandleEventRows(t, batch[last], moment, id);
      if id in s.db.leads { LeadEvolvesTwice(s, t, u, id); }
      if id in s.db.jobs { JobLeftTwice(s, t, u, id); }
    }
  }

  // ---------- Processing a claim ----------

  /** The row of the claimed job after a processing call, by outcome. */
  ghost predicate ProcessedRow(
    before: SendJob, after: SendJob, outcome: Outcome, accepted: bool, outbound: Id, moment: Time)
  {
    match outcome
    case Sent => accepted && after == CompleteRow(before, outbound, moment)
    case Deferred => accepted && exists retryAt, reason :: after == ReleaseRow(before, retryAt, reason, moment)
    case Suppressed => accepted && after == CancelRow(before, moment)
    case Retrying => accepted && exists retryAt, error :: after == RescheduleRow(before, retryAt, error, moment)
    case Failed => accepted && exists error :: after == FailRow(before, error, moment)
    case Cancelled => !accepted && after == CancelRow(before, moment)
  }

  lemma {:induction false} SentJobs(db: Db, claim: ClaimedSendJob, moment: Time, outbound: Id, sentAt: Time, id: Id)
    requires Accepts(db, claim) && Sending.Settle(db, claim, moment, DispatchSent(outbound, sentAt)).Processed?
    requires id in db.jobs && id < db.nextId
    ensures var after := Sending.Settle(db, claim, moment, DispatchSent(outbound, sentAt)).db;
      && id in after.jobs && Sending.Settle(db, claim, moment, DispatchSent(outbound, sentAt)).outcome.Sent?
      && after.jobs[id] == if id == claim.id then CompleteRow(db.jobs[id], outbound, moment) else db.jobs[id]
  {
  }

  lemma {:induction false} SettledJobs(db: Db, claim: ClaimedSendJob, moment: Time, result: DispatchResult, id: Id)
    requires Accepts(db, claim) && Sending.Settle(db, claim, moment, result).Processed?
    requires id in db.jobs && id < db.nextId
    ensures var (after, outcome) :=
      (Sending.Settle(db, claim, moment, result).db, Sending.Settle(db, claim, moment, result).outcome);
      && id in after.jobs
      && (outcome.Sent? <==> result.DispatchSent?)
      && (id == claim.id ==> ProcessedRow(db.jobs[id], after.jobs[id], outcome, true,
                                          if result.DispatchSent? then result.outbound else db.nextId, moment))
      && (id != claim.id ==> after.jobs[id] == db.jobs[id])
  {
    if result.DispatchSent? { SentJobs(db, claim, moment, result.outbound, result.sentAt, id); }
  }

  lemma {:induction false} SentLeads(db: Db, claim: ClaimedSendJob, moment: Time, outbound: Id, sentAt: Time, id: Id)
    requires Accepts(db, claim) && Sending.Settle(db, claim, moment, DispatchSent(outbound, sentAt)).Processed?
    requires id in db.leads
    ensures var after := Sending.Settle(db, claim, moment, DispatchSent(outbound, sentAt)).db;
      && id in after.leads
      && (id != claim.lead ==> after.leads[id] == db.leads[id])
      && (id == claim.lead ==> SameLead(db.leads[id], after.leads[id]))
  {
  }

  lemma {:induction false} SettledLeads(db: Db, claim: ClaimedSendJob, moment: Time, result: DispatchResult, id: Id)
    requires Accepts(db, claim) && Sending.Settle(db, claim, moment, result).Processed?
    requires id in db.leads
    ensures var after := Sending.Settle(db, claim, moment, result).db;
      && id in after.leads
      && (id != claim.lead ==> after.leads[id] == db.leads[id])
      && (id == claim.lead ==> SameLead(db.leads[id], after.leads[id]))
  {
    if result.DispatchSent? { SentLeads(db, claim, moment, result.outbound, result.sentAt, id); }
  }

  lemma {:induction false} DispatchLeavesRows(db: Db, claim: ClaimedSendJob, env: SendEnv)
    ensures var (after, result) :=
        Dispatch(db, claim.workspace, claim.payload.toEmail, claim.payload.subject, claim.payload.body, env);
      && after.leads == db.leads && after.jobs == db.jobs && after.campaigns == db.campaigns
      && db.nextId <= after.nextId
      && (result.DispatchSent? ==> result.outbound == db.nextId)
  {
  }

  /** The row of the claimed job; no other old row is written. */
  lemma {:induction false} ProcessedJobs(db: Db, claim: ClaimedSendJob, moment: Time, env: SendEnv, id: Id)
    requires ProcessClaimed(db, claim, moment, env).Processed?
    requires id in db.jobs && id < db.nextId
    ensures var (after, outcome) :=
      (ProcessClaimed(db, claim, moment, env).db, ProcessClaimed(db, claim, moment, env).outcome);
      && id in after.jobs
      && (id == claim.id ==> ProcessedRow(db.jobs[id], after.jobs[id], outcome, Accepts(db, claim), db.nextId, moment))
      && (id != claim.id ==> after.jobs[id] == db.jobs[id])
  {
    if Accepts(db, claim) {
      DispatchLeavesRows(db, claim, env);
      var (after, result) :=
        Dispatch(db, claim.workspace, claim.payload.toEmail, claim.payload.subject, claim.payload.body, env);
      SettledJobs(after, claim, moment, result, id);
    }
  }

  lemma {:induction false} ProcessedLeads(db: Db, claim: ClaimedSendJob, moment: Time, env: SendEnv, id: Id)
    requires ProcessClaimed(db, claim, moment, env).Processed?
    requires id in db.leads
    ensures var after := ProcessClaimed(db, claim, moment, env).db;
      && id in after.leads
      && (id != claim.lead || !Accepts(db, claim) ==> after.leads[id] == db.leads[id])
      && (Accepts(db, claim) && id == claim.lead ==> SameLead(db.leads[id], after.leads[id]))
  {
    if Accepts(db, claim) {
      DispatchLeavesRows(db, claim, env);
      var (after, result) :=
        Dispatch(db, claim.workspace, claim.payload.toEmail, claim.payload.subject, claim.payload.body, env);
      SettledLeads(after, claim, moment, result, id);
    }
  }

  ghost predicate Processing(s: Sys, j: Id, index: nat, claim: ClaimedSendJob) {
    CampaignInv(s) && Settling(s, j, index, claim) && claim.id == j
  }

  lemma {:induction false} ProcessedJobEvolves(
    s: Sys, j: Id, index: nat, claim: ClaimedSendJob, moment: Time, env: SendEnv)
    requires Processing(s, j, index, claim)
    ensures JobEvolves(s, AfterProcessing(s, j, index, claim, moment, env), j)
  {
    assert JobRowOk(s, j);
    AcceptedJobIsLive(s, j, claim);
    if ProcessClaimed(s.db, claim, moment, env).Processed? {
      ProcessedJobs(s.db, claim, moment, env, j);
    }
  }

  lemma {:induction false} OtherJobLeft(
    s: Sys, j: Id, index: nat, claim: ClaimedSendJob, moment: Time, env: SendEnv, id: Id)
    requires Processing(s, j, index, claim) && id in s.db.jobs && id != j
    ensures JobLeft(s, AfterProcessing(s, j, index, claim, moment, env), id)
  {
    assert JobRowOk(s, id);
    if ProcessClaimed(s.db, claim, moment, env).Processed? {
      ProcessedJobs(s.db, claim, moment, env, id);
    }
  }

  lemma {:induction false} ProcessedLeadEvolves(
    s: Sys, j: Id, index: nat, claim: ClaimedSendJob, moment: Time, env: SendEnv, id: Id)
    requires Processing(s, j, index, claim) && id in s.db.leads
    ensures LeadEvolves(s, AfterProcessing(s, j, index, claim, moment, env), id)
  {
    assert LeadRowOk(s, id);
    if ProcessClaimed(s.db, claim, moment, env).Processed? {
      ProcessedLeads(s.db, claim, moment, env, id);
    }
  }

  lemma {:induction false} ProcessRows(s: Sys, j: Id, index: nat, byId: bool, moment: Time, env: SendEnv, id: Id)
    requires CampaignInv(s) && InOrder(s.clock, moment, env)
    requires j in s.jobLogs && index < |s.jobLogs[j].tokens| && s.jobLogs[j].tokens[index].fate.Outstanding?
    ensures var t := Process(s, j, index, byId, moment, env);
      && (id in s.db.leads ==> LeadEvolves(s, t, id))
      && (id in s.db.jobs ==> JobEvolves(s, t, id))
      && (id in s.db.jobs && id != j ==> JobLeft(s, t, id))
  {
    assert id in s.db.leads ==> LeadRowOk(s, id);
    assert id in s.db.jobs ==> JobRowOk(s, id);
    ClaimIsSettling(s, j, index, byId);
    match ClaimInHand(s, j, index, byId)
    case None =>
    case Some(claim) =>
      var late := s.(clock := env.stampedAt);
      assert claim.id == j by { assert JobRowOk(s, j); }
      LaterClock(s, env.stampedAt);
      if id in s.db.leads { ProcessedLeadEvolves(late, j, index, claim, moment, env, id); }
      if id in s.db.jobs && id != j { OtherJobLeft(late, j, index, claim, moment, env, id); }
      ProcessedJobEvolves(late, j, index, claim, moment, env);
  }

  /** A claim that is not the one being processed stays as it is. */
  lemma {:induction false} OtherTokenLeft(s: Sys, j: Id, index: nat, byId: bool, moment: Time, env: SendEnv, other: nat)
    requires Inv(s) && Enabled(s, ProcessToken(j, index, byId, moment, env)) && other != index
    requires other < |s.jobLogs[j].tokens|
    ensures var t := Process(s, j, index, byId, moment, env);
      j in t.jobLogs && other < |t.jobLogs[j].tokens| && t.jobLogs[j].tokens[other] == s.jobLogs[j].tokens[other]
  {
  }

  lemma {:induction false} ClockAfter(s: Sys, j: Id, index: nat, byId: bool, moment: Time, env: SendEnv)
    requires Enabled(s, ProcessToken(j, index, byId, moment, env))
    ensures Process(s, j, index, byId, moment, env).clock == env.stampedAt
  {
  }

  predicate HasFate(s: Sys, j: Id, index: nat, fate: Fate) {
    j in s.jobLogs && index < |s.jobLogs[j].tokens| && s.jobLogs[j].tokens[index].fate == fate
  }

  /** What a processing call does to the token it uses; it never raises. */
  lemma {:induction false} TokenEnds(s: Sys, j: Id, index: nat, byId: bool, moment: Time, env: SendEnv)
    requires Inv(s) && Enabled(s, ProcessToken(j, index, byId, moment, env))
    ensures var t := Process(s, j, index, byId, moment, env);
      match ClaimInHand(s, j, index, byId)
      case None => t.db == s.db && HasFate(t, j, index, Refused)
      case Some(claim) =>
        var result := ProcessClaimed(s.db, claim, moment, env);
        result.Processed? && t.db == result.db && HasFate(t, j, index, Settled(result.outcome))
  {
    ClaimIsSettling(s, j, index, byId);
    if ClaimInHand(s, j, index, byId).Some? {
      var claim := ClaimInHand(s, j, index, byId).value;
      assert claim.id == j by { assert JobRowOk(s, j); }
      NeverRaises(s, j, index, claim, moment, env);
    }
  }

  // ---------- One operation, and a run ----------

  lemma {:induction false} LeftEvolves(s: Sys, t: Sys, j: Id)
    requires JobLeft(s, t, j)
    ensures JobEvolves(s, t, j)
  {
  }

  /** Every operation lets rows evolve as they may, and leaves the jobs it does not touch. */
  lemma {:induction false} ApplyRows(s: Sys, op: Op, id: Id)
    requires Inv(s) && Enabled(s, op)
    ensures var t := Apply(s, op);
      && (id in s.db.leads ==> LeadEvolves(s, t, id))
      && (id in s.db.jobs && !Touches(op, id) ==> JobLeft(s, t, id))
      && (id in s.db.jobs && Touches(op, id) ==> JobEvolves(s, t, id))
  {
    match op
    case AddLeads(campaign, emails, moment) => AddLeadsStays(s, campaign, emails, moment, id);
    case StartCampaign(campaign, pending, moment) => StartRows(s, campaign, pending, moment, id);
    case ClaimJobs(workspace, worker, chosen, moment) => ClaimRowsEvolve(s, workspace, worker, chosen, moment, id);
    case ProcessToken(job, index, byId, moment, env) => ProcessRows(s, job, index, byId, moment, env, id);
    case HandleReplies(workspace, batch, moment) => HandleAllRows(s, batch, moment, id);
    case _ =>
      QuietOps(s, op);
      RowsStay(s, Apply(s, op), id, id);
  }

  lemma {:induction false} ApplyRowsEvolve(s: Sys, op: Op)
    requires Inv(s) && Enabled(s, op)
    ensures RowsEvolve(s, Apply(s, op))
  {
    var t := Apply(s, op);
    forall l | l in s.db.leads ensures LeadEvolves(s, t, l) {
      ApplyRows(s, op, l);
    }
    forall j | j in s.db.jobs ensures JobEvolves(s, t, j) {
      ApplyRows(s, op, j);
      if !Touches(op, j) { LeftEvolves(s, t, j); }
    }
  }

  lemma {:induction false} RowsEvolveTwice(s: Sys, t: Sys, u: Sys)
    requires RowsEvolve(s, t) && RowsEvolve(t, u)
    ensures RowsEvolve(s, u)
  {
    forall l | l in s.db.leads ensures LeadEvolves(s, u, l) {
      assert LeadEvolves(s, t, l) && LeadEvolves(t, u, l);
      LeadEvolvesTwice(s, t, u, l);
    }
    forall j | j in s.db.jobs ensures JobEvolves(s, u, j) {
      assert JobEvolves(s, t, j) && JobEvolves(t, u, j);
      JobEvolvesTwice(s, t, u, j);
    }
  }

  /** So does every run. */
  lemma {:induction false} ExecRowsEvolve(s: Sys, ops: seq<Op>)
    requires Inv(s) && IsRun(s, ops)
    ensures RowsEvolve(s, Exec(s, ops))
    decreases |ops|
  {
    if ops == [] {
      forall l | l in s.db.leads ensures LeadEvolves(s, s, l) { assert LeadRowOk(s, l); }
      forall j | j in s.db.jobs ensures JobEvolves(s, s, j) { assert JobRowOk(s, j); }
    } else {
      ApplyKeeps(s, ops[0]);
      ApplyRowsEvolve(s, ops[0]);
      ExecRowsEvolve(Apply(s, ops[0]), ops[1..]);
      RowsEvolveTwice(s, Apply(s, ops[0]), Exec(s, ops));
    }
  }
}
