/** When each of the six outcomes of a processing call occurs, and what it leaves behind, column by column. */
module OutcomeTheorems {
  import opened Base
  import opened CampaignDomain
  import opened Evolution
  import opened Invariant
  import opened Machine
  import opened ProcessKeeps
  import opened ProcessingKeeps
  import opened Reachable
  import opened SendKeeps
  import opened SendQueue
  import opened Sending
  import opened Tables

  // ---------- The decision ----------

  predicate Configured(db: Db, claim: ClaimedSendJob) {
    claim.workspace in db.mailboxes
  }

  predicate Barred(db: Db, claim: ClaimedSendJob) {
    IsSuppressed(db.suppressions, claim.workspace, claim.payload.toEmail)
  }

  /** The lock is taken, or today's messages have reached the cap. */
  predicate Held(db: Db, claim: ClaimedSendJob, env: SendEnv)
    requires Configured(db, claim)
  {
    var mailbox := db.mailboxes[claim.workspace];
    !env.lockFree || |SentSince(db.outbounds, mailbox.id, StartOfUtcDay(env.checkedAt))| >= mailbox.dailySendCap
  }

  /** There is no mailbox, or the message gets as far as the provider and is turned down. */
  predicate Fails(db: Db, claim: ClaimedSendJob, env: SendEnv) {
    !Configured(db, claim) || (!Barred(db, claim) && !Held(db, claim, env) && env.provider.Failure?)
  }

  lemma {:induction false} DispatchIsDecided(db: Db, claim: ClaimedSendJob, env: SendEnv)
    ensures var result :=
        Dispatch(db, claim.workspace, claim.payload.toEmail, claim.payload.subject, claim.payload.body, env).1;
      && (result.DispatchSuppressed? <==> Configured(db, claim) && Barred(db, claim))
      && (result.DispatchDeferred? <==> Configured(db, claim) && !Barred(db, claim) && Held(db, claim, env))
      && (result.DispatchSent? <==>
            Configured(db, claim) && !Barred(db, claim) && !Held(db, claim, env) && env.provider.Success?)
      && (result.DispatchFailed? <==> Fails(db, claim, env))
  {
  }

  lemma {:induction false} SettleIsDecided(db: Db, claim: ClaimedSendJob, moment: Time, result: DispatchResult)
    requires Accepts(db, claim) && Sending.Settle(db, claim, moment, result).Processed?
    ensures var outcome := Sending.Settle(db, claim, moment, result).outcome;
      && (outcome.Sent? <==> result.DispatchSent?)
      && (outcome.Deferred? <==> result.DispatchDeferred?)
      && (outcome.Suppressed? <==> result.DispatchSuppressed?)
      && (outcome.Retrying? <==> result.DispatchFailed? && claim.attempts < 3)
      && (outcome.Failed? <==> result.DispatchFailed? && claim.attempts >= 3)
      && !outcome.Cancelled?
  {
  }

  /** The lead is still waiting for this step. */
  predicate Awaited(s: Sys, claim: ClaimedSendJob) {
    && claim.lead in s.db.leads
    && s.db.leads[claim.lead].IsSendable()
    && claim.payload.stepPosition == s.db.leads[claim.lead].stepsSent + 1
  }

  /** In every reachable state the outcome of a processing call is decided by this table. */
  lemma {:induction false} OutcomeIsDecided(s: Sys, j: Id, index: nat, byId: bool, moment: Time, env: SendEnv)
    requires Inv(s) && Enabled(s, ProcessToken(j, index, byId, moment, env)) && ClaimInHand(s, j, index, byId).Some?
    ensures ProcessClaimed(s.db, ClaimInHand(s, j, index, byId).value, moment, env).Processed?
    ensures var claim := ClaimInHand(s, j, index, byId).value;
      var (db, outcome) := (s.db, ProcessClaimed(s.db, claim, moment, env).outcome);
      && (outcome.Cancelled? <==> !Awaited(s, claim))
      && (outcome.Suppressed? <==> Awaited(s, claim) && Configured(db, claim) && Barred(db, claim))
      && (outcome.Deferred? <==>
           Awaited(s, claim) && Configured(db, claim) && !Barred(db, claim) && Held(db, claim, env))
      && (outcome.Sent? <==>
            && Awaited(s, claim) && Configured(db, claim) && !Barred(db, claim) && !Held(db, claim, env)
            && env.provider.Success?)
      && (outcome.Retrying? <==> Awaited(s, claim) && Fails(db, claim, env) && claim.attempts < 3)
      && (outcome.Failed? <==> Awaited(s, claim) && Fails(db, claim, env) && claim.attempts >= 3)
  {
    var claim := ClaimInHand(s, j, index, byId).value;
    TokenEnds(s, j, index, byId, moment, env);
    ClaimIsSettling(s, j, index, byId);
    assert JobRowOk(s, j);
    AcceptedJobIsLive(s, j, claim);
    if Accepts(s.db, claim) {
      DispatchIsDecided(s.db, claim, env);
      var (after, result) :=
        Dispatch(s.db, claim.workspace, claim.payload.toEmail, claim.payload.subject, claim.payload.body, env);
      DispatchLeavesRows(s.db, claim, env);
      SettleIsDecided(after, claim, moment, result);
    }
  }

  // ---------- The effects ----------

  /** A job on its way again: due at `retryAt`, locked by nobody, with the reason. The rest of the row stays. */
  predicate PutBack(before: SendJob, after: SendJob, retryAt: Time, attempts: int, reason: string, moment: Time) {
    after == before.(status := JobStatus.Pending, scheduledAt := retryAt, attempts := attempts,
                     lockedAt := None, lockedBy := None, lastError := Some(reason), updatedAt := moment)
  }

  /** A lead that has failed for this reason, with its steps as they were. */
  predicate FailedFor(before: Lead, after: Lead, reason: StopReason, moment: Time) {
    after == before.(state := LeadState.Failed, stopReason := Some(reason), updatedAt := moment)
  }

  predicate CancelledAt(before: SendJob, after: SendJob, moment: Time) {
    after == before.(status := JobStatus.Cancelled, updatedAt := moment)
  }

  /** The job of step `position + 1`: pending, untried, due its delay after the stamp. */
  function FollowUp(id: Id, campaign: Campaign, lead: Lead, position: nat, stamp: Time): SendJob
    requires position < |campaign.steps|
  {
    var step := campaign.steps[position];
    SendJob(id, campaign.workspace, campaign.mailbox, lead.id,
            Payload(campaign.id, lead.id, step.id, step.position, lead.email, step.subject, step.body),
            stamp + step.delaySeconds * SECOND, JobStatus.Pending, 0, None, None, None, None, stamp)
  }

  /** The message a claim sends: what its payload says, under both of the provider's identifiers. */
  function MessageFor(id: Id, mailbox: Id, claim: ClaimedSendJob, env: SendEnv): Outbound
    requires env.provider.Success?
  {
    Outbound(id, claim.workspace, mailbox, claim.payload.toEmail, claim.payload.subject, claim.payload.body,
             env.messageId, Some(env.provider.value.messageId), Some(env.provider.value.threadId), env.stampedAt)
  }

  /** When and why a deferred job waits: seconds for the lock, or until the next day for the cap. */
  function DeferredUntil(env: SendEnv): (Time, string) {
    if env.lockFree then (StartOfUtcDay(env.checkedAt) + 86_400 * SECOND, "daily send cap reached")
    else (env.checkedAt + 5 * SECOND, "mailbox busy")
  }

  function FailureText(db: Db, claim: ClaimedSendJob, env: SendEnv): string {
    if !Configured(db, claim) || env.provider.Success? then "mailbox not configured" else env.provider.error
  }

  /** A deferral: the attempt is given back, and the lead is left alone. */
  lemma {:induction false} DeferredEffects(db: Db, claim: ClaimedSendJob, moment: Time, env: SendEnv)
    requires claim.id in db.jobs && ProcessClaimed(db, claim, moment, env).Processed?
    requires ProcessClaimed(db, claim, moment, env).outcome.Deferred?
    ensures var (after, until) := (ProcessClaimed(db, claim, moment, env).db, DeferredUntil(env));
      && claim.id in after.jobs && after == db.(jobs := after.jobs)
      && PutBack(db.jobs[claim.id], after.jobs[claim.id], until.0, db.jobs[claim.id].attempts - 1, until.1, moment)
  {
  }

  /** A retry: due again after a minute for each attempt so far, and the lead is left alone. */
  lemma {:induction false} RetryingEffects(db: Db, claim: ClaimedSendJob, moment: Time, env: SendEnv)
    requires claim.id in db.jobs && ProcessClaimed(db, claim, moment, env).Processed?
    requires ProcessClaimed(db, claim, moment, env).outcome.Retrying?
    ensures var after := ProcessClaimed(db, claim, moment, env).db;
      && claim.id in after.jobs && after == db.(jobs := after.jobs)
      && PutBack(db.jobs[claim.id], after.jobs[claim.id], moment + 60 * SECOND * claim.attempts,
                 db.jobs[claim.id].attempts, FailureText(db, claim, env), moment)
  {
  }

  /** The last failure: the job and its lead both fail. */
  lemma {:induction false} FailedEffects(db: Db, claim: ClaimedSendJob, moment: Time, env: SendEnv)
    requires claim.id in db.jobs && ProcessClaimed(db, claim, moment, env).Processed?
    requires ProcessClaimed(db, claim, moment, env).outcome.Failed?
    ensures var after := ProcessClaimed(db, claim, moment, env).db;
      && claim.id in after.jobs && after == db.(leads := after.leads, jobs := after.jobs)
      && after.jobs[claim.id] ==
           db.jobs[claim.id].(status := JobStatus.Failed, lastError := Some(FailureText(db, claim, env)),
                              updatedAt := moment)
      && claim.lead in db.leads && claim.lead in after.leads
      && FailedFor(db.leads[claim.lead], after.leads[claim.lead], SendFailed, moment)
  {
  }

  /** A suppressed recipient: the job is cancelled and the lead fails. */
  lemma {:induction false} SuppressedEffects(db: Db, claim: ClaimedSendJob, moment: Time, env: SendEnv)
    requires claim.id in db.jobs && ProcessClaimed(db, claim, moment, env).Processed?
    requires ProcessClaimed(db, claim, moment, env).outcome.Suppressed?
    ensures var after := ProcessClaimed(db, claim, moment, env).db;
      && claim.id in after.jobs && after == db.(leads := after.leads, jobs := after.jobs)
      && CancelledAt(db.jobs[claim.id], after.jobs[claim.id], moment)
      && claim.lead in db.leads && claim.lead in after.leads
      && FailedFor(db.leads[claim.lead], after.leads[claim.lead], StopReason.Suppressed, moment)
  {
  }

  /** A step nobody waits for: the job is cancelled, and nothing else is written. */
  lemma {:induction false} CancelledEffects(db: Db, claim: ClaimedSendJob, moment: Time, env: SendEnv)
    requires claim.id in db.jobs && ProcessClaimed(db, claim, moment, env).Processed?
    requires ProcessClaimed(db, claim, moment, env).outcome.Cancelled?
    ensures var after := ProcessClaimed(db, claim, moment, env).db;
      && claim.id in after.jobs && after == db.(jobs := after.jobs)
      && CancelledAt(db.jobs[claim.id], after.jobs[claim.id], moment)
  {
  }

  /** A send: the message, the link, the step, and the follow-up or the end. */
  ghost predicate SentLeaves(s: Sys, claim: ClaimedSendJob, moment: Time, env: SendEnv, after: Db) {
    && claim.lead in s.db.leads && claim.lead in after.leads && claim.payload.campaign in s.db.campaigns
    && claim.id in s.db.jobs && claim.id in after.jobs && Configured(s.db, claim) && env.provider.Success?
    && var (n, mailbox, position) := (s.db.nextId, s.db.mailboxes[claim.workspace].id, claim.payload.stepPosition);
      && SentRows(s, claim, moment, env, after)
      && after.outbounds == s.db.outbounds[n := MessageFor(n, mailbox, claim, env)]
      && after == s.db.(leads := after.leads, jobs := after.jobs, outbounds := after.outbounds,
                        nextId := n + if position < |s.db.campaigns[claim.payload.campaign].steps| then 2 else 1)
  }

  /** The rows of the campaign context that a send leaves. */
  ghost predicate SentRows(s: Sys, claim: ClaimedSendJob, moment: Time, env: SendEnv, after: Db)
    requires claim.lead in s.db.leads && claim.lead in after.leads && claim.payload.campaign in s.db.campaigns
    requires claim.id in s.db.jobs && claim.id in after.jobs
  {
    var (n, campaign, before, position) :=
      (s.db.nextId, s.db.campaigns[claim.payload.campaign], s.db.leads[claim.lead], claim.payload.stepPosition);
    && claim.payload.toEmail == before.email && before.stepsSent + 1 == position && position <= |campaign.steps|
    && after.leads[claim.lead] ==
         before.(state := if position == |campaign.steps| then LeadState.Done else LeadState.Sent,
                 stepsSent := position, updatedAt := env.stampedAt)
    && after.jobs[claim.id] ==
         s.db.jobs[claim.id].(status := JobStatus.Done, outbound := Some(n), lastError := None, updatedAt := moment)
    && (if position == |campaign.steps| then n + 1 !in after.jobs
        else n + 1 in after.jobs && after.jobs[n + 1] == FollowUp(n + 1, campaign, before, position, env.stampedAt))
  }

  lemma {:induction false} DispatchedContent(db: Db, claim: ClaimedSendJob, env: SendEnv)
    requires Dispatch(db, claim.workspace, claim.payload.toEmail, claim.payload.subject, claim.payload.body, env)
      .1.DispatchSent?
    ensures var after :=
        Dispatch(db, claim.workspace, claim.payload.toEmail, claim.payload.subject, claim.payload.body, env).0;
      && Configured(db, claim) && env.provider.Success? && db.nextId in after.outbounds
      && after.outbounds[db.nextId] == MessageFor(db.nextId, db.mailboxes[claim.workspace].id, claim, env)
  {
  }

  lemma {:induction false} SentContents(
    s: Sys, index: nat, claim: ClaimedSendJob, moment: Time, env: SendEnv, message: Outbound, advanced: Lead,
    next: Option<SendJob>)
    requires Sends(s, index, claim, message, advanced, next) && s.clock == env.stampedAt
    requires Configured(s.db, claim) && env.provider.Success?
    requires message == MessageFor(s.db.nextId, s.db.mailboxes[claim.workspace].id, claim, env)
    ensures SentLeaves(s, claim, moment, env, WithSend(s, index, claim, message, advanced, next, moment).db)
  {
    SendContext(s, index, claim, message, advanced, next);
    SentRowsAre(s, index, claim, moment, env, message, advanced, next);
  }

  /** A job's payload goes to its lead. */
  lemma {:induction false} PayloadsAddress(s: Sys, j: Id)
    requires CampaignInv(s) && j in s.db.jobs
    ensures s.db.jobs[j].lead in s.db.leads && s.db.jobs[j].payload.toEmail == s.db.leads[s.db.jobs[j].lead].email
  {
    assert JobRowOk(s, j);
  }

  lemma {:induction false} SentRowsAre(
    s: Sys, index: nat, claim: ClaimedSendJob, moment: Time, env: SendEnv, message: Outbound, advanced: Lead,
    next: Option<SendJob>)
    requires Sends(s, index, claim, message, advanced, next) && s.clock == env.stampedAt
    ensures var after := WithSend(s, index, claim, message, advanced, next, moment).db;
      && claim.lead in s.db.leads && claim.lead in after.leads && claim.payload.campaign in s.db.campaigns
      && claim.id in s.db.jobs && claim.id in after.jobs && SentRows(s, claim, moment, env, after)
  {
    SendContext(s, index, claim, message, advanced, next);
    SentLookups(s, index, claim, message, advanced, next, moment);
    AdvancedLead(s, claim, advanced, next);
    PayloadsAddress(s, claim.id);
  }

  lemma {:induction false} AdvancedLead(s: Sys, claim: ClaimedSendJob, advanced: Lead, next: Option<SendJob>)
    requires claim.payload.campaign in s.db.campaigns && claim.lead in s.db.leads
    requires s.db.campaigns[claim.payload.campaign]
      .RecordSent(s.db.leads[claim.lead], claim.payload.stepPosition, s.clock, s.db.nextId + 1) ==
        Success((advanced, next))
    ensures var (campaign, before, position) :=
        (s.db.campaigns[claim.payload.campaign], s.db.leads[claim.lead], claim.payload.stepPosition);
      advanced == before.(state := if position == |campaign.steps| then LeadState.Done else LeadState.Sent,
                          stepsSent := position, updatedAt := s.clock)
  {
  }

  lemma {:induction false} SentEffects(s: Sys, j: Id, index: nat, claim: ClaimedSendJob, moment: Time, env: SendEnv)
    requires GoesOut(s, j, index, claim, env)
    ensures ProcessClaimed(s.db, claim, moment, env).Processed?
    ensures SentLeaves(s, claim, moment, env, ProcessClaimed(s.db, claim, moment, env).db)
  {
    AcceptedIsRecorded(s, claim, env);
    RecordedJobId(s, claim, env);
    DispatchedMessage(s.db, claim, env);
    DispatchedContent(s.db, claim, env);
    var message := MessageOf(s, claim, env);
    var (advanced, next) := Recorded(s, claim, env).value;
    SentBranch(s, index, claim, moment, env, message, advanced, next);
    assert Sends(s, index, claim, message, advanced, next);
    SentContents(s, index, claim, moment, env, message, advanced, next);
  }

  // ---------- One call, whole ----------

  /** What a settled claim leaves in its job and its lead, by outcome. */
  ghost predicate Leaves(s: Sys, claim: ClaimedSendJob, moment: Time, env: SendEnv, outcome: Outcome, after: Db) {
    && claim.id in s.db.jobs && claim.id in after.jobs
    && var (before, job) := (s.db.jobs[claim.id], after.jobs[claim.id]);
      match outcome
      case Sent => SentLeaves(s, claim, moment, env, after)
      case Deferred =>
        && after == s.db.(jobs := after.jobs)
        && PutBack(before, job, DeferredUntil(env).0, before.attempts - 1, DeferredUntil(env).1, moment)
      case Retrying =>
        && after == s.db.(jobs := after.jobs)
        && PutBack(before, job, moment + 60 * SECOND * claim.attempts, before.attempts,
                   FailureText(s.db, claim, env), moment)
      case Suppressed =>
        && after == s.db.(leads := after.leads, jobs := after.jobs) && CancelledAt(before, job, moment)
        && claim.lead in s.db.leads && claim.lead in after.leads
        && FailedFor(s.db.leads[claim.lead], after.leads[claim.lead], StopReason.Suppressed, moment)
      case Failed =>
        && after == s.db.(leads := after.leads, jobs := after.jobs)
        && job == before.(status := JobStatus.Failed, lastError := Some(FailureText(s.db, claim, env)),
                          updatedAt := moment)
        && claim.lead in s.db.leads && claim.lead in after.leads
        && FailedFor(s.db.leads[claim.lead], after.leads[claim.lead], SendFailed, moment)
      case Cancelled => after == s.db.(jobs := after.jobs) && CancelledAt(before, job, moment)
  }

  /** No old row but the claim's job and its lead is written, and only a send stores a message. */
  ghost predicate Spared(s: Sys, claim: ClaimedSendJob, outcome: Outcome, after: Db) {
    && (forall k :: k in s.db.jobs && k != claim.id ==> k in after.jobs && after.jobs[k] == s.db.jobs[k])
    && (forall l :: l in s.db.leads && l != claim.lead ==> l in after.leads && after.leads[l] == s.db.leads[l])
    && (!outcome.Sent? ==> after.outbounds == s.db.outbounds && after.jobs.Keys == s.db.jobs.Keys)
  }

  lemma {:induction false} OtherRowsSpared(s: Sys, claim: ClaimedSendJob, moment: Time, env: SendEnv)
    requires CampaignInv(s) && claim.id in s.db.jobs && ProcessClaimed(s.db, claim, moment, env).Processed?
    ensures var r := ProcessClaimed(s.db, claim, moment, env); Spared(s, claim, r.outcome, r.db)
  {
    var after := ProcessClaimed(s.db, claim, moment, env).db;
    forall k | k in s.db.jobs && k != claim.id ensures k in after.jobs && after.jobs[k] == s.db.jobs[k] {
      assert JobRowOk(s, k);
      ProcessedJobs(s.db, claim, moment, env, k);
    }
    forall l | l in s.db.leads && l != claim.lead ensures l in after.leads && after.leads[l] == s.db.leads[l] {
      ProcessedLeads(s.db, claim, moment, env, l);
    }
    if !ProcessClaimed(s.db, claim, moment, env).outcome.Sent? { NothingSent(s.db, claim, moment, env); }
  }

  lemma {:induction false} UnsentLeavesDb(db: Db, claim: ClaimedSendJob, env: SendEnv)
    ensures var (sent, result) :=
        Dispatch(db, claim.workspace, claim.payload.toEmail, claim.payload.subject, claim.payload.body, env);
      !result.DispatchSent? ==> sent == db
  {
  }

  lemma {:induction false} UnsentSettles(db: Db, claim: ClaimedSendJob, moment: Time, result: DispatchResult)
    requires Accepts(db, claim) && !result.DispatchSent?
    ensures var r := Sending.Settle(db, claim, moment, result);
      r.Processed? && r.db.outbounds == db.outbounds && r.db.jobs.Keys == db.jobs.Keys
  {
  }

  lemma {:induction false} NothingSent(db: Db, claim: ClaimedSendJob, moment: Time, env: SendEnv)
    requires ProcessClaimed(db, claim, moment, env).Processed? && !ProcessClaimed(db, claim, moment, env).outcome.Sent?
    ensures var after := ProcessClaimed(db, claim, moment, env).db;
      after.outbounds == db.outbounds && after.jobs.Keys == db.jobs.Keys
  {
    if Accepts(db, claim) {
      var (sent, result) :=
        Dispatch(db, claim.workspace, claim.payload.toEmail, claim.payload.subject, claim.payload.body, env);
      SettleIsDecided(sent, claim, moment, result);
      UnsentLeavesDb(db, claim, env);
      UnsentSettles(db, claim, moment, result);
    }
  }

  lemma {:induction false} ClockDoesNotMatter(s: Sys, claim: ClaimedSendJob, moment: Time, env: SendEnv, after: Db)
    ensures SentLeaves(s.(clock := env.stampedAt), claim, moment, env, after) <==>
      SentLeaves(s, claim, moment, env, after)
  {
  }

  lemma {:induction false} SentCallLeaves(s: Sys, j: Id, index: nat, claim: ClaimedSendJob, moment: Time, env: SendEnv)
    requires CampaignInv(s) && InOrder(s.clock, moment, env) && Settling(s, j, index, claim) && claim.id == j
    requires ProcessClaimed(s.db, claim, moment, env).Processed?
    requires ProcessClaimed(s.db, claim, moment, env).outcome.Sent?
    ensures SentLeaves(s, claim, moment, env, ProcessClaimed(s.db, claim, moment, env).db)
  {
    LaterClock(s, env.stampedAt);
    SentMeansDispatched(s.db, claim, moment, env);
    SentEffects(s.(clock := env.stampedAt), j, index, claim, moment, env);
    ClockDoesNotMatter(s, claim, moment, env, ProcessClaimed(s.db, claim, moment, env).db);
  }

  lemma {:induction false} SettledClaimLeaves(
    s: Sys, j: Id, index: nat, claim: ClaimedSendJob, moment: Time, env: SendEnv)
    requires CampaignInv(s) && InOrder(s.clock, moment, env) && Settling(s, j, index, claim) && claim.id == j
    requires ProcessClaimed(s.db, claim, moment, env).Processed?
    ensures var (after, outcome) :=
        (ProcessClaimed(s.db, claim, moment, env).db, ProcessClaimed(s.db, claim, moment, env).outcome);
      Leaves(s, claim, moment, env, outcome, after)
  {
    match ProcessClaimed(s.db, claim, moment, env).outcome
    case Sent => SentCallLeaves(s, j, index, claim, moment, env);
    case Deferred => DeferredEffects(s.db, claim, moment, env);
    case Retrying => RetryingEffects(s.db, claim, moment, env);
    case Suppressed => SuppressedEffects(s.db, claim, moment, env);
    case Failed => FailedEffects(s.db, claim, moment, env);
    case Cancelled => CancelledEffects(s.db, claim, moment, env);
  }

  lemma {:induction false} SentMeansDispatched(db: Db, claim: ClaimedSendJob, moment: Time, env: SendEnv)
    requires ProcessClaimed(db, claim, moment, env).Processed? && ProcessClaimed(db, claim, moment, env).outcome.Sent?
    ensures Accepts(db, claim)
    ensures Dispatch(db, claim.workspace, claim.payload.toEmail, claim.payload.subject, claim.payload.body, env)
      .1.DispatchSent?
  {
    var (after, result) :=
      Dispatch(db, claim.workspace, claim.payload.toEmail, claim.payload.subject, claim.payload.body, env);
    if Accepts(db, claim) { SettleIsDecided(after, claim, moment, result); }
  }

  /**
   After any run, a processing call either finds its job no longer running and writes nothing, or settles its claim with
   an outcome that leaves exactly what that outcome stands for in the job and its lead, and spares every other row.
   */
  lemma {:induction false} EveryCallLeavesItsOutcome(
    start: Sys, ops: seq<Op>, j: Id, index: nat, byId: bool, moment: Time, env: SendEnv)
    requires Init(start) && IsRun(start, ops)
    requires Enabled(Exec(start, ops), ProcessToken(j, index, byId, moment, env))
    ensures var s := Exec(start, ops);
      var t := Process(s, j, index, byId, moment, env);
      match ClaimInHand(s, j, index, byId)
      case None => t.db == s.db && HasFate(t, j, index, Refused)
      case Some(claim) => exists outcome ::
        && HasFate(t, j, index, Settled(outcome))
        && Leaves(s, claim, moment, env, outcome, t.db) && Spared(s, claim, outcome, t.db)
  {
    var s := Exec(start, ops);
    ReachableStatesAreSound(start, ops);
    TokenEnds(s, j, index, byId, moment, env);
    ClaimIsSettling(s, j, index, byId);
    var claim := ClaimInHand(s, j, index, byId);
    if claim.Some? {
      assert claim.value.id == j by { assert JobRowOk(s, j); }
      SettledClaimLeaves(s, j, index, claim.value, moment, env);
      OtherRowsSpared(s, claim.value, moment, env);
      var outcome := ProcessClaimed(s.db, claim.value, moment, env).outcome;
      assert HasFate(Process(s, j, index, byId, moment, env), j, index, Settled(outcome));
    }
  }
}
