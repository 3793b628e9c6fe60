/** Processing a claim, in any of its outcomes, keeps the invariant of the campaign tables. */
module ProcessingKeeps {
  import opened Base
  import opened CampaignDomain
  import opened Invariant
  import opened Machine
  import opened SendQueue
  import opened Sending
  import opened Tokens

  // ---------- Local changes ----------

  lemma {:induction false} LeadLater(s: Sys, clock: Time, l: Id)
    requires LeadRowOk(s, l) && s.clock <= clock
    ensures LeadRowOk(s.(clock := clock), l)
  {
    var t := s.(clock := clock);
    var campaign, log := s.db.campaigns[s.db.leads[l].campaign], s.leadLogs[l];
    forall k | 0 <= k < |log.sends| ensures SendOk(campaign, log, clock, k) {
      assert SendOk(campaign, log, s.clock, k);
    }
    forall k | 0 <= k < |log.jobs| ensures SlotOk(t, l, k) {
      assert SlotOk(s, l, k);
    }
  }

  lemma {:induction false} LaterClock(s: Sys, clock: Time)
    requires CampaignInv(s) && s.clock <= clock
    ensures CampaignInv(s.(clock := clock))
  {
    var t := s.(clock := clock);
    forall l | l in t.db.leads ensures LeadRowOk(t, l) {
      LeadLater(s, clock, l);
    }
    forall j | j in t.db.jobs ensures JobRowOk(t, j) {
      assert JobRowOk(s, j);
    }
  }

  function WithJob(s: Sys, job: SendJob, log: JobLog): Sys {
    s.(db := s.db.(jobs := s.db.jobs[job.id := job]), jobLogs := s.jobLogs[job.id := log])
  }

  /** A job whose fixed columns and link are as before. */
  predicate SameIdentity(before: SendJob, after: SendJob) {
    && after.id == before.id && after.workspace == before.workspace && after.mailbox == before.mailbox
    && after.lead == before.lead && after.payload == before.payload && after.outbound == before.outbound
  }

  ghost predicate OneJob(s: Sys, job: SendJob, log: JobLog) {
    && CampaignInv(s)
    && job.id in s.db.jobs && SameIdentity(s.db.jobs[job.id], job)
    && JobRowOk(WithJob(s, job, log), job.id)
  }

  lemma {:induction false} OneJobKeepsLead(s: Sys, job: SendJob, log: JobLog, l: Id)
    requires OneJob(s, job, log) && l in s.db.leads
    ensures LeadRowOk(WithJob(s, job, log), l)
  {
    var t := WithJob(s, job, log);
    assert LeadRowOk(s, l);
    forall k | 0 <= k < |t.leadLogs[l].jobs| ensures SlotOk(t, l, k) {
      assert SlotOk(s, l, k);
    }
  }

  lemma {:induction false} OneJobKeepsJob(s: Sys, job: SendJob, log: JobLog, j: Id)
    requires OneJob(s, job, log) && j in s.db.jobs
    ensures JobRowOk(WithJob(s, job, log), j)
  {
    assert JobRowOk(s, j);
  }

  lemma {:induction false} OneJobKeepsLinks(s: Sys, job: SendJob, log: JobLog)
    requires OneJob(s, job, log)
    ensures TablesOk(WithJob(s, job, log))
  {
    var t := WithJob(s, job, log);
    forall j | j in t.db.jobs ensures LinkOk(t.db.jobs, t.db.outbounds, j) {
      assert LinkOk(s.db.jobs, s.db.outbounds, j);
    }
  }

  /** Changing one job and its log is sound as soon as that job is. */
  lemma {:induction false} OneJobChanges(s: Sys, job: SendJob, log: JobLog)
    requires OneJob(s, job, log)
    ensures CampaignInv(WithJob(s, job, log))
  {
    var t := WithJob(s, job, log);
    forall l | l in t.db.leads ensures LeadRowOk(t, l) {
      OneJobKeepsLead(s, job, log, l);
    }
    forall j | j in t.db.jobs ensures JobRowOk(t, j) {
      OneJobKeepsJob(s, job, log, j);
    }
    OneJobKeepsLinks(s, job, log);
  }

  // ---------- The claim being settled ----------

  /** The log of a job after one of its claims is settled. */
  function SettleToken(log: JobLog, index: nat, fate: Fate): JobLog
    requires index < |log.tokens|
  {
    log.(tokens := log.tokens[index := log.tokens[index].(fate := fate)])
  }

  /** A claim in hand never understates its rank, whether it is a snapshot or a fresh read. */
  lemma {:induction false} ClaimInHandRanks(s: Sys, j: Id, index: nat, byId: bool)
    requires JobRowOk(s, j) && index < |s.jobLogs[j].tokens| && s.jobLogs[j].tokens[index].fate.Outstanding?
    ensures var claim := ClaimInHand(s, j, index, byId);
      claim.Some? ==>
        && ClaimOf(s.db.jobs[j], claim.value)
        && Rank(s.jobLogs[j].tokens, index) <= claim.value.attempts
  {
    var tokens := s.jobLogs[j].tokens;
    assert RankedAt(tokens, index);
    assert ClaimOf(s.db.jobs[j], tokens[index].claim);
    CountedOfPrefix(tokens, index + 1);
  }

  /** How the counts of a job move when one of its claims is settled. */
  lemma {:induction false} SettleCounts(log: JobLog, index: nat, fate: Fate)
    requires Ranked(log.tokens) && index < |log.tokens| && log.tokens[index].fate.Outstanding? && !fate.Outstanding?
    requires fate == Settled(Retrying) ==> Rank(log.tokens, index) < MAX_SEND_ATTEMPTS
    ensures var after := SettleToken(log, index, fate).tokens;
      && Ranked(after)
      && Counted(after) == Counted(log.tokens) - (if fate == Settled(Outcome.Deferred) then 1 else 0)
      && Finals(after) == Finals(log.tokens) + (if IsFinal(after[index]) then 1 else 0)
      && forall i :: 0 <= i < |after| ==> after[i].claim == log.tokens[i].claim
  {
    var token := log.tokens[index].(fate := fate);
    RankedAfterFate(log.tokens, index, fate);
    CountedOfUpdate(log.tokens, index, token);
    FinalsOfUpdate(log.tokens, index, token);
  }

  /** `job` is the row of `j` after one of its claims came to a fate that does not end it. */
  ghost predicate Resettles(s: Sys, j: Id, job: SendJob, index: nat, fate: Fate) {
    && CampaignInv(s) && JobRowOk(s, j) && SameIdentity(s.db.jobs[j], job)
    && index < |s.jobLogs[j].tokens| && s.jobLogs[j].tokens[index].fate.Outstanding? && !fate.Outstanding?
    && (fate == Settled(Retrying) ==> Rank(s.jobLogs[j].tokens, index) < MAX_SEND_ATTEMPTS)
    && fate !in {Settled(Outcome.Sent), Settled(Outcome.Suppressed), Settled(Outcome.Failed)}
    && job.attempts == s.db.jobs[j].attempts - (if fate == Settled(Outcome.Deferred) then 1 else 0)
    && (job.status.Running? ==> job.lockedAt.Some?)
    && StatusOk(job, s.db.leads[job.lead], s.leadLogs[job.lead])
    && (job.IsLive() ==> s.jobLogs[j].firstDue <= job.scheduledAt)
  }

  /** The settled job is sound again when its status fits and its attempts moved with the count. */
  lemma {:induction false} JobSettled(s: Sys, j: Id, job: SendJob, index: nat, fate: Fate)
    requires Resettles(s, j, job, index, fate)
    ensures CampaignInv(WithJob(s, job, SettleToken(s.jobLogs[j], index, fate)))
  {
    SettledJobOk(s, j, job, index, fate);
    OneJobChanges(s, job, SettleToken(s.jobLogs[j], index, fate));
  }

  lemma {:induction false} SettledJobOk(s: Sys, j: Id, job: SendJob, index: nat, fate: Fate)
    requires Resettles(s, j, job, index, fate)
    ensures JobRowOk(WithJob(s, job, SettleToken(s.jobLogs[j], index, fate)), j)
  {
    assert JobRowOk(s, j);
    var log := s.jobLogs[j];
    var after := SettleToken(log, index, fate);
    SettleCounts(log, index, fate);
    forall i | 0 <= i < |after.tokens| ensures ClaimOf(job, after.tokens[i].claim) {
      assert ClaimOf(s.db.jobs[j], log.tokens[i].claim);
    }
  }

  // ---------- Outcomes that leave the lead alone ----------

  /** Where a lead still accepts the step of a claim, the job of that claim is the lead's live job. */
  lemma {:induction false} AcceptedJobIsLive(s: Sys, j: Id, claim: ClaimedSendJob)
    requires CampaignInv(s) && JobRowOk(s, j) && ClaimOf(s.db.jobs[j], claim)
    ensures Accepts(s.db, claim) <==>
      var lead := s.db.leads[s.db.jobs[j].lead];
      lead.IsSendable() && s.db.jobs[j].payload.stepPosition == lead.stepsSent + 1
    ensures Accepts(s.db, claim) ==> s.db.jobs[j].IsLive()
  {
    assert JobRowOk(s, j);
    assert LeadRowOk(s, s.db.jobs[j].lead);
  }

  predicate Settling(s: Sys, j: Id, index: nat, claim: ClaimedSendJob) {
    && j in s.db.jobs && j in s.jobLogs && index < |s.jobLogs[j].tokens|
    && s.jobLogs[j].tokens[index].fate.Outstanding?
    && ClaimOf(s.db.jobs[j], claim)
    && Rank(s.jobLogs[j].tokens, index) <= claim.attempts
  }

  lemma {:induction false} RefusedKeeps(s: Sys, j: Id, index: nat, claim: ClaimedSendJob)
    requires CampaignInv(s) && Settling(s, j, index, claim)
    ensures CampaignInv(s.(jobLogs := LogFate(s.jobLogs, j, index, Refused)))
  {
    assert JobRowOk(s, j);
    JobSettled(s, j, s.db.jobs[j], index, Refused);
    assert s.db.jobs[j := s.db.jobs[j]] == s.db.jobs;
  }

  lemma {:induction false} CancelledKeeps(s: Sys, j: Id, index: nat, claim: ClaimedSendJob, moment: Time)
    requires CampaignInv(s) && Settling(s, j, index, claim) && !Accepts(s.db, claim)
    ensures CampaignInv(s.(db := s.db.(jobs := Cancel(s.db.jobs, j, moment)),
                           jobLogs := LogFate(s.jobLogs, j, index, Settled(Outcome.Cancelled))))
  {
    assert JobRowOk(s, j);
    AcceptedJobIsLive(s, j, claim);
    assert LeadRowOk(s, s.db.jobs[j].lead);
    JobSettled(s, j, CancelRow(s.db.jobs[j], moment), index, Settled(Outcome.Cancelled));
  }

  lemma {:induction false} DeferredKeeps(
    s: Sys, j: Id, index: nat, claim: ClaimedSendJob, retryAt: Time, reason: string, moment: Time)
    requires CampaignInv(s) && Settling(s, j, index, claim) && Accepts(s.db, claim)
    requires s.clock <= retryAt
    ensures CampaignInv(s.(db := s.db.(jobs := Release(s.db.jobs, j, retryAt, reason, moment)),
                           jobLogs := LogFate(s.jobLogs, j, index, Settled(Outcome.Deferred))))
  {
    assert JobRowOk(s, j);
    AcceptedJobIsLive(s, j, claim);
    JobSettled(s, j, ReleaseRow(s.db.jobs[j], retryAt, reason, moment), index, Settled(Outcome.Deferred));
  }

  lemma {:induction false} RetryingKeeps(
    s: Sys, j: Id, index: nat, claim: ClaimedSendJob, retryAt: Time, error: string, moment: Time)
    requires CampaignInv(s) && Settling(s, j, index, claim) && Accepts(s.db, claim)
    requires s.clock <= retryAt && claim.attempts < MAX_SEND_ATTEMPTS
    ensures CampaignInv(s.(db := s.db.(jobs := RetryLater(s.db.jobs, j, retryAt, error, moment)),
                           jobLogs := LogFate(s.jobLogs, j, index, Settled(Retrying))))
  {
    assert JobRowOk(s, j);
    AcceptedJobIsLive(s, j, claim);
    JobSettled(s, j, RescheduleRow(s.db.jobs[j], retryAt, error, moment), index, Settled(Retrying));
  }

  // ---------- Outcomes that move the lead ----------

  /** `t` differs from `s` in lead `l`, in its live-step job `j`, and in jobs `s` does not have. */
  ghost predicate Advances(s: Sys, t: Sys, l: Id, j: Id) {
    && CampaignInv(s) && LeadRowOk(s, l) && JobRowOk(s, j)
    && s.db.jobs[j].lead == l && s.db.jobs[j].payload.stepPosition == s.db.leads[l].stepsSent + 1
    && t.clock == s.clock && s.db.nextId <= t.db.nextId && t.db.campaigns == s.db.campaigns
    && t.db.leads.Keys == s.db.leads.Keys && t.leadLogs.Keys == s.leadLogs.Keys
    && SameLead(s.db.leads[l], t.db.leads[l])
    && s.leadLogs[l].jobs <= t.leadLogs[l].jobs && s.leadLogs[l].sends <= t.leadLogs[l].sends
    && (forall m :: m in s.db.leads && m != l ==> t.db.leads[m] == s.db.leads[m] && t.leadLogs[m] == s.leadLogs[m])
    && j in t.db.jobs && t.db.jobs[j].lead == l && t.db.jobs[j].payload == s.db.jobs[j].payload
    && (forall k :: k in s.db.jobs && k != j ==>
          k in t.db.jobs && k in t.jobLogs && t.db.jobs[k] == s.db.jobs[k] && t.jobLogs[k] == s.jobLogs[k])
  }

  predicate SameLead(before: Lead, after: Lead) {
    && after.id == before.id && after.workspace == before.workspace && after.campaign == before.campaign
    && after.email == before.email && before.stepsSent <= after.stepsSent
  }

  lemma {:induction false} OtherLeadKept(s: Sys, t: Sys, l: Id, j: Id, m: Id)
    requires Advances(s, t, l, j) && m in s.db.leads && m != l
    ensures LeadRowOk(t, m)
  {
    assert LeadRowOk(s, m);
    forall k | 0 <= k < |t.leadLogs[m].jobs| ensures SlotOk(t, m, k) {
      assert SlotOk(s, m, k);
    }
  }

  /** A job of the same lead is for a step already sent, so nothing about it moves. */
  lemma {:induction false} OtherJobKept(s: Sys, t: Sys, l: Id, j: Id, k: Id)
    requires Advances(s, t, l, j) && k in s.db.jobs && k != j
    requires |t.leadLogs[l].jobs| <= |s.db.campaigns[s.db.leads[l].campaign].steps|
    ensures JobRowOk(t, k)
  {
    assert JobRowOk(s, k);
    if s.db.jobs[k].lead == l {
      assert s.db.jobs[k].payload.stepPosition <= s.db.leads[l].stepsSent;
    }
  }

  lemma {:induction false} EmailsKept(s: Sys, t: Sys, l: Id, j: Id)
    requires Advances(s, t, l, j)
    ensures EmailsDistinct(t.db.leads)
  {
    forall a, b | a in t.db.leads && b in t.db.leads ensures EmailPairOk(t.db.leads, a, b) {
      assert EmailPairOk(s.db.leads, a, b);
    }
  }

  lemma {:induction false} AllRowsKept(s: Sys, t: Sys, l: Id, j: Id)
    requires Advances(s, t, l, j) && LeadRowOk(t, l) && JobRowOk(t, j)
    requires t.jobLogs.Keys == t.db.jobs.Keys
    requires forall k :: k in t.db.jobs && k !in s.db.jobs ==> JobRowOk(t, k)
    ensures LeadRowsOk(t) && JobRowsOk(t)
  {
    forall m | m in t.db.leads ensures LeadRowOk(t, m) {
      if m != l { OtherLeadKept(s, t, l, j, m); }
    }
    forall k | k in t.db.jobs ensures JobRowOk(t, k) {
      if k in s.db.jobs && k != j { OtherJobKept(s, t, l, j, k); }
    }
  }

  function WithLeadAndJob(s: Sys, lead: Lead, job: SendJob, log: JobLog): Sys {
    s.(db := s.db.(leads := s.db.leads[lead.id := lead], jobs := s.db.jobs[job.id := job]),
       jobLogs := s.jobLogs[job.id := log])
  }

  /** A send that ends in the lead's failure: `after` is the settled row, `stopped` the failed lead. */
  ghost predicate Fails(s: Sys, j: Id, index: nat, claim: ClaimedSendJob, stopped: Lead, after: SendJob, fate: Fate) {
    && CampaignInv(s) && Settling(s, j, index, claim) && Accepts(s.db, claim)
    && stopped.state.Failed? && SameLead(s.db.leads[claim.lead], stopped)
    && stopped.stepsSent == s.db.leads[claim.lead].stepsSent
    && stopped.stopReason in {Some(StopReason.Suppressed), Some(SendFailed)} && stopped.replyIntent.None?
    && SameIdentity(s.db.jobs[j], after) && after.attempts == s.db.jobs[j].attempts
    && after.IsTerminal() && !after.status.Done?
    && fate in {Settled(Outcome.Suppressed), Settled(Outcome.Failed)}
  }

  lemma {:induction false} FailedJobOk(
    s: Sys, j: Id, index: nat, claim: ClaimedSendJob, stopped: Lead, after: SendJob, fate: Fate)
    requires Fails(s, j, index, claim, stopped, after, fate)
    ensures JobRowOk(WithLeadAndJob(s, stopped, after, SettleToken(s.jobLogs[j], index, fate)), j)
  {
    assert JobRowOk(s, j);
    AcceptedJobIsLive(s, j, claim);
    var log := s.jobLogs[j];
    SettleCounts(log, index, fate);
    var settled := SettleToken(log, index, fate);
    forall i | 0 <= i < |settled.tokens| ensures ClaimOf(after, settled.tokens[i].claim) {
      assert ClaimOf(s.db.jobs[j], log.tokens[i].claim);
    }
  }

  lemma {:induction false} FailedLeadOk(
    s: Sys, j: Id, index: nat, claim: ClaimedSendJob, stopped: Lead, after: SendJob, fate: Fate)
    requires Fails(s, j, index, claim, stopped, after, fate)
    ensures LeadRowOk(WithLeadAndJob(s, stopped, after, SettleToken(s.jobLogs[j], index, fate)), claim.lead)
  {
    var t := WithLeadAndJob(s, stopped, after, SettleToken(s.jobLogs[j], index, fate));
    var l := claim.lead;
    assert JobRowOk(s, j);
    assert LeadRowOk(s, l);
    AcceptedJobIsLive(s, j, claim);
    forall k | 0 <= k < |t.leadLogs[l].jobs| ensures SlotOk(t, l, k) {
      assert SlotOk(s, l, k);
    }
  }

  lemma {:induction false} FailureKeeps(
    s: Sys, j: Id, index: nat, claim: ClaimedSendJob, stopped: Lead, after: SendJob, fate: Fate)
    requires Fails(s, j, index, claim, stopped, after, fate)
    ensures CampaignInv(WithLeadAndJob(s, stopped, after, SettleToken(s.jobLogs[j], index, fate)))
  {
    var t := WithLeadAndJob(s, stopped, after, SettleToken(s.jobLogs[j], index, fate));
    var l := claim.lead;
    assert JobRowOk(s, j);
    assert LeadRowOk(s, l);
    AcceptedJobIsLive(s, j, claim);
    FailedJobOk(s, j, index, claim, stopped, after, fate);
    FailedLeadOk(s, j, index, claim, stopped, after, fate);
    AllRowsKept(s, t, l, j);
    EmailsKept(s, t, l, j);
    forall k | k in t.db.jobs ensures LinkOk(t.db.jobs, t.db.outbounds, k) {
      assert LinkOk(s.db.jobs, s.db.outbounds, k);
    }
  }

  lemma {:induction false} SuppressedKeeps(s: Sys, j: Id, index: nat, claim: ClaimedSendJob, moment: Time)
    requires CampaignInv(s) && Settling(s, j, index, claim) && Accepts(s.db, claim)
    ensures
      var campaign, lead := s.db.campaigns[claim.payload.campaign], s.db.leads[claim.lead];
      var stopped := campaign.FailLead(lead, StopReason.Suppressed, moment).value;
      CampaignInv(s.(db := s.db.(leads := s.db.leads[claim.lead := stopped],
                                 jobs := Cancel(s.db.jobs, claim.id, moment)),
                     jobLogs := LogFate(s.jobLogs, j, index, Settled(Outcome.Suppressed))))
  {
    var campaign, lead := s.db.campaigns[claim.payload.campaign], s.db.leads[claim.lead];
    assert JobRowOk(s, j);
    assert LeadRowOk(s, claim.lead);
    FailureKeeps(s, j, index, claim, campaign.FailLead(lead, StopReason.Suppressed, moment).value,
                 CancelRow(s.db.jobs[j], moment), Settled(Outcome.Suppressed));
  }

  lemma {:induction false} FailedKeeps(s: Sys, j: Id, index: nat, claim: ClaimedSendJob, error: string, moment: Time)
    requires CampaignInv(s) && Settling(s, j, index, claim) && Accepts(s.db, claim)
    ensures
      var campaign, lead := s.db.campaigns[claim.payload.campaign], s.db.leads[claim.lead];
      CampaignInv(s.(db := s.db.(leads := s.db.leads[claim.lead := campaign.FailLead(lead, SendFailed, moment).value],
                                 jobs := Fail(s.db.jobs, claim.id, error, moment)),
                     jobLogs := LogFate(s.jobLogs, j, index, Settled(Outcome.Failed))))
  {
    var campaign, lead := s.db.campaigns[claim.payload.campaign], s.db.leads[claim.lead];
    assert JobRowOk(s, j);
    assert LeadRowOk(s, claim.lead);
    FailureKeeps(s, j, index, claim, campaign.FailLead(lead, SendFailed, moment).value,
                 FailRow(s.db.jobs[j], error, moment), Settled(Outcome.Failed));
  }
}
