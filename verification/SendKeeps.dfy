/** A committed campaign send keeps the invariant: the lead advances, its job is linked, the next one is due. */
module SendKeeps {
  import opened Base
  import opened CampaignDomain
  import opened Invariant
  import opened Machine
  import opened ProcessingKeeps
  import opened SendQueue
  import opened Sending
  import opened Tables

  function JobsAfterSend(s: Sys, claim: ClaimedSendJob, next: Option<SendJob>, moment: Time): JobTable {
    var completed := Complete(s.db.jobs, claim.id, s.db.nextId, moment);
    match next case None => completed case Some(job) => completed[job.id := job]
  }

  /** The state after `message` went out for `claim`; the clock already stands at its stamp. */
  function WithSend(
    s: Sys, index: nat, claim: ClaimedSendJob, message: Outbound, advanced: Lead, next: Option<SendJob>, moment: Time)
    : Sys
    requires claim.id in s.jobLogs && index < |s.jobLogs[claim.id].tokens|
  {
    var jobs := JobsAfterSend(s, claim, next, moment);
    s.(db := s.db.(leads := s.db.leads[claim.lead := advanced],
                   jobs := jobs,
                   outbounds := s.db.outbounds[message.id := message],
                   nextId := s.db.nextId + if next.Some? then 2 else 1),
       leadLogs :=
         LogSend(s.leadLogs, claim, message.id, message.createdAt, if next.Some? then [next.value.id] else []),
       jobLogs := LogJobs(LogFate(s.jobLogs, claim.id, index, Settled(Outcome.Sent)), jobs))
  }

  ghost predicate Sends(
    s: Sys, index: nat, claim: ClaimedSendJob, message: Outbound, advanced: Lead, next: Option<SendJob>)
  {
    && CampaignInv(s) && Settling(s, claim.id, index, claim) && Accepts(s.db, claim)
    && message.id == s.db.nextId && message.createdAt == s.clock
    && message.toEmail == claim.payload.toEmail && message.workspace == claim.workspace
    && message.providerMessageId.Some?
    && s.db.campaigns[claim.payload.campaign]
        .RecordSent(s.db.leads[claim.lead], claim.payload.stepPosition, s.clock, s.db.nextId + 1) ==
          Success((advanced, next))
  }

  /** The facts about the claim, its job and its lead that every part of the proof starts from. */
  lemma {:induction false} SendContext(
    s: Sys, index: nat, claim: ClaimedSendJob, message: Outbound, advanced: Lead, next: Option<SendJob>)
    requires Sends(s, index, claim, message, advanced, next)
    ensures LeadRowOk(s, claim.lead) && JobRowOk(s, claim.id)
    ensures var lead, job := s.db.leads[claim.lead], s.db.jobs[claim.id];
      && job.lead == claim.lead && job.payload == claim.payload && lead.IsSendable()
      && claim.payload.campaign == lead.campaign
      && job.payload.stepPosition == lead.stepsSent + 1 == |s.leadLogs[claim.lead].jobs|
      && job.outbound.None?
      && s.jobLogs[claim.id].firstDue <= s.clock
    ensures var campaign, position := s.db.campaigns[claim.payload.campaign], claim.payload.stepPosition;
      && position <= |campaign.steps|
      && campaign.status.Active?
      && advanced.stepsSent == position
      && advanced.state == (if position == |campaign.steps| then LeadState.Done else LeadState.Sent)
      && SameLead(s.db.leads[claim.lead], advanced)
      && advanced.stopReason.None? && advanced.replyIntent.None?
      && (next.Some? <==> position < |campaign.steps|)
      && (next.Some? ==>
            next.value == campaign.JobFor(s.db.leads[claim.lead], campaign.steps[position], s.clock, s.db.nextId + 1))
  {
    assert JobRowOk(s, claim.id);
    assert LeadRowOk(s, claim.lead);
    AcceptedJobIsLive(s, claim.id, claim);
  }

  /** The due time of a follow-up job is its delay after the step before it. */
  lemma {:induction false} SendIsSpaced(
    s: Sys, index: nat, claim: ClaimedSendJob, message: Outbound, advanced: Lead, next: Option<SendJob>)
    requires Sends(s, index, claim, message, advanced, next)
    ensures var position := claim.payload.stepPosition;
      var log, campaign := s.leadLogs[claim.lead], s.db.campaigns[claim.payload.campaign];
      1 < position ==>
        && position - 2 < |log.sends| && position - 1 < |campaign.steps|
        && log.sends[position - 2].stamp + campaign.steps[position - 1].delaySeconds * SECOND <= s.clock
  {
    SendContext(s, index, claim, message, advanced, next);
  }

  lemma {:induction false} SentSlotsOk(
    s: Sys, index: nat, claim: ClaimedSendJob, message: Outbound, advanced: Lead, next: Option<SendJob>, moment: Time)
    requires Sends(s, index, claim, message, advanced, next)
    ensures var t := WithSend(s, index, claim, message, advanced, next, moment);
      claim.lead in t.leadLogs && forall k :: 0 <= k < |t.leadLogs[claim.lead].jobs| ==> SlotOk(t, claim.lead, k)
  {
    SendContext(s, index, claim, message, advanced, next);
    var t := WithSend(s, index, claim, message, advanced, next, moment);
    var l, before := claim.lead, s.leadLogs[claim.lead];
    forall k | 0 <= k < |t.leadLogs[l].jobs| ensures SlotOk(t, l, k) {
      if k < |before.jobs| {
        assert SlotOk(s, l, k);
        assert JobRowOk(s, before.jobs[k]);
      }
    }
  }

  lemma {:induction false} SentLeadOk(
    s: Sys, index: nat, claim: ClaimedSendJob, message: Outbound, advanced: Lead, next: Option<SendJob>, moment: Time)
    requires Sends(s, index, claim, message, advanced, next)
    ensures LeadRowOk(WithSend(s, index, claim, message, advanced, next, moment), claim.lead)
  {
    SendContext(s, index, claim, message, advanced, next);
    SendIsSpaced(s, index, claim, message, advanced, next);
    var t := WithSend(s, index, claim, message, advanced, next, moment);
    var l := claim.lead;
    var campaign, before, log := s.db.campaigns[claim.payload.campaign], s.leadLogs[l], t.leadLogs[l];
    assert SlotOk(s, l, |before.jobs| - 1);
    forall k | 0 <= k < |log.sends| ensures SendOk(campaign, log, t.clock, k) {
      if k < |before.sends| {
        assert SendOk(campaign, before, s.clock, k);
      }
    }
    SentSlotsOk(s, index, claim, message, advanced, next, moment);
  }

  /** No row has an identifier the generator has yet to hand out. */
  lemma {:induction false} JobIdsAreOld(s: Sys)
    requires CampaignInv(s)
    ensures forall k :: k in s.db.jobs ==> k < s.db.nextId
  {
    forall k | k in s.db.jobs ensures k < s.db.nextId {
      assert JobRowOk(s, k);
    }
  }

  /** Where the completed job, the follow-up and every other job are found afterwards. */
  lemma {:induction false} SentLookups(
    s: Sys, index: nat, claim: ClaimedSendJob, message: Outbound, advanced: Lead, next: Option<SendJob>, moment: Time)
    requires Sends(s, index, claim, message, advanced, next)
    ensures var t, j, n := WithSend(s, index, claim, message, advanced, next, moment), claim.id, s.db.nextId + 1;
      && n !in s.db.jobs && n !in s.jobLogs
      && t.jobLogs.Keys == t.db.jobs.Keys
      && (forall k :: k in t.db.jobs <==> k in s.db.jobs || (next.Some? && k == n))
      && t.db.jobs[j] == CompleteRow(s.db.jobs[j], message.id, moment)
      && t.jobLogs[j] == SettleToken(s.jobLogs[j], index, Settled(Outcome.Sent))
      && (next.Some? ==> t.db.jobs[n] == next.value && t.jobLogs[n] == JobLog(next.value.scheduledAt, []))
      && forall k :: k in s.db.jobs && k != j ==> t.db.jobs[k] == s.db.jobs[k] && t.jobLogs[k] == s.jobLogs[k]
  {
    SendContext(s, index, claim, message, advanced, next);
    JobIdsAreOld(s);
  }

  /** The completed job is sound, whatever else its lead's log gained. */
  lemma {:induction false} CompletedJobOk(
    job: SendJob, lead: Lead, campaign: Campaign, log: LeadLog, jobLog: JobLog, clock: Time,
    index: nat, after: Lead, afterLog: LeadLog, moment: Time)
    requires JobOk(job, lead, campaign, log, jobLog, clock)
    requires lead.IsSendable() && job.payload.stepPosition == lead.stepsSent + 1 && |log.sends| == lead.stepsSent
    requires index < |jobLog.tokens| && jobLog.tokens[index].fate.Outstanding?
    requires SameLead(lead, after) && after.stepsSent == lead.stepsSent + 1
    requires log.jobs <= afterLog.jobs && |afterLog.jobs| <= |campaign.steps|
    requires log.sends < afterLog.sends
    ensures JobOk(CompleteRow(job, afterLog.sends[lead.stepsSent].outbound, moment), after, campaign, afterLog,
                  SettleToken(jobLog, index, Settled(Outcome.Sent)), clock)
  {
    SettleCounts(jobLog, index, Settled(Outcome.Sent));
    var settled := SettleToken(jobLog, index, Settled(Outcome.Sent));
    var row := CompleteRow(job, afterLog.sends[lead.stepsSent].outbound, moment);
    forall i | 0 <= i < |settled.tokens| ensures ClaimOf(row, settled.tokens[i].claim) {
      assert ClaimOf(job, jobLog.tokens[i].claim);
    }
  }

  lemma {:induction false} SentJobOk(
    s: Sys, index: nat, claim: ClaimedSendJob, message: Outbound, advanced: Lead, next: Option<SendJob>, moment: Time)
    requires Sends(s, index, claim, message, advanced, next)
    ensures JobRowOk(WithSend(s, index, claim, message, advanced, next, moment), claim.id)
  {
    SendContext(s, index, claim, message, advanced, next);
    SentLookups(s, index, claim, message, advanced, next, moment);
    var t := WithSend(s, index, claim, message, advanced, next, moment);
    var j, l := claim.id, claim.lead;
    CompletedJobOk(s.db.jobs[j], s.db.leads[l], s.db.campaigns[claim.payload.campaign], s.leadLogs[l], s.jobLogs[j],
                   s.clock, index, advanced, t.leadLogs[l], moment);
  }

  lemma {:induction false} FollowUpOk(
    s: Sys, index: nat, claim: ClaimedSendJob, message: Outbound, advanced: Lead, next: Option<SendJob>, moment: Time)
    requires Sends(s, index, claim, message, advanced, next) && next.Some?
    ensures JobRowOk(WithSend(s, index, claim, message, advanced, next, moment), s.db.nextId + 1)
  {
    SendContext(s, index, claim, message, advanced, next);
    SentLookups(s, index, claim, message, advanced, next, moment);
  }

  lemma {:induction false} MessageIsNew(s: Sys)
    requires TablesOk(s)
    ensures s.db.nextId !in s.db.outbounds
    ensures forall k :: k in s.db.jobs ==> s.db.jobs[k].outbound != Some(s.db.nextId)
    ensures forall l, k {:trigger s.leadLogs[l].sends[k]} :: l in s.leadLogs && 0 <= k < |s.leadLogs[l].sends| ==>
      s.leadLogs[l].sends[k].outbound != s.db.nextId
  {
    forall o | o in s.db.outbounds ensures o < s.db.nextId {
      assert OutboundRowOk(s.db.outbounds, s.db.nextId, o);
    }
    forall k | k in s.db.jobs ensures s.db.jobs[k].outbound != Some(s.db.nextId) {
      assert LinkOk(s.db.jobs, s.db.outbounds, k);
    }
    forall l, k | l in s.leadLogs && 0 <= k < |s.leadLogs[l].sends|
      ensures s.leadLogs[l].sends[k].outbound != s.db.nextId
    {
      assert StampOk(s.leadLogs, s.db.outbounds, l, k);
    }
  }

  lemma {:induction false} SentLinksUnique(
    s: Sys, index: nat, claim: ClaimedSendJob, message: Outbound, advanced: Lead, next: Option<SendJob>, moment: Time)
    requires Sends(s, index, claim, message, advanced, next)
    ensures LinksUnique(WithSend(s, index, claim, message, advanced, next, moment).db.jobs)
  {
    SendContext(s, index, claim, message, advanced, next);
    SentLookups(s, index, claim, message, advanced, next, moment);
    MessageIsNew(s);
    var after := WithSend(s, index, claim, message, advanced, next, moment).db.jobs;
    NewLinkIsUnique(s.db.jobs, after, claim.id, s.db.nextId);
  }

  /** Linking one job to a message no job links to keeps links unique. */
  lemma {:induction false} NewLinkIsUnique(jobs: JobTable, after: JobTable, j: Id, message: Id)
    requires LinksUnique(jobs) && forall k :: k in jobs ==> jobs[k].outbound != Some(message)
    requires j in after && after[j].outbound == Some(message)
    requires forall k :: k in after && k != j ==>
      if k in jobs then after[k].outbound == jobs[k].outbound else after[k].outbound.None?
    ensures LinksUnique(after)
  {
  }

  lemma {:induction false} SentLinksOk(
    s: Sys, index: nat, claim: ClaimedSendJob, message: Outbound, advanced: Lead, next: Option<SendJob>, moment: Time)
    requires Sends(s, index, claim, message, advanced, next)
    ensures var t := WithSend(s, index, claim, message, advanced, next, moment);
      LinksUnique(t.db.jobs) && LinksOk(t.db.jobs, t.db.outbounds)
  {
    SendContext(s, index, claim, message, advanced, next);
    SentLookups(s, index, claim, message, advanced, next, moment);
    SentLinksUnique(s, index, claim, message, advanced, next, moment);
    MessageIsNew(s);
    var t := WithSend(s, index, claim, message, advanced, next, moment);
    forall k | k in t.db.jobs ensures LinkOk(t.db.jobs, t.db.outbounds, k) {
      if k in s.db.jobs { assert LinkOk(s.db.jobs, s.db.outbounds, k); }
    }
  }

  lemma {:induction false} SentStampsOk(
    s: Sys, index: nat, claim: ClaimedSendJob, message: Outbound, advanced: Lead, next: Option<SendJob>, moment: Time)
    requires Sends(s, index, claim, message, advanced, next)
    ensures var t := WithSend(s, index, claim, message, advanced, next, moment); StampsOk(t.leadLogs, t.db.outbounds)
  {
    SendContext(s, index, claim, message, advanced, next);
    MessageIsNew(s);
    var t := WithSend(s, index, claim, message, advanced, next, moment);
    forall l, k | l in t.leadLogs && 0 <= k < |t.leadLogs[l].sends| ensures StampOk(t.leadLogs, t.db.outbounds, l, k) {
      if k < |s.leadLogs[l].sends| {
        assert StampOk(s.leadLogs, s.db.outbounds, l, k);
        assert t.leadLogs[l].sends[k] == s.leadLogs[l].sends[k];
      }
    }
  }

  lemma {:induction false} SentTablesOk(
    s: Sys, index: nat, claim: ClaimedSendJob, message: Outbound, advanced: Lead, next: Option<SendJob>, moment: Time)
    requires Sends(s, index, claim, message, advanced, next)
    requires Advances(s, WithSend(s, index, claim, message, advanced, next, moment), claim.lead, claim.id)
    ensures TablesOk(WithSend(s, index, claim, message, advanced, next, moment))
  {
    var t := WithSend(s, index, claim, message, advanced, next, moment);
    SentLinksOk(s, index, claim, message, advanced, next, moment);
    SentStampsOk(s, index, claim, message, advanced, next, moment);
    EmailsKept(s, t, claim.lead, claim.id);
    forall c | c in t.db.campaigns ensures CampaignRowOk(t.db.campaigns, t.db.nextId, c) {
      assert CampaignRowOk(s.db.campaigns, s.db.nextId, c);
    }
    forall p | p in t.db.outbounds ensures OutboundRowOk(t.db.outbounds, t.db.nextId, p) {
      if p != message.id { assert OutboundRowOk(s.db.outbounds, s.db.nextId, p); }
    }
  }

  lemma {:induction false} SentIsAdvance(
    s: Sys, index: nat, claim: ClaimedSendJob, message: Outbound, advanced: Lead, next: Option<SendJob>, moment: Time)
    requires Sends(s, index, claim, message, advanced, next)
    ensures Advances(s, WithSend(s, index, claim, message, advanced, next, moment), claim.lead, claim.id)
  {
    SendContext(s, index, claim, message, advanced, next);
    SentLookups(s, index, claim, message, advanced, next, moment);
  }

  lemma {:induction false} SentKeeps(
    s: Sys, index: nat, claim: ClaimedSendJob, message: Outbound, advanced: Lead, next: Option<SendJob>, moment: Time)
    requires Sends(s, index, claim, message, advanced, next)
    ensures CampaignInv(WithSend(s, index, claim, message, advanced, next, moment))
  {
    var t := WithSend(s, index, claim, message, advanced, next, moment);
    SentIsAdvance(s, index, claim, message, advanced, next, moment);
    SentLookups(s, index, claim, message, advanced, next, moment);
    SentLeadOk(s, index, claim, message, advanced, next, moment);
    SentJobOk(s, index, claim, message, advanced, next, moment);
    if next.Some? {
      FollowUpOk(s, index, claim, message, advanced, next, moment);
    }
    AllRowsKept(s, t, claim.lead, claim.id);
    SentTablesOk(s, index, claim, message, advanced, next, moment);
  }
}
