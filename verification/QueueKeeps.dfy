/** Claiming jobs and consuming classified replies keep the invariant. */
module QueueKeeps {
  import opened Base
  import opened CampaignDomain
  import opened Invariant
  import opened Machine
  import opened ProcessKeeps
  import opened ProcessingKeeps
  import opened SendQueue
  import opened Tables
  import opened Tokens
  import Replies

  // ---------- Claiming ----------

  ghost predicate Claims(s: Sys, workspace: Id, chosen: set<Id>, moment: Time) {
    && CampaignInv(s) && s.clock <= moment
    && forall id :: id in chosen ==> id in s.db.jobs && Claimable(s.db.jobs[id], workspace, moment)
  }

  /** A claimed job is sound: its attempts and its claims grow together, and it was due. */
  lemma {:induction false} ClaimedJobOk(
    job: SendJob, lead: Lead, campaign: Campaign, log: LeadLog, jobLog: JobLog, clock: Time,
    workspace: Id, worker: Id, moment: Time)
    requires JobOk(job, lead, campaign, log, jobLog, clock) && |log.sends| == lead.stepsSent
    requires clock <= moment && Claimable(job, workspace, moment)
    ensures var row := ClaimRow(job, worker, moment);
      JobOk(row, lead, campaign, log,
            jobLog.(tokens := jobLog.tokens + [Token(Claimed(row), moment, Outstanding)]), moment)
  {
    var row := ClaimRow(job, worker, moment);
    var token := Token(Claimed(row), moment, Outstanding);
    RankedAfterClaim(jobLog.tokens, token);
    CountedOfAppend(jobLog.tokens, token);
    var tokens := jobLog.tokens + [token];
    forall i | 0 <= i < |tokens| ensures ClaimOf(row, tokens[i].claim) {
      if i < |jobLog.tokens| { assert ClaimOf(job, jobLog.tokens[i].claim); }
    }
  }

  lemma {:induction false} ClaimKeepsJob(s: Sys, workspace: Id, worker: Id, chosen: set<Id>, moment: Time, j: Id)
    requires Claims(s, workspace, chosen, moment) && j in s.db.jobs
    ensures JobRowOk(ApplyClaim(s, worker, chosen, moment), j)
  {
    assert JobRowOk(s, j);
    var l := s.db.jobs[j].lead;
    assert LeadRowOk(s, l);
    if j in chosen {
      ClaimedJobOk(s.db.jobs[j], s.db.leads[l], s.db.campaigns[s.db.leads[l].campaign], s.leadLogs[l], s.jobLogs[j],
                   s.clock, workspace, worker, moment);
    }
  }

  lemma {:induction false} ClaimKeepsLead(s: Sys, workspace: Id, worker: Id, chosen: set<Id>, moment: Time, l: Id)
    requires Claims(s, workspace, chosen, moment) && l in s.db.leads
    ensures LeadRowOk(ApplyClaim(s, worker, chosen, moment), l)
  {
    var t := ApplyClaim(s, worker, chosen, moment);
    assert LeadRowOk(s, l);
    LeadLater(s, moment, l);
    forall k | 0 <= k < |t.leadLogs[l].jobs| ensures SlotOk(t, l, k) {
      assert SlotOk(s, l, k);
    }
  }

  lemma {:induction false} ClaimKeepsTables(s: Sys, workspace: Id, worker: Id, chosen: set<Id>, moment: Time)
    requires Claims(s, workspace, chosen, moment)
    ensures TablesOk(ApplyClaim(s, worker, chosen, moment))
  {
    var t := ApplyClaim(s, worker, chosen, moment);
    forall j | j in t.db.jobs ensures LinkOk(t.db.jobs, t.db.outbounds, j) {
      assert LinkOk(s.db.jobs, s.db.outbounds, j);
    }
  }

  lemma {:induction false} ClaimKeeps(s: Sys, workspace: Id, worker: Id, chosen: set<Id>, moment: Time)
    requires Claims(s, workspace, chosen, moment)
    ensures CampaignInv(ApplyClaim(s, worker, chosen, moment))
  {
    var t := ApplyClaim(s, worker, chosen, moment);
    forall l | l in t.db.leads ensures LeadRowOk(t, l) {
      ClaimKeepsLead(s, workspace, worker, chosen, moment, l);
    }
    forall j | j in t.db.jobs ensures JobRowOk(t, j) {
      ClaimKeepsJob(s, workspace, worker, chosen, moment, j);
    }
    ClaimKeepsTables(s, workspace, worker, chosen, moment);
  }

  // ---------- Stopping a lead ----------

  function WithDb(s: Sys, db: Db): Sys {
    s.(db := db)
  }

  /** The lead a reply stops, and the state afterwards. */
  ghost predicate Stops(s: Sys, l: Id, intent: Intent, moment: Time) {
    && CampaignInv(s) && LeadRowOk(s, l) && s.db.leads[l].IsReplyable()
  }

  function Stopped(s: Sys, l: Id, intent: Intent, moment: Time): Sys {
    WithDb(s, Replies.StopFoundLead(s.db, l, intent, moment).0)
  }

  /** The row a replyable lead gets. */
  lemma {:induction false} StoppedLookups(s: Sys, l: Id, intent: Intent, moment: Time)
    requires Stops(s, l, intent, moment)
    ensures var t, before := Stopped(s, l, intent, moment), s.db.leads[l];
      && t.db == s.db.(leads := s.db.leads[l := t.db.leads[l]], jobs := CancelPendingForLead(s.db.jobs, l, moment))
      && SameLead(before, t.db.leads[l]) && t.db.leads[l].stepsSent == before.stepsSent
      && t.db.leads[l].replyIntent == Some(intent)
      && (intent.Bounce? ==> t.db.leads[l].state.Failed? && t.db.leads[l].stopReason == Some(Bounced))
      && (!intent.Bounce? ==> t.db.leads[l].state.Paused?)
      && (!intent.Bounce? ==> t.db.leads[l].stopReason == Some(if intent.Unsubscribe? then Unsubscribed else Replied))
  {
  }

  /** Cancelling a pending job of a stopped lead changes neither its claims nor its due time. */
  lemma {:induction false} StoppedJobOk(
    job: SendJob, lead: Lead, campaign: Campaign, log: LeadLog, jobLog: JobLog, clock: Time, after: Lead, moment: Time)
    requires JobOk(job, lead, campaign, log, jobLog, clock)
    requires SameLead(lead, after) && after.stepsSent == lead.stepsSent && after.IsStopped()
    ensures JobOk(if job.status.Pending? then CancelRow(job, moment) else job, after, campaign, log, jobLog, clock)
  {
    var row := if job.status.Pending? then CancelRow(job, moment) else job;
    forall i | 0 <= i < |jobLog.tokens| ensures ClaimOf(row, jobLog.tokens[i].claim) {
      assert ClaimOf(job, jobLog.tokens[i].claim);
    }
  }

  lemma {:induction false} StopKeepsJob(s: Sys, l: Id, intent: Intent, moment: Time, j: Id)
    requires Stops(s, l, intent, moment) && j in s.db.jobs
    ensures JobRowOk(Stopped(s, l, intent, moment), j)
  {
    assert JobRowOk(s, j);
    StoppedLookups(s, l, intent, moment);
    if s.db.jobs[j].lead == l {
      StoppedJobOk(s.db.jobs[j], s.db.leads[l], s.db.campaigns[s.db.leads[l].campaign], s.leadLogs[l], s.jobLogs[j],
                   s.clock, Stopped(s, l, intent, moment).db.leads[l], moment);
    }
  }

  lemma {:induction false} StopKeepsLead(s: Sys, l: Id, intent: Intent, moment: Time, m: Id)
    requires Stops(s, l, intent, moment) && m in s.db.leads
    ensures LeadRowOk(Stopped(s, l, intent, moment), m)
  {
    StoppedLookups(s, l, intent, moment);
    var t := Stopped(s, l, intent, moment);
    assert LeadRowOk(s, m);
    forall k | 0 <= k < |t.leadLogs[m].jobs| ensures SlotOk(t, m, k) {
      assert SlotOk(s, m, k);
    }
  }

  lemma {:induction false} StopKeepsTables(s: Sys, l: Id, intent: Intent, moment: Time)
    requires Stops(s, l, intent, moment)
    ensures TablesOk(Stopped(s, l, intent, moment))
  {
    var t := Stopped(s, l, intent, moment);
    forall a, b | a in t.db.leads && b in t.db.leads ensures EmailPairOk(t.db.leads, a, b) {
      assert EmailPairOk(s.db.leads, a, b);
    }
    forall j | j in t.db.jobs ensures LinkOk(t.db.jobs, t.db.outbounds, j) {
      assert LinkOk(s.db.jobs, s.db.outbounds, j);
    }
  }

  lemma {:induction false} StopKeeps(s: Sys, l: Id, intent: Intent, moment: Time)
    requires Stops(s, l, intent, moment)
    ensures CampaignInv(Stopped(s, l, intent, moment))
  {
    var t := Stopped(s, l, intent, moment);
    forall m | m in t.db.leads ensures LeadRowOk(t, m) {
      StopKeepsLead(s, l, intent, moment, m);
    }
    forall j | j in t.db.jobs ensures JobRowOk(t, j) {
      StopKeepsJob(s, l, intent, moment, j);
    }
    StopKeepsTables(s, l, intent, moment);
  }

  /** A lead behind a linked message has been sent to, so a reply finds it replyable or stopped. */
  lemma {:induction false} LinkedLeadWasSentTo(s: Sys, outbound: Id)
    requires CampaignInv(s) && FindLead(s.db.jobs, outbound).Some?
    ensures var l := FindLead(s.db.jobs, outbound).value;
      && l in s.db.leads && s.db.leads[l].campaign in s.db.campaigns
      && 1 <= s.db.leads[l].stepsSent
      && (s.db.leads[l].IsReplyable() || s.db.leads[l].IsStopped())
      && s.db.campaigns[s.db.leads[l].campaign].id == s.db.leads[l].campaign
  {
    var j :| LinksTo(s.db.jobs, j, outbound) && s.db.jobs[j].lead == FindLead(s.db.jobs, outbound).value;
    assert JobRowOk(s, j);
    assert LeadRowOk(s, s.db.jobs[j].lead);
  }

  lemma {:induction false} HandleEventKeeps(s: Sys, event: OutboxEvent, moment: Time)
    requires Inv(s)
    ensures Inv(WithDb(s, Replies.HandleEvent(s.db, event, moment)))
  {
    var reply := Replies.ToReply(event);
    var stopped := Replies.StopLead(s.db, reply, moment).0;
    if reply.matched.Some? && FindLead(s.db.jobs, reply.matched.value).Some? {
      var l := FindLead(s.db.jobs, reply.matched.value).value;
      LinkedLeadWasSentTo(s, reply.matched.value);
      if s.db.leads[l].IsReplyable() {
        assert LeadRowOk(s, l);
        StopKeeps(s, l, reply.intent, moment);
      }
    }
    assert CampaignInv(WithDb(s, stopped));
    ProcessedIsNoMatter(WithDb(s, stopped), reply.eventId);
    MessagingFrame(s.db, Replies.HandleEvent(s.db, event, moment));
  }

  lemma {:induction false} ProcessedIsNoMatter(s: Sys, eventId: Id)
    requires CampaignInv(s)
    ensures CampaignInv(WithDb(s, s.db.(processed := s.db.processed + {eventId})))
  {
    var t := WithDb(s, s.db.(processed := s.db.processed + {eventId}));
    forall l | l in t.db.leads ensures LeadRowOk(t, l) {
      assert LeadRowOk(s, l);
      forall k | 0 <= k < |t.leadLogs[l].jobs| ensures SlotOk(t, l, k) {
        assert SlotOk(s, l, k);
      }
    }
    forall j | j in t.db.jobs ensures JobRowOk(t, j) {
      assert JobRowOk(s, j);
    }
  }

  lemma {:induction false} HandleAllKeeps(s: Sys, batch: seq<OutboxEvent>, moment: Time)
    requires Inv(s)
    ensures Inv(WithDb(s, Replies.HandleAll(s.db, batch, moment)))
  {
    if batch != [] {
      var last := |batch| - 1;
      HandleAllKeeps(s, batch[..last], moment);
      HandleEventKeeps(WithDb(s, Replies.HandleAll(s.db, batch[..last], moment)), batch[last], moment);
    }
  }
}
