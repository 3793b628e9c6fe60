/** The operator's commands and test emails keep the invariant of the campaign tables. */
module CommandKeeps {
  import opened Base
  import opened CampaignDomain
  import opened Invariant
  import opened Machine
  import opened ProcessingKeeps
  import opened SendKeeps
  import opened Sending
  import opened Tables
  import Text

  // ---------- Growth: new campaigns, new messages, later clocks ----------

  /** `t` has the leads and jobs of `s`, and possibly more campaigns, messages, identifiers and time. */
  ghost predicate Grows(s: Sys, t: Sys) {
    && t.db.leads == s.db.leads && t.db.jobs == s.db.jobs && t.leadLogs == s.leadLogs && t.jobLogs == s.jobLogs
    && s.clock <= t.clock && s.db.nextId <= t.db.nextId
    && (forall c :: c in s.db.campaigns ==> c in t.db.campaigns && t.db.campaigns[c] == s.db.campaigns[c])
    && (forall c :: c in t.db.campaigns && c !in s.db.campaigns ==> CampaignRowOk(t.db.campaigns, t.db.nextId, c))
    && (forall o :: o in s.db.outbounds ==> o in t.db.outbounds && t.db.outbounds[o] == s.db.outbounds[o])
    && (forall o :: o in t.db.outbounds && o !in s.db.outbounds ==> OutboundRowOk(t.db.outbounds, t.db.nextId, o))
  }

  lemma {:induction false} GrowthKeepsLead(s: Sys, t: Sys, l: Id)
    requires CampaignInv(s) && Grows(s, t) && l in s.db.leads
    ensures LeadRowOk(t, l)
  {
    assert LeadRowOk(s, l);
    LeadLater(s, t.clock, l);
    forall k | 0 <= k < |t.leadLogs[l].jobs| ensures SlotOk(t, l, k) {
      assert SlotOk(s, l, k);
    }
  }

  lemma {:induction false} GrowthKeepsTables(s: Sys, t: Sys)
    requires CampaignInv(s) && Grows(s, t)
    ensures TablesOk(t)
  {
    forall c | c in t.db.campaigns ensures CampaignRowOk(t.db.campaigns, t.db.nextId, c) {
      if c in s.db.campaigns { assert CampaignRowOk(s.db.campaigns, s.db.nextId, c); }
    }
    forall o | o in t.db.outbounds ensures OutboundRowOk(t.db.outbounds, t.db.nextId, o) {
      if o in s.db.outbounds { assert OutboundRowOk(s.db.outbounds, s.db.nextId, o); }
    }
    forall j | j in t.db.jobs ensures LinkOk(t.db.jobs, t.db.outbounds, j) {
      assert LinkOk(s.db.jobs, s.db.outbounds, j);
    }
    forall l, k | l in t.leadLogs && 0 <= k < |t.leadLogs[l].sends| ensures StampOk(t.leadLogs, t.db.outbounds, l, k) {
      assert StampOk(s.leadLogs, s.db.outbounds, l, k);
    }
  }

  lemma {:induction false} GrowthKeeps(s: Sys, t: Sys)
    requires CampaignInv(s) && Grows(s, t)
    ensures CampaignInv(t)
  {
    forall l | l in t.db.leads ensures LeadRowOk(t, l) {
      GrowthKeepsLead(s, t, l);
    }
    forall j | j in t.db.jobs ensures JobRowOk(t, j) {
      assert JobRowOk(s, j);
    }
    GrowthKeepsTables(s, t);
  }

  lemma {:induction false} CampaignIdsAreOld(s: Sys)
    requires CampaignInv(s)
    ensures forall c :: c in s.db.campaigns ==> c < s.db.nextId
  {
    forall c | c in s.db.campaigns ensures c < s.db.nextId {
      assert CampaignRowOk(s.db.campaigns, s.db.nextId, c);
    }
  }

  lemma {:induction false} CreateGrows(
    s: Sys, workspace: Id, mailbox: Id, name: string, drafts: seq<StepDraft>, moment: Time)
    requires CampaignInv(s) && s.clock <= moment
    ensures Grows(s, Apply(s, CreateCampaign(workspace, mailbox, name, drafts, moment)))
  {
    CampaignIdsAreOld(s);
  }

  lemma {:induction false} TestEmailGrows(
    s: Sys, workspace: Id, toEmail: string, subject: string, body: string, env: SendEnv)
    requires CampaignInv(s) && InOrder(s.clock, s.clock, env)
    ensures Grows(s, Apply(s, SendTestEmail(workspace, toEmail, subject, body, env)))
  {
    MessageIsNew(s);
  }

  lemma {:induction false} CreateKeeps(
    s: Sys, workspace: Id, mailbox: Id, name: string, drafts: seq<StepDraft>, moment: Time)
    requires CampaignInv(s) && s.clock <= moment
    ensures CampaignInv(Apply(s, CreateCampaign(workspace, mailbox, name, drafts, moment)))
  {
    CreateGrows(s, workspace, mailbox, name, drafts, moment);
    GrowthKeeps(s, Apply(s, CreateCampaign(workspace, mailbox, name, drafts, moment)));
  }

  lemma {:induction false} TestEmailKeeps(
    s: Sys, workspace: Id, toEmail: string, subject: string, body: string, env: SendEnv)
    requires CampaignInv(s) && InOrder(s.clock, s.clock, env)
    ensures CampaignInv(Apply(s, SendTestEmail(workspace, toEmail, subject, body, env)))
  {
    TestEmailGrows(s, workspace, toEmail, subject, body, env);
    GrowthKeeps(s, Apply(s, SendTestEmail(workspace, toEmail, subject, body, env)));
  }

  // ---------- Logs of new leads and first jobs ----------

  lemma {:induction false} LogLeadsAt(logs: map<Id, LeadLog>, leads: seq<Lead>, first: Id, id: Id)
    requires forall i :: 0 <= i < |leads| ==> leads[i].id == first + i
    ensures var after := LogLeads(logs, leads);
      && (id in after <==> id in logs || first <= id < first + |leads|)
      && (id in after ==> after[id] == if first <= id < first + |leads| then LeadLog([], []) else logs[id])
  {
    if leads != [] {
      LogLeadsAt(logs, leads[..|leads| - 1], first, id);
    }
  }

  lemma {:induction false} LogFirstJobsWrites(logs: map<Id, LeadLog>, leads: seq<Lead>, firstJob: Id, i: nat)
    requires i < |leads| && DistinctLeads(leads)
    ensures leads[i].id in LogFirstJobs(logs, leads, firstJob)
    ensures LogFirstJobs(logs, leads, firstJob)[leads[i].id] == LeadLog([firstJob + i], [])
  {
    var last := |leads| - 1;
    if i < last {
      LogFirstJobsWrites(logs, leads[..last], firstJob, i);
    }
  }

  lemma {:induction false} LogFirstJobsKeeps(logs: map<Id, LeadLog>, leads: seq<Lead>, firstJob: Id, id: Id)
    requires forall i :: 0 <= i < |leads| ==> leads[i].id != id
    ensures id in LogFirstJobs(logs, leads, firstJob) <==> id in logs
    ensures id in logs ==> LogFirstJobs(logs, leads, firstJob)[id] == logs[id]
  {
    if leads != [] {
      LogFirstJobsKeeps(logs, leads[..|leads| - 1], firstJob, id);
    }
  }

  // ---------- A first-step job ----------

  /** A pending lead, once scheduled, and its first job, are sound. */
  lemma {:induction false} FirstJobOk(lead: Lead, campaign: Campaign, log: LeadLog, clock: Time, moment: Time, j: Id)
    requires campaign.WellFormed() && campaign.IsActive()
    requires LeadOk(lead, campaign.(status := Draft), log, clock) && lead.state.Pending? && clock <= moment
    ensures var scheduled := lead.Moved(LeadState.Scheduled, moment);
      var job := campaign.JobFor(lead, campaign.steps[0], moment, j);
      && LeadOk(scheduled, campaign, LeadLog([j], []), moment)
      && JobOk(job, scheduled, campaign, LeadLog([j], []), JobLog(job.scheduledAt, []), moment)
      && job.id == j && job.lead == lead.id && job.payload.stepPosition == 1 && job.outbound.None?
  {
  }

  lemma {:induction false} NewLeadOk(lead: Lead, campaign: Campaign, clock: Time, email: string, id: Id, moment: Time)
    requires campaign.WellFormed()
    requires email != "" && Text.NormalizeEmail(email) == email
    requires lead == NewLead(id, campaign.workspace, campaign.id, email, moment)
    ensures LeadOk(lead, campaign.(status := Draft), LeadLog([], []), clock)
    ensures lead.email == email
  {
  }
}
