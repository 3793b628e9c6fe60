/** Starting a campaign keeps the invariant: every pending lead is scheduled and gets its first job. */
module StartKeeps {
  import opened AddLeadsKeeps
  import opened Base
  import opened CampaignDomain
  import opened CommandKeeps
  import opened Invariant
  import opened Machine
  import opened ProcessingKeeps
  import opened SendKeeps
  import opened SendQueue
  import opened Tables
  import Commands

  function Started(target: Campaign): Campaign {
    target.(status := Active)
  }

  /** What the state of a campaign that has just been started is made of. */
  ghost predicate Starts(
    s: Sys, target: Campaign, pending: seq<Lead>, moment: Time, scheduled: seq<Lead>, jobs: seq<SendJob>)
  {
    && CampaignInv(s)
    && target.id in s.db.campaigns && s.db.campaigns[target.id] == target && target.status.Draft? && target.WellFormed()
    && Commands.IsPendingList(s.db.leads, target.id, pending)
    && s.clock <= moment
    && Pairs(Started(target), pending, s.db.nextId, moment, scheduled, jobs)
    && UpdateLeads(s.db.leads, scheduled).Some?
  }

  function StartedState(
    s: Sys, target: Campaign, pending: seq<Lead>, moment: Time, leads: map<Id, Lead>, jobs: seq<SendJob>): Sys
  {
    s.(db := StartedDb(s.db, target, leads, jobs),
       clock := moment,
       leadLogs := LogFirstJobs(s.leadLogs, pending, s.db.nextId),
       jobLogs := LogJobs(s.jobLogs, InsertJobs(s.db.jobs, jobs)))
  }

  ghost function After(
    s: Sys, target: Campaign, pending: seq<Lead>, moment: Time, scheduled: seq<Lead>, jobs: seq<SendJob>): Sys
    requires Starts(s, target, pending, moment, scheduled, jobs)
  {
    StartedState(s, target, pending, moment, UpdateLeads(s.db.leads, scheduled).value, jobs)
  }

  lemma {:induction false} PendingProgress(
    s: Sys, target: Campaign, pending: seq<Lead>, moment: Time, scheduled: seq<Lead>, jobs: seq<SendJob>)
    requires Starts(s, target, pending, moment, scheduled, jobs)
    ensures ProgressOnly(s.db.leads, scheduled) && DistinctLeads(scheduled) && DistinctLeads(pending)
  {
    assert forall i :: 0 <= i < |scheduled| ==> scheduled[i].id == pending[i].id;
  }

  /** Where the `i`-th pending lead, its log and its job are found. */
  lemma {:induction false} PendingLookups(
    s: Sys, target: Campaign, pending: seq<Lead>, moment: Time, scheduled: seq<Lead>, jobs: seq<SendJob>, i: nat)
    requires i < |pending| && target.steps != [] && Pairs(target, pending, s.db.nextId, moment, scheduled, jobs)
    requires ProgressOnly(s.db.leads, scheduled) && DistinctLeads(scheduled) && DistinctLeads(pending)
    requires s.jobLogs.Keys == s.db.jobs.Keys && forall j :: j in s.db.jobs ==> j < s.db.nextId
    ensures UpdateLeads(s.db.leads, scheduled).Some?
    ensures var t := StartedState(s, target, pending, moment, UpdateLeads(s.db.leads, scheduled).value, jobs);
      var (l, j) := (pending[i].id, s.db.nextId + i);
      && l in t.db.leads && t.db.leads[l] == scheduled[i]
      && l in t.leadLogs && t.leadLogs[l] == LeadLog([j], [])
      && j in t.db.jobs && t.db.jobs[j] == jobs[i]
      && j in t.jobLogs && t.jobLogs[j] == JobLog(jobs[i].scheduledAt, [])
  {
    UpdateLeadsWrites(s.db.leads, scheduled, i);
    LogFirstJobsWrites(s.leadLogs, pending, s.db.nextId, i);
    InsertJobsAt(s.db.jobs, jobs, s.db.nextId, s.db.nextId + i);
  }

  lemma {:induction false} StartedLookups(
    s: Sys, target: Campaign, pending: seq<Lead>, moment: Time, scheduled: seq<Lead>, jobs: seq<SendJob>, i: nat)
    requires Starts(s, target, pending, moment, scheduled, jobs) && i < |pending|
    ensures var t := After(s, target, pending, moment, scheduled, jobs);
      var (l, j) := (pending[i].id, s.db.nextId + i);
      && l in t.db.leads && t.db.leads[l] == scheduled[i]
      && l in t.leadLogs && t.leadLogs[l] == LeadLog([j], [])
      && j in t.db.jobs && t.db.jobs[j] == jobs[i]
      && j in t.jobLogs && t.jobLogs[j] == JobLog(jobs[i].scheduledAt, [])
  {
    PendingProgress(s, target, pending, moment, scheduled, jobs);
    JobIdsAreOld(s);
    PendingLookups(s, target, pending, moment, scheduled, jobs, i);
  }

  lemma {:induction false} StartedPairOk(
    s: Sys, target: Campaign, pending: seq<Lead>, moment: Time, scheduled: seq<Lead>, jobs: seq<SendJob>, i: nat)
    requires Starts(s, target, pending, moment, scheduled, jobs) && i < |pending|
    ensures var t, l, j := After(s, target, pending, moment, scheduled, jobs), pending[i].id, s.db.nextId + i;
      && LeadRowOk(t, l) && t.leadLogs[l].sends == []
      && JobRowOk(t, j) && t.db.jobs[j].outbound.None?
  {
    assert LeadRowOk(s, pending[i].id);
    assert Started(target).(status := Draft) == target;
    StartedLookups(s, target, pending, moment, scheduled, jobs, i);
    FirstJobOk(pending[i], Started(target), s.leadLogs[pending[i].id], s.clock, moment, s.db.nextId + i);
  }

  /** A lead of another campaign keeps its row and its log. */
  lemma {:induction false} OtherCampaignsLead(
    s: Sys, target: Campaign, pending: seq<Lead>, moment: Time, scheduled: seq<Lead>, jobs: seq<SendJob>, l: Id)
    requires Starts(s, target, pending, moment, scheduled, jobs) && l in s.db.leads
    requires s.db.leads[l].campaign != target.id
    ensures var t := After(s, target, pending, moment, scheduled, jobs);
      l in t.db.leads && t.db.leads[l] == s.db.leads[l] && l in t.leadLogs && t.leadLogs[l] == s.leadLogs[l]
  {
    assert LeadRowOk(s, l);
    PendingProgress(s, target, pending, moment, scheduled, jobs);
    forall i | 0 <= i < |pending| ensures pending[i].id != l && scheduled[i].id != l && scheduled[i].id in s.db.leads {
      assert pending[i].campaign == target.id;
    }
    UpdateLeadsKeeps(s.db.leads, scheduled, l);
    LogFirstJobsKeeps(s.leadLogs, pending, s.db.nextId, l);
  }

  /** A job that was there keeps its row and its log, and its lead is in another campaign. */
  lemma {:induction false} OldJobKept(
    s: Sys, target: Campaign, pending: seq<Lead>, moment: Time, scheduled: seq<Lead>, jobs: seq<SendJob>, j: Id)
    requires Starts(s, target, pending, moment, scheduled, jobs)
    ensures var t := After(s, target, pending, moment, scheduled, jobs);
      && (j in t.db.jobs <==> j in s.db.jobs || s.db.nextId <= j < s.db.nextId + |pending|)
      && (j in t.jobLogs <==> j in t.db.jobs)
      && (j in s.db.jobs ==>
            && j < s.db.nextId && s.db.jobs[j].lead in s.db.leads && s.db.leads[s.db.jobs[j].lead].campaign != target.id
            && t.db.jobs[j] == s.db.jobs[j] && t.jobLogs[j] == s.jobLogs[j])
  {
    JobIdsAreOld(s);
    InsertJobsAt(s.db.jobs, jobs, s.db.nextId, j);
    if j in s.db.jobs {
      assert JobRowOk(s, j);
      assert LeadRowOk(s, s.db.jobs[j].lead);
    }
  }

  lemma {:induction false} StartedLeadOk(
    s: Sys, target: Campaign, pending: seq<Lead>, moment: Time, scheduled: seq<Lead>, jobs: seq<SendJob>, l: Id)
    requires Starts(s, target, pending, moment, scheduled, jobs) && l in s.db.leads
    ensures var t := After(s, target, pending, moment, scheduled, jobs);
      && LeadRowOk(t, l)
      && t.db.leads[l].campaign == s.db.leads[l].campaign && t.db.leads[l].email == s.db.leads[l].email
      && (t.leadLogs[l].sends == [] || t.leadLogs[l] == s.leadLogs[l])
  {
    assert LeadRowOk(s, l);
    if s.db.leads[l].campaign == target.id {
      assert Commands.PendingListed(s.db.leads, target.id, pending, l);
      var i :| 0 <= i < |pending| && pending[i] == s.db.leads[l];
      StartedPairOk(s, target, pending, moment, scheduled, jobs, i);
      StartedLookups(s, target, pending, moment, scheduled, jobs, i);
    } else {
      var t := After(s, target, pending, moment, scheduled, jobs);
      OtherCampaignsLead(s, target, pending, moment, scheduled, jobs, l);
      LeadLater(s, moment, l);
      forall k | 0 <= k < |t.leadLogs[l].jobs| ensures SlotOk(t, l, k) {
        assert SlotOk(s, l, k);
        OldJobKept(s, target, pending, moment, scheduled, jobs, s.leadLogs[l].jobs[k]);
      }
    }
  }

  lemma {:induction false} OldJobOk(
    s: Sys, target: Campaign, pending: seq<Lead>, moment: Time, scheduled: seq<Lead>, jobs: seq<SendJob>, j: Id)
    requires Starts(s, target, pending, moment, scheduled, jobs) && j in s.db.jobs
    ensures JobRowOk(After(s, target, pending, moment, scheduled, jobs), j)
  {
    var t, l := After(s, target, pending, moment, scheduled, jobs), s.db.jobs[j].lead;
    assert JobRowOk(s, j);
    OldJobKept(s, target, pending, moment, scheduled, jobs, j);
    OtherCampaignsLead(s, target, pending, moment, scheduled, jobs, l);
    assert t.db.campaigns[s.db.leads[l].campaign] == s.db.campaigns[s.db.leads[l].campaign];
    assert JobOk(t.db.jobs[j], t.db.leads[l], t.db.campaigns[t.db.leads[l].campaign], t.leadLogs[l], t.jobLogs[j],
                 t.clock);
  }

  lemma {:induction false} StartedJobOk(
    s: Sys, target: Campaign, pending: seq<Lead>, moment: Time, scheduled: seq<Lead>, jobs: seq<SendJob>, j: Id)
    requires Starts(s, target, pending, moment, scheduled, jobs)
    requires j in After(s, target, pending, moment, scheduled, jobs).db.jobs
    ensures var t := After(s, target, pending, moment, scheduled, jobs);
      && JobRowOk(t, j)
      && (j in s.db.jobs ==> t.db.jobs[j] == s.db.jobs[j])
      && (j !in s.db.jobs ==> t.db.jobs[j].outbound.None?)
  {
    OldJobKept(s, target, pending, moment, scheduled, jobs, j);
    if j in s.db.jobs {
      OldJobOk(s, target, pending, moment, scheduled, jobs, j);
    } else {
      StartedPairOk(s, target, pending, moment, scheduled, jobs, j - s.db.nextId);
    }
  }

  lemma {:induction false} StartedLeadKeys(
    s: Sys, target: Campaign, pending: seq<Lead>, moment: Time, scheduled: seq<Lead>, jobs: seq<SendJob>)
    requires Starts(s, target, pending, moment, scheduled, jobs)
    ensures var t := After(s, target, pending, moment, scheduled, jobs);
      && t.db.leads.Keys == s.db.leads.Keys == t.leadLogs.Keys
      && t.jobLogs.Keys == t.db.jobs.Keys
  {
    var t := After(s, target, pending, moment, scheduled, jobs);
    forall id: Id ensures id in t.leadLogs <==> id in s.db.leads {
      if i :| 0 <= i < |pending| && pending[i].id == id {
        LogFirstJobsWrites(s.leadLogs, pending, s.db.nextId, i);
      } else {
        LogFirstJobsKeeps(s.leadLogs, pending, s.db.nextId, id);
      }
    }
    forall j: Id ensures j in t.jobLogs <==> j in t.db.jobs {
      OldJobKept(s, target, pending, moment, scheduled, jobs, j);
    }
  }

  lemma {:induction false} StartedTables(
    s: Sys, target: Campaign, pending: seq<Lead>, moment: Time, scheduled: seq<Lead>, jobs: seq<SendJob>)
    requires Starts(s, target, pending, moment, scheduled, jobs)
    ensures TablesOk(After(s, target, pending, moment, scheduled, jobs))
  {
    var t := After(s, target, pending, moment, scheduled, jobs);
    StartedLeadKeys(s, target, pending, moment, scheduled, jobs);
    forall c | c in t.db.campaigns ensures CampaignRowOk(t.db.campaigns, t.db.nextId, c) {
      assert CampaignRowOk(s.db.campaigns, s.db.nextId, c);
    }
    forall o | o in t.db.outbounds ensures OutboundRowOk(t.db.outbounds, t.db.nextId, o) {
      assert OutboundRowOk(s.db.outbounds, s.db.nextId, o);
    }
    forall a, b | a in t.db.leads && b in t.db.leads ensures EmailPairOk(t.db.leads, a, b) {
      StartedLeadOk(s, target, pending, moment, scheduled, jobs, a);
      StartedLeadOk(s, target, pending, moment, scheduled, jobs, b);
      assert EmailPairOk(s.db.leads, a, b);
    }
    forall l, k | l in t.leadLogs && 0 <= k < |t.leadLogs[l].sends| ensures StampOk(t.leadLogs, t.db.outbounds, l, k) {
      StartedLeadOk(s, target, pending, moment, scheduled, jobs, l);
      assert StampOk(s.leadLogs, s.db.outbounds, l, k);
    }
    StartedLinks(s, target, pending, moment, scheduled, jobs);
  }

  lemma {:induction false} StartedLinks(
    s: Sys, target: Campaign, pending: seq<Lead>, moment: Time, scheduled: seq<Lead>, jobs: seq<SendJob>)
    requires Starts(s, target, pending, moment, scheduled, jobs)
    ensures var t := After(s, target, pending, moment, scheduled, jobs);
      LinksUnique(t.db.jobs) && LinksOk(t.db.jobs, t.db.outbounds)
  {
    var t := After(s, target, pending, moment, scheduled, jobs);
    forall j | j in t.db.jobs
      ensures j in s.db.jobs ==> t.db.jobs[j] == s.db.jobs[j]
      ensures j !in s.db.jobs ==> t.db.jobs[j].outbound.None?
      ensures LinkOk(t.db.jobs, t.db.outbounds, j)
    {
      StartedJobOk(s, target, pending, moment, scheduled, jobs, j);
      if j in s.db.jobs { assert LinkOk(s.db.jobs, s.db.outbounds, j); }
    }
  }

  lemma {:induction false} StartedKeeps(
    s: Sys, target: Campaign, pending: seq<Lead>, moment: Time, scheduled: seq<Lead>, jobs: seq<SendJob>)
    requires Starts(s, target, pending, moment, scheduled, jobs)
    ensures CampaignInv(After(s, target, pending, moment, scheduled, jobs))
  {
    var t := After(s, target, pending, moment, scheduled, jobs);
    StartedLeadKeys(s, target, pending, moment, scheduled, jobs);
    forall l | l in t.db.leads ensures LeadRowOk(t, l) {
      StartedLeadOk(s, target, pending, moment, scheduled, jobs, l);
    }
    forall j | j in t.db.jobs ensures JobRowOk(t, j) {
      StartedJobOk(s, target, pending, moment, scheduled, jobs, j);
    }
    StartedTables(s, target, pending, moment, scheduled, jobs);
  }

  function StartedDb(db: Db, target: Campaign, leads: map<Id, Lead>, jobs: seq<SendJob>): Db {
    db.(campaigns := db.campaigns[target.id := Started(target)],
        leads := leads,
        jobs := InsertJobs(db.jobs, jobs),
        nextId := db.nextId + |jobs|)
  }

  lemma {:induction false} StartCommand(
    db: Db, target: Campaign, pending: seq<Lead>, moment: Time, scheduled: seq<Lead>, jobs: seq<SendJob>)
    requires target.id in db.campaigns && db.campaigns[target.id] == target && target.status.Draft? && pending != []
    requires Started(target).Schedule(pending, moment, db.nextId) == Success((scheduled, jobs))
    requires UpdateLeads(db.leads, scheduled).Some?
    ensures Commands.StartCampaign(db, target.id, pending, moment) ==
      Success((StartedDb(db, target, UpdateLeads(db.leads, scheduled).value, jobs), |scheduled|))
  {
  }

  lemma {:induction false} StartedShape(
    s: Sys, target: Campaign, pending: seq<Lead>, moment: Time, leads: map<Id, Lead>, jobs: seq<SendJob>,
    scheduled: nat)
    requires Commands.StartCampaign(s.db, target.id, pending, moment) ==
      Success((StartedDb(s.db, target, leads, jobs), scheduled))
    requires scheduled != 0
    ensures ApplyStart(s, target.id, pending, moment) == StartedState(s, target, pending, moment, leads, jobs)
  {
  }

  /** Scheduling touches stored leads only. */
  lemma {:induction false} PendingAreStored(
    leads: map<Id, Lead>, campaign: Id, pending: seq<Lead>, scheduled: seq<Lead>)
    requires Commands.IsPendingList(leads, campaign, pending)
    requires |scheduled| == |pending| && forall i :: 0 <= i < |pending| ==> scheduled[i].id == pending[i].id
    ensures UpdateLeads(leads, scheduled).Some?
  {
    forall i | 0 <= i < |scheduled| ensures scheduled[i].id in leads {
      assert Commands.PendingRow(leads, campaign, pending[i]);
    }
  }

  /** A draft with leads starts, and each of them is paired with a job. */
  lemma {:induction false} StartShape(s: Sys, target: Campaign, pending: seq<Lead>, moment: Time)
    requires CampaignInv(s) && target.id in s.db.campaigns && s.db.campaigns[target.id] == target
    requires target.status.Draft? && target.WellFormed() && s.clock <= moment
    requires Commands.IsPendingList(s.db.leads, target.id, pending) && pending != []
    ensures Started(target).Schedule(pending, moment, s.db.nextId).Success?
    ensures var (scheduled, jobs) := Started(target).Schedule(pending, moment, s.db.nextId).value;
      && Starts(s, target, pending, moment, scheduled, jobs)
      && ApplyStart(s, target.id, pending, moment) == After(s, target, pending, moment, scheduled, jobs)
  {
    SchedulePairs(Started(target), pending, moment, s.db.nextId);
    var (scheduled, jobs) := Started(target).Schedule(pending, moment, s.db.nextId).value;
    PendingAreStored(s.db.leads, target.id, pending, scheduled);
    StartCommand(s.db, target, pending, moment, scheduled, jobs);
    StartedShape(s, target, pending, moment, UpdateLeads(s.db.leads, scheduled).value, jobs, |scheduled|);
  }

  lemma {:induction false} StartKeepsCampaign(s: Sys, campaign: Id, pending: seq<Lead>, moment: Time)
    requires CampaignInv(s) && s.clock <= moment && Commands.IsPendingList(s.db.leads, campaign, pending)
    ensures CampaignInv(ApplyStart(s, campaign, pending, moment))
  {
    if campaign in s.db.campaigns && s.db.campaigns[campaign].status.Draft? && pending != [] {
      assert CampaignRowOk(s.db.campaigns, s.db.nextId, campaign);
      var target := s.db.campaigns[campaign];
      StartShape(s, target, pending, moment);
      var (scheduled, jobs) := Started(target).Schedule(pending, moment, s.db.nextId).value;
      StartedKeeps(s, target, pending, moment, scheduled, jobs);
    } else {
      LaterClock(s, moment);
      assert LogJobs(s.jobLogs, s.db.jobs) == s.jobLogs;
    }
  }
}
