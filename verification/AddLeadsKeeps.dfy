/** Adding leads, to a draft or to an active campaign, keeps the invariant. */
module AddLeadsKeeps {
  import opened Base
  import opened CampaignDomain
  import opened CommandKeeps
  import opened Invariant
  import opened Machine
  import opened ProcessingKeeps
  import opened SendKeeps
  import opened Tables
  import Commands
  import Text

  /** `t` keeps every row of `s`; its new leads and jobs are sound by themselves. */
  ghost predicate Inserts(s: Sys, t: Sys) {
    && CampaignInv(s)
    && t.db == s.db.(leads := t.db.leads, jobs := t.db.jobs, nextId := t.db.nextId)
    && s.clock <= t.clock && s.db.nextId <= t.db.nextId
    && t.leadLogs.Keys == t.db.leads.Keys && t.jobLogs.Keys == t.db.jobs.Keys
    && (forall l :: l in s.db.leads ==>
         l in t.db.leads && t.db.leads[l] == s.db.leads[l] && t.leadLogs[l] == s.leadLogs[l])
    && (forall j :: j in s.db.jobs ==> j in t.db.jobs && t.db.jobs[j] == s.db.jobs[j] && t.jobLogs[j] == s.jobLogs[j])
    && (forall l :: l in t.db.leads && l !in s.db.leads ==> LeadRowOk(t, l) && t.leadLogs[l].sends == [])
    && (forall j :: j in t.db.jobs && j !in s.db.jobs ==> JobRowOk(t, j) && t.db.jobs[j].outbound.None?)
    && EmailsDistinct(t.db.leads)
  }

  lemma {:induction false} InsertionKeepsLead(s: Sys, t: Sys, l: Id)
    requires Inserts(s, t) && l in s.db.leads
    ensures LeadRowOk(t, l)
  {
    assert LeadRowOk(s, l);
    LeadLater(s, t.clock, l);
    forall k | 0 <= k < |t.leadLogs[l].jobs| ensures SlotOk(t, l, k) {
      assert SlotOk(s, l, k);
    }
  }

  lemma {:induction false} InsertionKeepsTables(s: Sys, t: Sys)
    requires Inserts(s, t)
    ensures TablesOk(t)
  {
    forall c | c in t.db.campaigns ensures CampaignRowOk(t.db.campaigns, t.db.nextId, c) {
      assert CampaignRowOk(s.db.campaigns, s.db.nextId, c);
    }
    forall o | o in t.db.outbounds ensures OutboundRowOk(t.db.outbounds, t.db.nextId, o) {
      assert OutboundRowOk(s.db.outbounds, s.db.nextId, o);
    }
    forall j | j in t.db.jobs ensures LinkOk(t.db.jobs, t.db.outbounds, j) {
      if j in s.db.jobs { assert LinkOk(s.db.jobs, s.db.outbounds, j); }
    }
    forall l, k | l in t.leadLogs && 0 <= k < |t.leadLogs[l].sends| ensures StampOk(t.leadLogs, t.db.outbounds, l, k) {
      assert l in s.db.leads;
      assert StampOk(s.leadLogs, s.db.outbounds, l, k);
    }
  }

  lemma {:induction false} InsertionKeeps(s: Sys, t: Sys)
    requires Inserts(s, t)
    ensures CampaignInv(t)
  {
    forall l | l in t.db.leads ensures LeadRowOk(t, l) {
      if l in s.db.leads { InsertionKeepsLead(s, t, l); }
    }
    forall j | j in t.db.jobs ensures JobRowOk(t, j) {
      if j in s.db.jobs { assert JobRowOk(s, j); }
    }
    InsertionKeepsTables(s, t);
  }

  // ---------- Leads that may be added ----------

  /** A pending lead with the next identifier but `i`, sound for its campaign. */
  ghost predicate AddableAt(s: Sys, campaign: Id, added: seq<Lead>, i: nat)
    requires campaign in s.db.campaigns && i < |added|
  {
    && added[i].id == s.db.nextId + i && added[i].campaign == campaign && added[i].state.Pending?
    && LeadOk(added[i], s.db.campaigns[campaign].(status := Draft), LeadLog([], []), s.clock)
  }

  /** No address is added twice, and none the campaign already has. */
  ghost predicate NewEmails(leads: map<Id, Lead>, campaign: Id, added: seq<Lead>) {
    && (forall i, j :: 0 <= i < j < |added| ==> added[i].email != added[j].email)
    && (forall i, l :: 0 <= i < |added| && l in leads && leads[l].campaign == campaign ==>
         added[i].email != leads[l].email)
  }

  ghost predicate Addable(s: Sys, campaign: Id, added: seq<Lead>) {
    && CampaignInv(s) && campaign in s.db.campaigns
    && (forall i {:trigger AddableAt(s, campaign, added, i)} :: 0 <= i < |added| ==> AddableAt(s, campaign, added, i))
    && NewEmails(s.db.leads, campaign, added)
  }

  lemma {:induction false} AddableIds(s: Sys, campaign: Id, added: seq<Lead>)
    requires Addable(s, campaign, added)
    ensures forall i :: 0 <= i < |added| ==>
      added[i].id == s.db.nextId + i && added[i].campaign == campaign && added[i].state.Pending?
    ensures DistinctLeads(added)
    ensures s.db.campaigns[campaign].id == campaign && s.db.campaigns[campaign].WellFormed()
    ensures forall l :: l in s.db.leads ==> l < s.db.nextId
  {
    assert CampaignRowOk(s.db.campaigns, s.db.nextId, campaign);
    forall i | 0 <= i < |added|
      ensures added[i].id == s.db.nextId + i && added[i].campaign == campaign && added[i].state.Pending?
    {
      assert AddableAt(s, campaign, added, i);
    }
    forall l | l in s.db.leads ensures l < s.db.nextId {
      assert LeadRowOk(s, l);
    }
  }

  /** Inserting rows with fresh consecutive identifiers and new addresses keeps addresses distinct. */
  lemma {:induction false} InsertedLeads(leads: map<Id, Lead>, campaign: Id, added: seq<Lead>, first: Id)
    requires EmailsDistinct(leads) && NewEmails(leads, campaign, added)
    requires forall i :: 0 <= i < |added| ==> added[i].id == first + i && added[i].campaign == campaign
    requires forall l :: l in leads ==> l < first
    ensures var after := InsertLeads(leads, added);
      && (forall l :: l in after <==> l in leads || first <= l < first + |added|)
      && (forall l :: l in leads ==> after[l] == leads[l])
      && (forall l :: first <= l < first + |added| ==> after[l] == added[l - first])
      && EmailsDistinct(after)
  {
    var after := InsertLeads(leads, added);
    forall l: Id
      ensures l in after <==> l in leads || first <= l < first + |added|
      ensures l in leads ==> after[l] == leads[l]
      ensures first <= l < first + |added| ==> after[l] == added[l - first]
    {
      InsertLeadsAt(leads, added, first, l);
    }
    forall a, b | a in after && b in after ensures EmailPairOk(after, a, b) {
      if a < first && b < first { assert EmailPairOk(leads, a, b); }
      if first <= a { assert after[a] == added[a - first]; }
      if first <= b { assert after[b] == added[b - first]; }
    }
  }

  // ---------- A draft campaign ----------

  function DraftState(s: Sys, added: seq<Lead>, moment: Time): Sys {
    s.(db := s.db.(leads := InsertLeads(s.db.leads, added), nextId := s.db.nextId + |added|),
       clock := moment,
       leadLogs := LogLeads(s.leadLogs, added),
       jobLogs := LogJobs(s.jobLogs, s.db.jobs))
  }

  lemma {:induction false} DraftNewLead(s: Sys, campaign: Id, added: seq<Lead>, moment: Time, l: Id)
    requires Addable(s, campaign, added) && s.db.campaigns[campaign].status.Draft? && s.clock <= moment
    requires s.db.nextId <= l < s.db.nextId + |added|
    ensures var t := DraftState(s, added, moment); LeadRowOk(t, l) && t.leadLogs[l].sends == []
  {
    AddableIds(s, campaign, added);
    InsertLeadsAt(s.db.leads, added, s.db.nextId, l);
    LogLeadsAt(s.leadLogs, added, s.db.nextId, l);
    assert AddableAt(s, campaign, added, l - s.db.nextId);
    var target := s.db.campaigns[campaign];
    assert target.(status := Draft) == target;
    var after := InsertLeads(s.db.leads, added);
    assert l in after;
    assert after[l] == added[l - s.db.nextId];
    assert DraftState(s, added, moment).db.leads == after;
    LaterEmptyLog(added[l - s.db.nextId], target, s.clock, moment);
  }

  lemma {:induction false} LaterEmptyLog(lead: Lead, campaign: Campaign, clock: Time, later: Time)
    requires LeadOk(lead, campaign, LeadLog([], []), clock)
    ensures LeadOk(lead, campaign, LeadLog([], []), later)
  {
  }

  lemma {:induction false} DraftInserts(s: Sys, campaign: Id, added: seq<Lead>, moment: Time)
    requires Addable(s, campaign, added) && s.clock <= moment
    requires s.db.campaigns[campaign].status.Draft? || added == []
    ensures Inserts(s, DraftState(s, added, moment))
  {
    var t, first := DraftState(s, added, moment), s.db.nextId;
    AddableIds(s, campaign, added);
    InsertedLeads(s.db.leads, campaign, added, first);
    forall l: Id
      ensures l in t.leadLogs <==> l in s.leadLogs || first <= l < first + |added|
      ensures l in s.leadLogs ==> t.leadLogs[l] == s.leadLogs[l]
    {
      LogLeadsAt(s.leadLogs, added, first, l);
    }
    forall l | l in t.db.leads && l !in s.db.leads ensures LeadRowOk(t, l) && t.leadLogs[l].sends == [] {
      DraftNewLead(s, campaign, added, moment, l);
    }
  }

  // ---------- An active campaign ----------

  function FirstJob(target: Campaign, lead: Lead, j: Id, moment: Time): SendJob
    requires target.steps != []
  {
    target.JobFor(lead, target.steps[0], moment, j)
  }

  /** `target` is a stored, active campaign. */
  ghost predicate IsRunning(s: Sys, target: Campaign) {
    target.id in s.db.campaigns && s.db.campaigns[target.id] == target && target.IsActive() && target.steps != []
  }

  /** `scheduled` and `jobs` hold each lead's scheduled form and its first job. */
  ghost predicate Pairs(
    target: Campaign, added: seq<Lead>, base: Id, moment: Time, scheduled: seq<Lead>, jobs: seq<SendJob>)
    requires target.steps != []
  {
    && |scheduled| == |added| == |jobs|
    && (forall i :: 0 <= i < |added| ==> scheduled[i] == added[i].Moved(LeadState.Scheduled, moment))
    && (forall i :: 0 <= i < |added| ==> jobs[i] == FirstJob(target, added[i], base + i, moment))
  }

  /** Writing the progress of stored rows is inserting them over themselves. */
  lemma {:induction false} UpdateIsInsert(table: map<Id, Lead>, leads: seq<Lead>)
    requires ProgressOnly(table, leads) && DistinctLeads(leads)
    ensures UpdateLeads(table, leads) == Some(InsertLeads(table, leads))
  {
    if leads != [] {
      var last := |leads| - 1;
      UpdateIsInsert(table, leads[..last]);
      UpdateLeadsKeeps(table, leads[..last], leads[last].id);
    }
  }

  /** Inserting pending rows and then writing their progress is inserting the scheduled rows. */
  lemma {:induction false} UpdateAfterInsert(
    leads: map<Id, Lead>, added: seq<Lead>, scheduled: seq<Lead>, first: Id, moment: Time)
    requires |scheduled| == |added|
    requires forall i :: 0 <= i < |added| ==> added[i].id == first + i
    requires forall i :: 0 <= i < |added| ==> scheduled[i] == added[i].Moved(LeadState.Scheduled, moment)
    ensures UpdateLeads(InsertLeads(leads, added), scheduled) == Some(InsertLeads(leads, scheduled))
  {
    var table := InsertLeads(leads, added);
    InsertedProgress(leads, added, scheduled, first, moment);
    UpdateIsInsert(table, scheduled);
    var left, right := InsertLeads(table, scheduled), InsertLeads(leads, scheduled);
    forall id: Id ensures (id in left <==> id in right) && (id in left ==> left[id] == right[id]) {
      InsertTwice(leads, added, scheduled, first, id);
    }
    assert left == right;
  }

  lemma {:induction false} InsertedProgress(
    leads: map<Id, Lead>, added: seq<Lead>, scheduled: seq<Lead>, first: Id, moment: Time)
    requires |scheduled| == |added|
    requires forall i :: 0 <= i < |added| ==> added[i].id == first + i
    requires forall i :: 0 <= i < |added| ==> scheduled[i] == added[i].Moved(LeadState.Scheduled, moment)
    ensures ProgressOnly(InsertLeads(leads, added), scheduled) && DistinctLeads(scheduled)
  {
    var table := InsertLeads(leads, added);
    forall i | 0 <= i < |scheduled|
      ensures scheduled[i].id in table && WithProgressOf(table[scheduled[i].id], scheduled[i]) == scheduled[i]
    {
      InsertLeadsAt(leads, added, first, first + i);
    }
  }

  lemma {:induction false} InsertTwice(leads: map<Id, Lead>, added: seq<Lead>, scheduled: seq<Lead>, first: Id, id: Id)
    requires |scheduled| == |added|
    requires forall i :: 0 <= i < |added| ==> added[i].id == scheduled[i].id == first + i
    ensures var left, right := InsertLeads(InsertLeads(leads, added), scheduled), InsertLeads(leads, scheduled);
      (id in left <==> id in right) && (id in left ==> left[id] == right[id])
  {
    InsertLeadsAt(leads, added, first, id);
    InsertLeadsAt(InsertLeads(leads, added), scheduled, first, id);
    InsertLeadsAt(leads, scheduled, first, id);
  }

  // ---------- The leads the command adds ----------

  /** What `AddLeads` inserts may be added. */
  lemma {:induction false} LeadsToAddAreAddable(s: Sys, campaign: Id, emails: seq<string>, moment: Time)
    requires CampaignInv(s) && campaign in s.db.campaigns
    ensures Addable(s, campaign, Commands.LeadsToAdd(s.db, s.db.campaigns[campaign], emails, moment))
  {
    assert CampaignRowOk(s.db.campaigns, s.db.nextId, campaign);
    var added := Commands.LeadsToAdd(s.db, s.db.campaigns[campaign], emails, moment);
    var taken := Commands.CampaignEmails(s.db.leads, campaign);
    var accepted := AcceptedEmails(emails, NormalForms(taken));
    AcceptedEmailsAreNewAndDistinct(emails, NormalForms(taken));
    forall i | 0 <= i < |added|
      ensures AddableAt(s, campaign, added, i)
      ensures added[i].email == accepted[i] && accepted[i] !in NormalForms(taken)
    {
      NewLeadsAt(s.db.campaigns[campaign].workspace, campaign, accepted, s.db.nextId, moment, i);
      assert accepted[i] in accepted;
      var raw :| raw in emails && accepted[i] == Text.NormalizeEmail(raw);
      Text.NormalizeEmailIsIdempotent(raw);
      NewLeadOk(added[i], s.db.campaigns[campaign], s.clock, accepted[i], s.db.nextId + i, moment);
    }
    assert forall i, j :: 0 <= i < j < |added| ==> accepted[i] != accepted[j];
    forall l | l in s.db.leads && s.db.leads[l].campaign == campaign ensures s.db.leads[l].email in NormalForms(taken) {
      assert LeadRowOk(s, l);
      assert s.db.leads[l].email in taken;
      assert s.db.leads[l].email == Text.NormalizeEmail(s.db.leads[l].email);
    }
  }

  lemma {:induction false} DraftShape(s: Sys, campaign: Id, added: seq<Lead>, given: nat, moment: Time)
    requires campaign in s.db.campaigns && (!s.db.campaigns[campaign].IsActive() || added == [])
    ensures ApplyAddedRows(s, campaign, added, given, moment) == DraftState(s, added, moment)
  {
  }

  function ActiveDb(db: Db, added: seq<Lead>, leads: map<Id, Lead>, jobs: seq<SendJob>): Db {
    db.(leads := leads, jobs := InsertJobs(db.jobs, jobs), nextId := db.nextId + |added| + |jobs|)
  }

  /** The state after leads have been added to an active campaign. */
  function ActiveState(s: Sys, added: seq<Lead>, scheduled: seq<Lead>, jobs: seq<SendJob>, moment: Time): Sys {
    s.(db := ActiveDb(s.db, added, InsertLeads(s.db.leads, scheduled), jobs),
       clock := moment,
       leadLogs := LogFirstJobs(s.leadLogs, added, s.db.nextId + |added|),
       jobLogs := LogJobs(s.jobLogs, InsertJobs(s.db.jobs, jobs)))
  }

  lemma {:induction false} ScheduledRows(inserted: Db, added: nat, given: nat, scheduled: seq<Lead>, jobs: seq<SendJob>)
    requires UpdateLeads(inserted.leads, scheduled).Some?
    ensures Commands.ScheduleAdded(inserted, added, given, Success((scheduled, jobs))) ==
      Success((inserted.(leads := UpdateLeads(inserted.leads, scheduled).value, jobs := InsertJobs(inserted.jobs, jobs),
                         nextId := inserted.nextId + |jobs|),
               Commands.AddLeadsResult(added, given - added, |scheduled|)))
  {
  }

  lemma {:induction false} ActiveSchedules(
    db: Db, campaign: Id, added: seq<Lead>, given: nat, moment: Time,
    pairs: Result<(seq<Lead>, seq<SendJob>), DomainError>, inserted: Db)
    requires campaign in db.campaigns && db.campaigns[campaign].IsActive() && added != []
    requires inserted == db.(leads := InsertLeads(db.leads, added), nextId := db.nextId + |added|)
    requires db.campaigns[campaign].Schedule(added, moment, inserted.nextId) == pairs
    ensures Commands.AddLeadRows(db, campaign, added, given, moment) ==
      Commands.ScheduleAdded(inserted, |added|, given, pairs)
  {
  }

  lemma {:induction false} ActiveRows(
    db: Db, campaign: Id, added: seq<Lead>, given: nat, moment: Time,
    scheduled: seq<Lead>, jobs: seq<SendJob>, leads: map<Id, Lead>)
    requires campaign in db.campaigns && db.campaigns[campaign].IsActive() && added != []
    requires db.campaigns[campaign].Schedule(added, moment, db.nextId + |added|) == Success((scheduled, jobs))
    requires UpdateLeads(InsertLeads(db.leads, added), scheduled) == Some(leads)
    ensures Commands.AddLeadRows(db, campaign, added, given, moment)
      == Success((ActiveDb(db, added, leads, jobs), Commands.AddLeadsResult(|added|, given - |added|, |scheduled|)))
  {
    var inserted := db.(leads := InsertLeads(db.leads, added), nextId := db.nextId + |added|);
    ActiveSchedules(db, campaign, added, given, moment, Success((scheduled, jobs)), inserted);
    ScheduledRows(inserted, |added|, given, scheduled, jobs);
  }

  lemma {:induction false} ActiveShape(
    s: Sys, campaign: Id, added: seq<Lead>, given: nat, moment: Time, scheduled: seq<Lead>, jobs: seq<SendJob>)
    requires campaign in s.db.campaigns && scheduled != []
    requires Commands.AddLeadRows(s.db, campaign, added, given, moment) ==
      Success((ActiveDb(s.db, added, InsertLeads(s.db.leads, scheduled), jobs),
               Commands.AddLeadsResult(|added|, given - |added|, |scheduled|)))
    ensures ApplyAddedRows(s, campaign, added, given, moment) == ActiveState(s, added, scheduled, jobs, moment)
  {
  }

  /** Scheduling pairs each lead with its first job. */
  lemma {:induction false} SchedulePairs(target: Campaign, added: seq<Lead>, moment: Time, base: Id)
    requires target.IsActive() && target.steps != []
    requires forall i :: 0 <= i < |added| ==> added[i].campaign == target.id && added[i].state.Pending?
    ensures target.Schedule(added, moment, base).Success?
    ensures var (scheduled, jobs) := target.Schedule(added, moment, base).value;
      Pairs(target, added, base, moment, scheduled, jobs)
  {
    ScheduleMembersShape(target, added, moment, base);
  }

  /** What the new state of an active campaign is made of. */
  ghost predicate Activates(
    s: Sys, target: Campaign, added: seq<Lead>, moment: Time, scheduled: seq<Lead>, jobs: seq<SendJob>)
  {
    && Addable(s, target.id, added) && IsRunning(s, target) && s.clock <= moment
    && Pairs(target, added, s.db.nextId + |added|, moment, scheduled, jobs)
  }

  /** The command leaves an active campaign in the state its scheduled leads and first jobs make. */
  lemma {:induction false} ActiveIsActiveState(s: Sys, target: Campaign, added: seq<Lead>, given: nat, moment: Time)
    returns (scheduled: seq<Lead>, jobs: seq<SendJob>)
    requires Addable(s, target.id, added) && IsRunning(s, target) && s.clock <= moment && added != []
    ensures Activates(s, target, added, moment, scheduled, jobs)
    ensures ApplyAddedRows(s, target.id, added, given, moment) == ActiveState(s, added, scheduled, jobs, moment)
  {
    var base := s.db.nextId + |added|;
    AddableIds(s, target.id, added);
    SchedulePairs(target, added, moment, base);
    var pairs := target.Schedule(added, moment, base).value;
    scheduled, jobs := pairs.0, pairs.1;
    UpdateAfterInsert(s.db.leads, added, scheduled, s.db.nextId, moment);
    ActiveRows(s.db, target.id, added, given, moment, scheduled, jobs, InsertLeads(s.db.leads, scheduled));
    ActiveShape(s, target.id, added, given, moment, scheduled, jobs);
  }

  /** Fresh consecutive identifiers, for the leads and then for their jobs. */
  ghost predicate FreshIds(s: Sys, added: seq<Lead>) {
    && (forall i :: 0 <= i < |added| ==> added[i].id == s.db.nextId + i)
    && (forall j :: j in s.db.jobs ==> j < s.db.nextId)
    && s.jobLogs.Keys == s.db.jobs.Keys
  }

  lemma {:induction false} ActivatedIds(
    s: Sys, target: Campaign, added: seq<Lead>, moment: Time, scheduled: seq<Lead>, jobs: seq<SendJob>)
    requires Activates(s, target, added, moment, scheduled, jobs)
    ensures FreshIds(s, added)
  {
    AddableIds(s, target.id, added);
    JobIdsAreOld(s);
  }

  /** Where the `i`-th lead and its log are found. */
  lemma {:induction false} ActiveLeadLookup(
    s: Sys, target: Campaign, added: seq<Lead>, moment: Time, scheduled: seq<Lead>, jobs: seq<SendJob>, i: nat)
    requires FreshIds(s, added) && i < |added| && target.steps != []
    requires Pairs(target, added, s.db.nextId + |added|, moment, scheduled, jobs)
    ensures var t, l := ActiveState(s, added, scheduled, jobs, moment), s.db.nextId + i;
      && added[i].id == l
      && l in t.db.leads && t.db.leads[l] == scheduled[i]
      && l in t.leadLogs && t.leadLogs[l] == LeadLog([s.db.nextId + |added| + i], [])
  {
    InsertLeadsAt(s.db.leads, scheduled, s.db.nextId, s.db.nextId + i);
    LogFirstJobsWrites(s.leadLogs, added, s.db.nextId + |added|, i);
  }

  /** Where its job is found. */
  lemma {:induction false} ActiveJobLookup(
    s: Sys, target: Campaign, added: seq<Lead>, moment: Time, scheduled: seq<Lead>, jobs: seq<SendJob>, i: nat)
    requires FreshIds(s, added) && i < |added| && target.steps != []
    requires Pairs(target, added, s.db.nextId + |added|, moment, scheduled, jobs)
    ensures var t, j := ActiveState(s, added, scheduled, jobs, moment), s.db.nextId + |added| + i;
      && j in t.db.jobs && t.db.jobs[j] == jobs[i]
      && j in t.jobLogs && t.jobLogs[j] == JobLog(jobs[i].scheduledAt, [])
  {
    InsertJobsAt(s.db.jobs, jobs, s.db.nextId + |added|, s.db.nextId + |added| + i);
  }

  lemma {:induction false} ActivePairOk(
    s: Sys, target: Campaign, added: seq<Lead>, moment: Time, scheduled: seq<Lead>, jobs: seq<SendJob>, i: nat)
    requires Activates(s, target, added, moment, scheduled, jobs) && i < |added|
    ensures var t, l, j := ActiveState(s, added, scheduled, jobs, moment), s.db.nextId + i, s.db.nextId + |added| + i;
      && LeadRowOk(t, l) && t.leadLogs[l].sends == []
      && JobRowOk(t, j) && t.db.jobs[j].outbound.None?
  {
    var t, l, j := ActiveState(s, added, scheduled, jobs, moment), s.db.nextId + i, s.db.nextId + |added| + i;
    assert CampaignRowOk(s.db.campaigns, s.db.nextId, target.id);
    assert AddableAt(s, target.id, added, i);
    ActivatedIds(s, target, added, moment, scheduled, jobs);
    ActiveLeadLookup(s, target, added, moment, scheduled, jobs, i);
    ActiveJobLookup(s, target, added, moment, scheduled, jobs, i);
    FirstJobOk(added[i], target, LeadLog([], []), s.clock, moment, j);
  }

  /** Rows that were there stay as they were. */
  lemma {:induction false} ActiveKeepsOldRows(
    s: Sys, target: Campaign, added: seq<Lead>, moment: Time, scheduled: seq<Lead>, jobs: seq<SendJob>, id: Id)
    requires Activates(s, target, added, moment, scheduled, jobs)
    ensures var t, first := ActiveState(s, added, scheduled, jobs, moment), s.db.nextId;
      && (id in t.db.leads <==> id in s.db.leads || first <= id < first + |added|)
      && (id in t.leadLogs <==> id in t.db.leads)
      && (id in s.db.leads ==> t.db.leads[id] == s.db.leads[id] && t.leadLogs[id] == s.leadLogs[id])
      && (id in t.db.jobs <==> id in s.db.jobs || first + |added| <= id < first + 2 * |added|)
      && (id in t.jobLogs <==> id in t.db.jobs)
      && (id in s.db.jobs ==> t.db.jobs[id] == s.db.jobs[id] && t.jobLogs[id] == s.jobLogs[id])
  {
    AddableIds(s, target.id, added);
    JobIdsAreOld(s);
    InsertLeadsAt(s.db.leads, scheduled, s.db.nextId, id);
    InsertJobsAt(s.db.jobs, jobs, s.db.nextId + |added|, id);
    if s.db.nextId <= id < s.db.nextId + |added| {
      LogFirstJobsWrites(s.leadLogs, added, s.db.nextId + |added|, id - s.db.nextId);
    } else {
      LogFirstJobsKeeps(s.leadLogs, added, s.db.nextId + |added|, id);
    }
  }

  lemma {:induction false} ActiveEmails(
    s: Sys, target: Campaign, added: seq<Lead>, moment: Time, scheduled: seq<Lead>, jobs: seq<SendJob>)
    requires Activates(s, target, added, moment, scheduled, jobs)
    ensures EmailsDistinct(ActiveState(s, added, scheduled, jobs, moment).db.leads)
  {
    AddableIds(s, target.id, added);
    InsertedLeads(s.db.leads, target.id, scheduled, s.db.nextId);
  }

  lemma {:induction false} ActiveNewRow(
    s: Sys, target: Campaign, added: seq<Lead>, moment: Time, scheduled: seq<Lead>, jobs: seq<SendJob>, id: Id)
    requires Activates(s, target, added, moment, scheduled, jobs)
    ensures var t := ActiveState(s, added, scheduled, jobs, moment);
      && (id in t.db.leads && id !in s.db.leads ==> LeadRowOk(t, id) && t.leadLogs[id].sends == [])
      && (id in t.db.jobs && id !in s.db.jobs ==> JobRowOk(t, id) && t.db.jobs[id].outbound.None?)
  {
    var first := s.db.nextId;
    ActiveKeepsOldRows(s, target, added, moment, scheduled, jobs, id);
    if first <= id < first + |added| {
      ActivePairOk(s, target, added, moment, scheduled, jobs, id - first);
    } else if first + |added| <= id < first + 2 * |added| {
      ActivePairOk(s, target, added, moment, scheduled, jobs, id - first - |added|);
    }
    AddableIds(s, target.id, added);
    JobIdsAreOld(s);
  }

  lemma {:induction false} ActiveOldRows(
    s: Sys, target: Campaign, added: seq<Lead>, moment: Time, scheduled: seq<Lead>, jobs: seq<SendJob>)
    requires Activates(s, target, added, moment, scheduled, jobs)
    ensures var t := ActiveState(s, added, scheduled, jobs, moment);
      && t.leadLogs.Keys == t.db.leads.Keys && t.jobLogs.Keys == t.db.jobs.Keys
      && (forall l :: l in s.db.leads ==>
            l in t.db.leads && t.db.leads[l] == s.db.leads[l] && t.leadLogs[l] == s.leadLogs[l])
      && (forall j :: j in s.db.jobs ==>
            j in t.db.jobs && t.db.jobs[j] == s.db.jobs[j] && t.jobLogs[j] == s.jobLogs[j])
  {
    var t := ActiveState(s, added, scheduled, jobs, moment);
    forall id: Id
      ensures id in t.leadLogs <==> id in t.db.leads
      ensures id in t.jobLogs <==> id in t.db.jobs
      ensures id in s.db.leads ==>
        id in t.db.leads && t.db.leads[id] == s.db.leads[id] && t.leadLogs[id] == s.leadLogs[id]
      ensures id in s.db.jobs ==> id in t.db.jobs && t.db.jobs[id] == s.db.jobs[id] && t.jobLogs[id] == s.jobLogs[id]
    {
      ActiveKeepsOldRows(s, target, added, moment, scheduled, jobs, id);
    }
  }

  lemma {:induction false} ActiveStateInserts(
    s: Sys, target: Campaign, added: seq<Lead>, moment: Time, scheduled: seq<Lead>, jobs: seq<SendJob>)
    requires Activates(s, target, added, moment, scheduled, jobs)
    ensures Inserts(s, ActiveState(s, added, scheduled, jobs, moment))
  {
    var t := ActiveState(s, added, scheduled, jobs, moment);
    ActiveOldRows(s, target, added, moment, scheduled, jobs);
    forall id: Id
      ensures id in t.db.leads && id !in s.db.leads ==> LeadRowOk(t, id) && t.leadLogs[id].sends == []
      ensures id in t.db.jobs && id !in s.db.jobs ==> JobRowOk(t, id) && t.db.jobs[id].outbound.None?
    {
      ActiveNewRow(s, target, added, moment, scheduled, jobs, id);
    }
    ActiveEmails(s, target, added, moment, scheduled, jobs);
  }

  lemma {:induction false} ActiveInserts(s: Sys, target: Campaign, added: seq<Lead>, given: nat, moment: Time)
    requires Addable(s, target.id, added) && IsRunning(s, target) && s.clock <= moment && added != []
    ensures Inserts(s, ApplyAddedRows(s, target.id, added, given, moment))
  {
    var scheduled, jobs := ActiveIsActiveState(s, target, added, given, moment);
    ActiveStateInserts(s, target, added, moment, scheduled, jobs);
  }

  lemma {:induction false} AddedRowsInsert(s: Sys, campaign: Id, added: seq<Lead>, given: nat, moment: Time)
    requires Addable(s, campaign, added) && s.clock <= moment
    ensures Inserts(s, ApplyAddedRows(s, campaign, added, given, moment))
  {
    assert CampaignRowOk(s.db.campaigns, s.db.nextId, campaign);
    if s.db.campaigns[campaign].status.Draft? || added == [] {
      DraftShape(s, campaign, added, given, moment);
      DraftInserts(s, campaign, added, moment);
    } else {
      ActiveInserts(s, s.db.campaigns[campaign], added, given, moment);
    }
  }

  /** Adding leads keeps every row, and its new rows are sound: leads without sends, jobs without links. */
  lemma {:induction false} AddLeadsInserts(s: Sys, campaign: Id, emails: seq<string>, moment: Time)
    requires CampaignInv(s) && s.clock <= moment
    ensures Inserts(s, ApplyAddLeads(s, campaign, emails, moment))
  {
    if campaign in s.db.campaigns {
      LeadsToAddAreAddable(s, campaign, emails, moment);
      var added := Commands.LeadsToAdd(s.db, s.db.campaigns[campaign], emails, moment);
      AddedRowsInsert(s, campaign, added, |emails|, moment);
    }
  }

  lemma {:induction false} AddLeadsKeepsCampaign(s: Sys, campaign: Id, emails: seq<string>, moment: Time)
    requires CampaignInv(s) && s.clock <= moment
    ensures CampaignInv(ApplyAddLeads(s, campaign, emails, moment))
  {
    AddLeadsInserts(s, campaign, emails, moment);
    InsertionKeeps(s, ApplyAddLeads(s, campaign, emails, moment));
  }
}
