/** What the operator gets from adding leads and from starting a campaign. */
module CommandTheorems {
  import opened AddLeadsKeeps
  import opened Base
  import opened CampaignDomain
  import opened Invariant
  import opened Machine
  import opened StartKeeps
  import opened Tables
  import Commands
  import Text

  /**
   Creating a campaign is refused exactly without steps or with a negative delay. Otherwise a draft is stored with the
   steps as they were given, under the next identifiers, and nothing else is written.
   */
  lemma {:induction false} CreatedCampaignIsRight(
    db: Db, workspace: Id, mailbox: Id, name: string, drafts: seq<StepDraft>, moment: Time)
    ensures var (n, r) := (db.nextId, Commands.CreateCampaign(db, workspace, mailbox, name, drafts, moment));
      && (drafts == [] ==> r == Result.Failure(CampaignHasNoSteps))
      && (drafts != [] && (exists d :: d in drafts && d.delaySeconds < 0) ==> r == Result.Failure(NegativeStepDelay))
      && (drafts != [] && (forall d :: d in drafts ==> 0 <= d.delaySeconds) ==>
            var steps := seq(|drafts|, i requires 0 <= i < |drafts| =>
              Step(n + 1 + i, i + 1, drafts[i].subject, drafts[i].body, drafts[i].delaySeconds));
            r == Result.Success(db.(
              campaigns := db.campaigns[n := Campaign(n, workspace, mailbox, name, Draft, steps, moment)],
              nextId := n + 1 + |drafts|)))
  {
    if drafts != [] && forall d :: d in drafts ==> 0 <= d.delaySeconds {
      var steps := seq(|drafts|, i requires 0 <= i < |drafts| =>
        Step(db.nextId + 1 + i, i + 1, drafts[i].subject, drafts[i].body, drafts[i].delaySeconds));
      assert NewCampaign(db.nextId, workspace, mailbox, name, drafts, moment).value.steps == steps;
    }
  }

  /** The addresses a list stands for: its non-empty normal forms. */
  function Addresses(emails: seq<string>): set<string> {
    set i | 0 <= i < |emails| && Text.NormalizeEmail(emails[i]) != "" :: Text.NormalizeEmail(emails[i])
  }

  function EmailsOf(leads: seq<Lead>): set<string> {
    set i | 0 <= i < |leads| :: leads[i].email
  }

  /** The rows a command adds; with their campaign's scheduled form or not, their addresses are the same. */
  lemma {:induction false} EmailsOfInserted(leads: map<Id, Lead>, campaign: Id, added: seq<Lead>, first: Id)
    requires forall i :: 0 <= i < |added| ==> added[i].id == first + i && added[i].campaign == campaign
    requires forall l :: l in leads ==> l < first
    ensures Commands.CampaignEmails(InsertLeads(leads, added), campaign) ==
      Commands.CampaignEmails(leads, campaign) + EmailsOf(added)
  {
    var after := InsertLeads(leads, added);
    forall l: Id
      ensures l in leads ==> l in after && after[l] == leads[l]
      ensures l in after ==> l in leads || (first <= l < first + |added| && after[l] == added[l - first])
    {
      InsertLeadsAt(leads, added, first, l);
    }
    forall i | 0 <= i < |added| ensures added[i].email in Commands.CampaignEmails(after, campaign) {
      InsertLeadsAt(leads, added, first, first + i);
      assert after[first + i] == added[i];
    }
  }

  lemma {:induction false} EmailsOfNewLeads(
    workspace: Id, campaign: Id, accepted: seq<string>, firstId: Id, moment: Time)
    requires forall e :: e in accepted ==> Text.NormalizeEmail(e) == e
    ensures EmailsOf(NewLeads(workspace, campaign, accepted, firstId, moment)) == Elements(accepted)
  {
    var added := NewLeads(workspace, campaign, accepted, firstId, moment);
    forall i | 0 <= i < |added| ensures added[i].email == accepted[i] {
      NewLeadsAt(workspace, campaign, accepted, firstId, moment, i);
      assert accepted[i] in accepted;
    }
    forall e | e in accepted ensures e in EmailsOf(added) {
      var i :| 0 <= i < |accepted| && accepted[i] == e;
      assert added[i].email == e;
    }
  }

  lemma {:induction false} AcceptedAreTheNewAddresses(emails: seq<string>, taken: set<string>)
    ensures Elements(AcceptedEmails(emails, taken)) == Addresses(emails) - taken
    ensures forall e :: e in AcceptedEmails(emails, taken) ==> Text.NormalizeEmail(e) == e
  {
    var accepted := AcceptedEmails(emails, taken);
    AcceptedEmailsAreNewAndDistinct(emails, taken);
    forall e | e in accepted ensures e in Addresses(emails) && Text.NormalizeEmail(e) == e {
      var raw :| raw in emails && e == Text.NormalizeEmail(raw);
      var k :| 0 <= k < |emails| && emails[k] == raw;
      Text.NormalizeEmailIsIdempotent(raw);
    }
    forall e | e in Addresses(emails) && e !in taken ensures e in accepted {
      var k :| 0 <= k < |emails| && Text.NormalizeEmail(emails[k]) == e;
      assert emails[k] in emails;
    }
  }

  lemma {:induction false} AddedEmails(s: Sys, target: Campaign, emails: seq<string>, moment: Time)
    requires CampaignInv(s) && target.id in s.db.campaigns && s.db.campaigns[target.id] == target
    ensures var taken := Commands.CampaignEmails(s.db.leads, target.id);
      taken + EmailsOf(Commands.LeadsToAdd(s.db, target, emails, moment)) == taken + Addresses(emails)
  {
    var taken := Commands.CampaignEmails(s.db.leads, target.id);
    NormalFormsAreTaken(s, target.id);
    AcceptedAreTheNewAddresses(emails, taken);
    EmailsOfNewLeads(target.workspace, target.id, AcceptedEmails(emails, taken), s.db.nextId, moment);
  }

  /** Addresses already in a campaign are their own normal forms. */
  lemma {:induction false} NormalFormsAreTaken(s: Sys, campaign: Id)
    requires CampaignInv(s)
    ensures NormalForms(Commands.CampaignEmails(s.db.leads, campaign)) == Commands.CampaignEmails(s.db.leads, campaign)
  {
    forall l | l in s.db.leads && s.db.leads[l].campaign == campaign
      ensures Text.NormalizeEmail(s.db.leads[l].email) == s.db.leads[l].email
    {
      assert LeadRowOk(s, l);
    }
  }

  /**
   Adding leads to a stored campaign never fails. Added and skipped make up the list given, an active campaign
   schedules what it adds, and afterwards the campaign has the addresses it had and those on the list.
   */
  lemma {:induction false} AddLeadsResultIsRight(s: Sys, campaign: Id, emails: seq<string>, moment: Time)
    requires Inv(s) && campaign in s.db.campaigns && s.clock <= moment
    ensures var r := Commands.AddLeads(s.db, campaign, emails, moment);
      && r.Success?
      && var (after, result) := r.value;
        && result.added + result.skipped == |emails| && 0 <= result.skipped
        && result.scheduled == (if s.db.campaigns[campaign].IsActive() then result.added else 0)
        && |after.leads| == |s.db.leads| + result.added
        && Commands.CampaignEmails(after.leads, campaign) ==
             Commands.CampaignEmails(s.db.leads, campaign) + Addresses(emails)
  {
    assert CampaignRowOk(s.db.campaigns, s.db.nextId, campaign);
    var target := s.db.campaigns[campaign];
    var added := Commands.LeadsToAdd(s.db, target, emails, moment);
    LeadsToAddAreAddable(s, campaign, emails, moment);
    AddableIds(s, campaign, added);
    AcceptedEmailsAreNewAndDistinct(emails, NormalForms(Commands.CampaignEmails(s.db.leads, campaign)));
    AddedEmails(s, target, emails, moment);
    if target.IsActive() && added != [] {
      ActiveAddition(s, target, added, |emails|, moment);
    } else {
      EmailsOfInserted(s.db.leads, campaign, added, s.db.nextId);
      InsertedCount(s.db.leads, added, s.db.nextId);
    }
  }

  lemma {:induction false} ActiveAddition(s: Sys, target: Campaign, added: seq<Lead>, given: nat, moment: Time)
    requires Addable(s, target.id, added) && IsRunning(s, target) && s.clock <= moment && added != []
    ensures var r := Commands.AddLeadRows(s.db, target.id, added, given, moment);
      && r.Success?
      && r.value.1 == Commands.AddLeadsResult(|added|, given - |added|, |added|)
      && |r.value.0.leads| == |s.db.leads| + |added|
      && Commands.CampaignEmails(r.value.0.leads, target.id) ==
           Commands.CampaignEmails(s.db.leads, target.id) + EmailsOf(added)
  {
    AddableIds(s, target.id, added);
    SchedulePairs(target, added, moment, s.db.nextId + |added|);
    var (scheduled, jobs) := target.Schedule(added, moment, s.db.nextId + |added|).value;
    UpdateAfterInsert(s.db.leads, added, scheduled, s.db.nextId, moment);
    ActiveRows(s.db, target.id, added, given, moment, scheduled, jobs, InsertLeads(s.db.leads, scheduled));
    EmailsOfInserted(s.db.leads, target.id, scheduled, s.db.nextId);
    InsertedCount(s.db.leads, scheduled, s.db.nextId);
    SameEmails(added, scheduled);
  }

  lemma {:induction false} SameEmails(a: seq<Lead>, b: seq<Lead>)
    requires |a| == |b| && forall i :: 0 <= i < |a| ==> b[i].email == a[i].email
    ensures EmailsOf(a) == EmailsOf(b)
  {
  }

  lemma {:induction false} InsertedCount(leads: map<Id, Lead>, added: seq<Lead>, first: Id)
    requires forall i :: 0 <= i < |added| ==> added[i].id == first + i
    requires forall l :: l in leads ==> l < first
    ensures |InsertLeads(leads, added)| == |leads| + |added|
  {
    if added != [] {
      var last := |added| - 1;
      InsertedCount(leads, added[..last], first);
      InsertLeadsAt(leads, added[..last], first, added[last].id);
      var before, after := InsertLeads(leads, added[..last]), InsertLeads(leads, added);
      assert after.Keys == before.Keys + {added[last].id};
    }
  }

  /** The first-step job of a lead: pending, untried, due the step's delay after the start. */
  predicate IsFirstJob(job: SendJob, id: Id, campaign: Campaign, lead: Lead, moment: Time)
    requires campaign.steps != []
  {
    var step := campaign.steps[0];
    && job.id == id && job.lead == lead.id && job.workspace == campaign.workspace && job.mailbox == campaign.mailbox
    && job.payload == Payload(campaign.id, lead.id, step.id, 1, lead.email, step.subject, step.body)
    && job.status.Pending? && job.attempts == 0 && job.outbound.None? && job.lockedAt.None?
    && job.scheduledAt == moment + step.delaySeconds * SECOND
  }

  /** The row of a lead once it is scheduled. */
  predicate IsScheduled(before: Lead, after: Lead, moment: Time) {
    after == before.(state := LeadState.Scheduled, updatedAt := moment)
  }

  /** A lead scheduled, with its first job. */
  ghost predicate PairScheduled(target: Campaign, lead: Lead, j: Id, moment: Time, after: Db)
    requires target.steps != []
  {
    && lead.id in after.leads && IsScheduled(lead, after.leads[lead.id], moment)
    && j in after.jobs && IsFirstJob(after.jobs[j], j, target, lead, moment)
  }

  /** The campaign active, `count` jobs more, and every other row as it was. */
  ghost predicate RestKept(s: Sys, campaign: Id, count: nat, after: Db)
    requires campaign in s.db.campaigns
  {
    var n := s.db.nextId;
    && after == s.db.(campaigns := s.db.campaigns[campaign := s.db.campaigns[campaign].(status := Active)],
                      leads := after.leads, jobs := after.jobs, nextId := n + count)
    && after.leads.Keys == s.db.leads.Keys
    && (forall l :: l in s.db.leads && s.db.leads[l].campaign != campaign ==> after.leads[l] == s.db.leads[l])
    && (forall j: Id :: j in after.jobs <==> j in s.db.jobs || n <= j < n + count)
    && (forall j :: j in s.db.jobs ==> after.jobs[j] == s.db.jobs[j])
  }

  /** Every pending lead scheduled, with its first job under the next identifier, and nothing else written. */
  ghost predicate AllScheduled(s: Sys, campaign: Id, pending: seq<Lead>, moment: Time, after: Db)
    requires campaign in s.db.campaigns && s.db.campaigns[campaign].steps != []
  {
    && RestKept(s, campaign, |pending|, after)
    && forall i :: 0 <= i < |pending| ==>
         PairScheduled(s.db.campaigns[campaign], pending[i], s.db.nextId + i, moment, after)
  }

  /**
   Starting fails exactly without the campaign or, for a draft, without leads, and leaves an active campaign alone.
   Otherwise each lead of the campaign is scheduled and gets its first job, and nothing else is written.
   */
  lemma {:induction false} StartResultIsRight(s: Sys, campaign: Id, pending: seq<Lead>, moment: Time)
    requires Inv(s) && s.clock <= moment && Commands.IsPendingList(s.db.leads, campaign, pending)
    ensures var r := Commands.StartCampaign(s.db, campaign, pending, moment);
      && (campaign !in s.db.campaigns ==> r == Result.Failure(CampaignNotFound))
      && (campaign in s.db.campaigns && s.db.campaigns[campaign].IsActive() ==> r == Result.Success((s.db, 0)))
      && (campaign in s.db.campaigns && s.db.campaigns[campaign].status.Draft? ==>
            if pending == [] then r == Result.Failure(CampaignHasNoLeads)
            else
              && r.Success? && r.value.1 == |pending| && s.db.campaigns[campaign].steps != []
              && (forall l :: l in s.db.leads && s.db.leads[l].campaign == campaign ==> s.db.leads[l] in pending)
              && AllScheduled(s, campaign, pending, moment, r.value.0))
  {
    if campaign in s.db.campaigns && s.db.campaigns[campaign].status.Draft? && pending != [] {
      assert CampaignRowOk(s.db.campaigns, s.db.nextId, campaign);
      DraftStarts(s, s.db.campaigns[campaign], pending, moment);
      DraftIsPending(s, campaign, pending);
    }
  }

  /** All leads of a draft are on its pending list. */
  lemma {:induction false} DraftIsPending(s: Sys, campaign: Id, pending: seq<Lead>)
    requires CampaignInv(s) && Commands.IsPendingList(s.db.leads, campaign, pending)
    requires campaign in s.db.campaigns && s.db.campaigns[campaign].status.Draft?
    ensures forall l :: l in s.db.leads && s.db.leads[l].campaign == campaign ==> s.db.leads[l] in pending
  {
    forall l | l in s.db.leads && s.db.leads[l].campaign == campaign ensures s.db.leads[l] in pending {
      assert LeadRowOk(s, l);
      assert Commands.PendingListed(s.db.leads, campaign, pending, l);
    }
  }

  lemma {:induction false} DraftStarts(s: Sys, target: Campaign, pending: seq<Lead>, moment: Time)
    requires CampaignInv(s) && target.id in s.db.campaigns && s.db.campaigns[target.id] == target
    requires target.status.Draft? && target.WellFormed() && s.clock <= moment
    requires Commands.IsPendingList(s.db.leads, target.id, pending) && pending != []
    ensures var r := Commands.StartCampaign(s.db, target.id, pending, moment);
      r.Success? && r.value.1 == |pending| && AllScheduled(s, target.id, pending, moment, r.value.0)
  {
    StartShape(s, target, pending, moment);
    var (scheduled, jobs) := Started(target).Schedule(pending, moment, s.db.nextId).value;
    StartCommand(s.db, target, pending, moment, scheduled, jobs);
    StartedRest(s, target, pending, moment, scheduled, jobs);
    forall i | 0 <= i < |pending|
      ensures PairScheduled(target, pending[i], s.db.nextId + i, moment,
                            After(s, target, pending, moment, scheduled, jobs).db)
    {
      StartedPair(s, target, pending, moment, scheduled, jobs, i);
    }
  }

  lemma {:induction false} StartedPair(
    s: Sys, target: Campaign, pending: seq<Lead>, moment: Time, scheduled: seq<Lead>, jobs: seq<SendJob>, i: nat)
    requires Starts(s, target, pending, moment, scheduled, jobs) && i < |pending|
    ensures PairScheduled(target, pending[i], s.db.nextId + i, moment,
                          After(s, target, pending, moment, scheduled, jobs).db)
  {
    StartedLookups(s, target, pending, moment, scheduled, jobs, i);
  }

  lemma {:induction false} StartedRest(
    s: Sys, target: Campaign, pending: seq<Lead>, moment: Time, scheduled: seq<Lead>, jobs: seq<SendJob>)
    requires Starts(s, target, pending, moment, scheduled, jobs)
    ensures RestKept(s, target.id, |pending|, After(s, target, pending, moment, scheduled, jobs).db)
  {
    var t := After(s, target, pending, moment, scheduled, jobs);
    forall l | l in s.db.leads && s.db.leads[l].campaign != target.id ensures t.db.leads[l] == s.db.leads[l] {
      OtherCampaignsLead(s, target, pending, moment, scheduled, jobs, l);
    }
    forall j: Id
      ensures j in t.db.jobs <==> j in s.db.jobs || s.db.nextId <= j < s.db.nextId + |pending|
      ensures j in s.db.jobs ==> t.db.jobs[j] == s.db.jobs[j]
    {
      OldJobKept(s, target, pending, moment, scheduled, jobs, j);
    }
  }
}
