/** The rows that adding leads leaves: whose, in which order, and with which first jobs. */
module AddedRows {
  import opened AddLeadsKeeps
  import opened Base
  import opened CampaignDomain
  import opened CommandTheorems
  import opened Invariant
  import opened Machine
  import opened SendKeeps
  import opened SendQueue
  import opened Tables
  import Commands
  import Text

  // ---------- Which addresses ----------

  /** The addresses a campaign has. */
  function AddressesIn(leads: map<Id, Lead>, campaign: Id): set<string> {
    set l | l in leads && leads[l].campaign == campaign :: leads[l].email
  }

  /** The first spelling on the list of an address that is not taken. */
  ghost predicate FirstSpelling(emails: seq<string>, taken: set<string>, i: nat)
    requires i < |emails|
  {
    var email := Text.NormalizeEmail(emails[i]);
    email != "" && email !in taken && forall k :: 0 <= k < i ==> Text.NormalizeEmail(emails[k]) != email
  }

  /** `places` are where those stand, in order. */
  ghost predicate FirstSpellings(emails: seq<string>, taken: set<string>, places: seq<nat>) {
    && (forall k, l :: 0 <= k < l < |places| ==> places[k] < places[l])
    && (forall k :: 0 <= k < |places| ==> places[k] < |emails| && FirstSpelling(emails, taken, places[k]))
    && (forall i :: 0 <= i < |emails| && FirstSpelling(emails, taken, i) ==> i in places)
  }

  /** The accepted addresses are the first spellings, in the order of the list. */
  lemma {:induction false} AcceptedInOrder(emails: seq<string>, taken: set<string>) returns (places: seq<nat>)
    ensures FirstSpellings(emails, taken, places) && |places| == |AcceptedEmails(emails, taken)|
    ensures forall k :: 0 <= k < |places| ==>
      AcceptedEmails(emails, taken)[k] == Text.NormalizeEmail(emails[places[k]])
  {
    if emails == [] {
      places := [];
    } else {
      var last := |emails| - 1;
      var rest := emails[..last];
      places := AcceptedInOrder(rest, taken);
      SpellingsOfRest(emails, taken);
      LastIsAccepted(emails, taken);
      if FirstSpelling(emails, taken, last) {
        OneMoreSpelling(emails, taken, places, places + [last]);
        places := places + [last];
      } else {
        OneMoreSpelling(emails, taken, places, places);
      }
    }
  }

  lemma {:induction false} SpellingsOfRest(emails: seq<string>, taken: set<string>)
    requires emails != []
    ensures var rest := emails[..|emails| - 1];
      forall i :: 0 <= i < |rest| ==> (FirstSpelling(rest, taken, i) <==> FirstSpelling(emails, taken, i))
  {
    var rest := emails[..|emails| - 1];
    forall i | 0 <= i < |rest| ensures FirstSpelling(rest, taken, i) <==> FirstSpelling(emails, taken, i) {
      assert forall k :: 0 <= k <= i ==> rest[k] == emails[k];
    }
  }

  lemma {:induction false} LastIsAccepted(emails: seq<string>, taken: set<string>)
    requires emails != []
    ensures var (last, before) := (|emails| - 1, AcceptedEmails(emails[..|emails| - 1], taken));
      AcceptedEmails(emails, taken) ==
        if FirstSpelling(emails, taken, last) then before + [Text.NormalizeEmail(emails[last])] else before
  {
    var last := |emails| - 1;
    var (email, before) := (Text.NormalizeEmail(emails[last]), AcceptedEmails(emails[..last], taken));
    AcceptedEmailsAreNewAndDistinct(emails[..last], taken);
    if email in before {
      var raw :| raw in emails[..last] && email == Text.NormalizeEmail(raw);
      var k :| 0 <= k < last && emails[..last][k] == raw;
      assert emails[k] == raw;
    } else if email != "" && email !in taken {
      forall k | 0 <= k < last ensures Text.NormalizeEmail(emails[k]) != email {
        assert emails[..last][k] == emails[k] && emails[k] in emails[..last];
      }
    }
  }

  lemma {:induction false} OneMoreSpelling(
    emails: seq<string>, taken: set<string>, places: seq<nat>, now: seq<nat>)
    requires emails != [] && FirstSpellings(emails[..|emails| - 1], taken, places)
    requires var last := |emails| - 1; now == if FirstSpelling(emails, taken, last) then places + [last] else places
    requires forall i :: 0 <= i < |emails| - 1 ==>
      (FirstSpelling(emails[..|emails| - 1], taken, i) <==> FirstSpelling(emails, taken, i))
    ensures FirstSpellings(emails, taken, now)
  {
    var last := |emails| - 1;
    forall i | 0 <= i < |emails| && FirstSpelling(emails, taken, i) ensures i in now {
      if i < last {
        assert i in places;
        var k :| 0 <= k < |places| && places[k] == i;
        assert now[k] == i;
      } else {
        assert now[|places|] == i;
      }
    }
  }

  // ---------- Which rows ----------

  /** New rows under consecutive identifiers, beside the old ones. */
  ghost predicate LeadsAt(before: map<Id, Lead>, after: map<Id, Lead>, rows: seq<Lead>, first: Id) {
    && (forall l: Id :: l in after <==> l in before || first <= l < first + |rows|)
    && (forall l :: l in before ==> after[l] == before[l])
    && (forall i :: 0 <= i < |rows| ==> after[first + i] == rows[i])
  }

  lemma {:induction false} InsertedAt(leads: map<Id, Lead>, rows: seq<Lead>, first: Id)
    requires (forall l :: l in leads ==> l < first) && forall i :: 0 <= i < |rows| ==> rows[i].id == first + i
    ensures LeadsAt(leads, InsertLeads(leads, rows), rows, first)
  {
    forall l: Id
      ensures l in InsertLeads(leads, rows) <==> l in leads || first <= l < first + |rows|
      ensures l in leads ==> InsertLeads(leads, rows)[l] == leads[l]
    {
      InsertLeadsAt(leads, rows, first, l);
    }
    forall i | 0 <= i < |rows| ensures InsertLeads(leads, rows)[first + i] == rows[i] {
      InsertLeadsAt(leads, rows, first, first + i);
    }
  }

  /** A first job for each new lead, beside the old jobs. */
  ghost predicate JobsAt(
    before: JobTable, after: JobTable, target: Campaign, rows: seq<Lead>, first: Id, moment: Time)
    requires target.steps != []
  {
    && (forall j: Id :: j in after <==> j in before || first <= j < first + |rows|)
    && (forall j :: j in before ==> after[j] == before[j])
    && (forall i :: 0 <= i < |rows| ==> IsFirstJob(after[first + i], first + i, target, rows[i], moment))
  }

  lemma {:induction false} JobsInsertedAt(
    before: JobTable, jobs: seq<SendJob>, target: Campaign, rows: seq<Lead>, first: Id, moment: Time)
    requires target.WellFormed() && |jobs| == |rows| && forall j :: j in before ==> j < first
    requires forall i :: 0 <= i < |rows| ==> jobs[i] == FirstJob(target, rows[i], first + i, moment)
    ensures JobsAt(before, InsertJobs(before, jobs), target, rows, first, moment)
  {
    forall j: Id
      ensures j in InsertJobs(before, jobs) <==> j in before || first <= j < first + |rows|
      ensures j in before ==> InsertJobs(before, jobs)[j] == before[j]
    {
      InsertJobsAt(before, jobs, first, j);
    }
    forall i | 0 <= i < |rows|
      ensures IsFirstJob(InsertJobs(before, jobs)[first + i], first + i, target, rows[i], moment)
    {
      InsertJobsAt(before, jobs, first, first + i);
    }
  }

  /** The row of a new lead. */
  function RowOf(id: Id, target: Campaign, email: string, moment: Time): Lead {
    Lead(id, target.workspace, target.id, email, if target.IsActive() then LeadState.Scheduled else LeadState.Pending,
         0, None, None, moment)
  }

  /** The rows of the addresses at these places of the list. */
  function RowsOf(n: Id, target: Campaign, emails: seq<string>, places: seq<nat>, moment: Time): seq<Lead>
    requires forall k :: 0 <= k < |places| ==> places[k] < |emails|
  {
    seq(|places|, i requires 0 <= i < |places| => RowOf(n + i, target, Text.NormalizeEmail(emails[places[i]]), moment))
  }

  ghost predicate AddedAs(s: Sys, target: Campaign, rows: seq<Lead>, moment: Time, after: Db)
    requires target.steps != []
  {
    var (n, m) := (s.db.nextId, |rows|);
    && after == s.db.(leads := after.leads, jobs := after.jobs, nextId := n + if target.IsActive() then 2 * m else m)
    && LeadsAt(s.db.leads, after.leads, rows, n)
    && (if target.IsActive() then JobsAt(s.db.jobs, after.jobs, target, rows, n + m, moment)
        else after.jobs == s.db.jobs)
  }

  lemma {:induction false} DraftAdds(s: Sys, target: Campaign, added: seq<Lead>, given: nat, moment: Time)
    requires Addable(s, target.id, added) && s.db.campaigns[target.id] == target && (!target.IsActive() || added == [])
    ensures target.steps != []
    ensures var r := Commands.AddLeadRows(s.db, target.id, added, given, moment);
      r.Success? && AddedAs(s, target, added, moment, r.value.0)
  {
    AddableIds(s, target.id, added);
    InsertedAt(s.db.leads, added, s.db.nextId);
    JobIdsAreOld(s);
  }

  /** The tables of an active campaign afterwards, in terms of the scheduled rows and the jobs. */
  lemma {:induction false} ActiveAdds(s: Sys, target: Campaign, added: seq<Lead>, given: nat, moment: Time)
    returns (scheduled: seq<Lead>, jobs: seq<SendJob>)
    requires Addable(s, target.id, added) && IsRunning(s, target) && s.clock <= moment && added != []
    ensures Pairs(target, added, s.db.nextId + |added|, moment, scheduled, jobs)
    ensures var r := Commands.AddLeadRows(s.db, target.id, added, given, moment);
      r.Success? && r.value.0 == ActiveDb(s.db, added, InsertLeads(s.db.leads, scheduled), jobs)
  {
    AddableIds(s, target.id, added);
    SchedulePairs(target, added, moment, s.db.nextId + |added|);
    var pairs := target.Schedule(added, moment, s.db.nextId + |added|).value;
    scheduled, jobs := pairs.0, pairs.1;
    UpdateAfterInsert(s.db.leads, added, scheduled, s.db.nextId, moment);
    ActiveRows(s.db, target.id, added, given, moment, scheduled, jobs, InsertLeads(s.db.leads, scheduled));
  }

  /** A first job does not depend on the lead's progress. */
  lemma {:induction false} SameFirstJobs(
    target: Campaign, added: seq<Lead>, base: Id, moment: Time, scheduled: seq<Lead>, jobs: seq<SendJob>)
    requires target.steps != [] && Pairs(target, added, base, moment, scheduled, jobs)
    ensures forall i :: 0 <= i < |scheduled| ==> jobs[i] == FirstJob(target, scheduled[i], base + i, moment)
  {
  }

  lemma {:induction false} ScheduledIds(
    target: Campaign, added: seq<Lead>, base: Id, moment: Time, scheduled: seq<Lead>, jobs: seq<SendJob>, first: Id)
    requires target.steps != [] && Pairs(target, added, base, moment, scheduled, jobs)
    requires forall i :: 0 <= i < |added| ==> added[i].id == first + i
    ensures |jobs| == |scheduled| == |added| && forall i :: 0 <= i < |scheduled| ==> scheduled[i].id == first + i
  {
  }

  lemma {:induction false} ActiveLeads(
    s: Sys, target: Campaign, added: seq<Lead>, moment: Time, scheduled: seq<Lead>, jobs: seq<SendJob>)
    requires Addable(s, target.id, added) && IsRunning(s, target)
    requires Pairs(target, added, s.db.nextId + |added|, moment, scheduled, jobs)
    ensures LeadsAt(s.db.leads, InsertLeads(s.db.leads, scheduled), scheduled, s.db.nextId)
  {
    AddableIds(s, target.id, added);
    ScheduledIds(target, added, s.db.nextId + |added|, moment, scheduled, jobs, s.db.nextId);
    InsertedAt(s.db.leads, scheduled, s.db.nextId);
  }

  lemma {:induction false} ActiveJobs(
    s: Sys, target: Campaign, added: seq<Lead>, moment: Time, scheduled: seq<Lead>, jobs: seq<SendJob>)
    requires Addable(s, target.id, added) && IsRunning(s, target)
    requires Pairs(target, added, s.db.nextId + |added|, moment, scheduled, jobs)
    ensures JobsAt(s.db.jobs, InsertJobs(s.db.jobs, jobs), target, scheduled, s.db.nextId + |added|, moment)
  {
    AddableIds(s, target.id, added);
    SameFirstJobs(target, added, s.db.nextId + |added|, moment, scheduled, jobs);
    OldIds(s, s.db.nextId + |added|);
    JobsInsertedAt(s.db.jobs, jobs, target, scheduled, s.db.nextId + |added|, moment);
  }

  lemma {:induction false} TablesOf(db: Db, added: seq<Lead>, leads: map<Id, Lead>, jobs: seq<SendJob>)
    requires |jobs| == |added|
    ensures ActiveDb(db, added, leads, jobs) ==
      db.(leads := leads, jobs := InsertJobs(db.jobs, jobs), nextId := db.nextId + 2 * |added|)
  {
  }

  /** The scheduled rows and the tables afterwards. */
  lemma {:induction false} ActiveTables(s: Sys, target: Campaign, added: seq<Lead>, given: nat, moment: Time)
    returns (scheduled: seq<Lead>, leads: map<Id, Lead>, jobs: JobTable)
    requires Addable(s, target.id, added) && IsRunning(s, target) && s.clock <= moment && added != []
    ensures |scheduled| == |added|
    ensures forall i :: 0 <= i < |added| ==> scheduled[i] == added[i].Moved(LeadState.Scheduled, moment)
    ensures LeadsAt(s.db.leads, leads, scheduled, s.db.nextId)
    ensures JobsAt(s.db.jobs, jobs, target, scheduled, s.db.nextId + |added|, moment)
    ensures var r := Commands.AddLeadRows(s.db, target.id, added, given, moment);
      r.Success? && r.value.0 == s.db.(leads := leads, jobs := jobs, nextId := s.db.nextId + 2 * |added|)
  {
    var firstJobs;
    scheduled, firstJobs := ActiveAdds(s, target, added, given, moment);
    leads, jobs := InsertLeads(s.db.leads, scheduled), InsertJobs(s.db.jobs, firstJobs);
    ActiveLeads(s, target, added, moment, scheduled, firstJobs);
    ActiveJobs(s, target, added, moment, scheduled, firstJobs);
    TablesOf(s.db, added, leads, firstJobs);
  }

  lemma {:induction false} OldIds(s: Sys, first: Id)
    requires CampaignInv(s) && s.db.nextId <= first
    ensures forall j :: j in s.db.jobs ==> j < first
  {
    JobIdsAreOld(s);
  }

  /** The rows before scheduling are those of the first spellings, pending. */
  lemma {:induction false} RowsToAdd(s: Sys, target: Campaign, emails: seq<string>, places: seq<nat>, moment: Time)
    requires CampaignInv(s) && target.id in s.db.campaigns && s.db.campaigns[target.id] == target
    requires var accepted := AcceptedEmails(emails, Commands.CampaignEmails(s.db.leads, target.id));
      && |places| == |accepted|
      && forall k :: 0 <= k < |places| ==>
           places[k] < |emails| && accepted[k] == Text.NormalizeEmail(emails[places[k]])
    ensures ArePending(Commands.LeadsToAdd(s.db, target, emails, moment), s.db.nextId, target, emails, places, moment)
  {
    var accepted := AcceptedEmails(emails, Commands.CampaignEmails(s.db.leads, target.id));
    NormalFormsAreTaken(s, target.id);
    forall k | 0 <= k < |places|
      ensures Commands.LeadsToAdd(s.db, target, emails, moment)[k] ==
        Lead(s.db.nextId + k, target.workspace, target.id, Text.NormalizeEmail(emails[places[k]]),
             LeadState.Pending, 0, None, None, moment)
    {
      NewLeadsAt(target.workspace, target.id, accepted, s.db.nextId, moment, k);
      Text.NormalizeEmailIsIdempotent(emails[places[k]]);
    }
  }

  ghost predicate ArePending(
    added: seq<Lead>, n: Id, target: Campaign, emails: seq<string>, places: seq<nat>, moment: Time)
    requires forall k :: 0 <= k < |places| ==> places[k] < |emails|
  {
    && |added| == |places|
    && forall k :: 0 <= k < |places| ==>
         added[k] == Lead(n + k, target.workspace, target.id, Text.NormalizeEmail(emails[places[k]]),
                          LeadState.Pending, 0, None, None, moment)
  }

  lemma {:induction false} PendingAreBefore(
    added: seq<Lead>, n: Id, target: Campaign, emails: seq<string>, places: seq<nat>, moment: Time)
    requires (forall k :: 0 <= k < |places| ==> places[k] < |emails|)
    requires ArePending(added, n, target, emails, places, moment)
    ensures AreBefore(added, target, RowsOf(n, target, emails, places, moment), moment)
  {
  }

  /** The pending rows that these rows are made from. */
  ghost predicate AreBefore(added: seq<Lead>, target: Campaign, rows: seq<Lead>, moment: Time) {
    && |rows| == |added|
    && forall i :: 0 <= i < |added| ==>
         && added[i].updatedAt == moment
         && rows[i] == added[i].(state := if target.IsActive() then LeadState.Scheduled else added[i].state)
  }

  /**
   Each address on the list that the campaign does not have becomes one lead, in the order of the list: pending in a
   draft; scheduled in an active campaign, with its first job. Nothing else is written.
   */
  lemma {:induction false} AddedRowsAreRight(s: Sys, campaign: Id, emails: seq<string>, moment: Time)
    returns (places: seq<nat>)
    requires Inv(s) && campaign in s.db.campaigns && s.clock <= moment
    ensures FirstSpellings(emails, AddressesIn(s.db.leads, campaign), places)
    ensures var r := Commands.AddLeads(s.db, campaign, emails, moment);
      var target := s.db.campaigns[campaign];
      && r.Success? && target.steps != []
      && AddedAs(s, target, RowsOf(s.db.nextId, target, emails, places, moment), moment, r.value.0)
  {
    var target := s.db.campaigns[campaign];
    assert CampaignRowOk(s.db.campaigns, s.db.nextId, campaign);
    assert AddressesIn(s.db.leads, campaign) == Commands.CampaignEmails(s.db.leads, campaign);
    places := AcceptedInOrder(emails, AddressesIn(s.db.leads, campaign));
    RowsToAdd(s, target, emails, places, moment);
    LeadsToAddAreAddable(s, campaign, emails, moment);
    var added := Commands.LeadsToAdd(s.db, target, emails, moment);
    PendingAreBefore(added, s.db.nextId, target, emails, places, moment);
    var rows := RowsOf(s.db.nextId, target, emails, places, moment);
    if target.IsActive() && added != [] {
      ActiveRowsAre(s, target, added, |emails|, moment, rows);
    } else {
      DraftAdds(s, target, added, |emails|, moment);
      assert added == rows;
    }
  }

  lemma {:induction false} ActiveRowsAre(
    s: Sys, target: Campaign, added: seq<Lead>, given: nat, moment: Time, rows: seq<Lead>)
    requires Addable(s, target.id, added) && IsRunning(s, target) && s.clock <= moment && added != []
    requires AreBefore(added, target, rows, moment)
    ensures var r := Commands.AddLeadRows(s.db, target.id, added, given, moment);
      r.Success? && AddedAs(s, target, rows, moment, r.value.0)
  {
    var scheduled, leads, jobs := ActiveTables(s, target, added, given, moment);
    SameRows(target, added, moment, scheduled, rows);
    AddedFrom(s, target, rows, moment, leads, jobs);
  }

  lemma {:induction false} AddedFrom(
    s: Sys, target: Campaign, rows: seq<Lead>, moment: Time, leads: map<Id, Lead>, jobs: JobTable)
    requires target.steps != [] && target.IsActive() && LeadsAt(s.db.leads, leads, rows, s.db.nextId)
    requires JobsAt(s.db.jobs, jobs, target, rows, s.db.nextId + |rows|, moment)
    ensures AddedAs(s, target, rows, moment, s.db.(leads := leads, jobs := jobs, nextId := s.db.nextId + 2 * |rows|))
  {
  }

  lemma {:induction false} SameRows(
    target: Campaign, added: seq<Lead>, moment: Time, scheduled: seq<Lead>, rows: seq<Lead>)
    requires target.IsActive() && |scheduled| == |added| && AreBefore(added, target, rows, moment)
    requires forall i :: 0 <= i < |added| ==> scheduled[i] == added[i].Moved(LeadState.Scheduled, moment)
    ensures scheduled == rows
  {
  }
}
