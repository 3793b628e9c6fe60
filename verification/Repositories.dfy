/** The repositories of both contexts, over the tables of one session. */
module Repositories {
  import opened Base
  import opened CampaignDomain
  import opened SendQueue
  import opened Tables
  import Commands
  import Inbox
  import Replies

  /** An open transaction: the tables as it sees and writes them. */
  class Session {
    var tables: Db

    constructor (tables: Db)
      ensures this.tables == tables
    {
      this.tables := tables;
    }
  }

  // ---------- Ordering and limiting a query ----------

  type SortKeys = map<Id, (int, int)>

  predicate NotAfter(a: (int, int), b: (int, int)) {
    a.0 < b.0 || (a.0 == b.0 && a.1 <= b.1)
  }

  /** `ids` are the first of the keyed rows, in order: nothing left out comes before anything taken. */
  ghost predicate AreFirst(keys: SortKeys, limit: nat, ids: seq<Id>) {
    && |ids| <= limit
    && (forall i :: 0 <= i < |ids| ==> ids[i] in keys)
    && (forall i, j :: 0 <= i < j < |ids| ==> ids[i] != ids[j] && NotAfter(keys[ids[i]], keys[ids[j]]))
    && (forall id :: id in keys && id !in ids ==>
          |ids| == limit && forall i :: 0 <= i < |ids| ==> NotAfter(keys[ids[i]], keys[id]))
  }

  method First(keys: SortKeys) returns (first: Id)
    requires keys != map[]
    ensures first in keys && forall id :: id in keys ==> NotAfter(keys[first], keys[id])
  {
    first :| first in keys;
    var rest := keys.Keys - {first};
    while rest != {}
      invariant first in keys && rest <= keys.Keys
      invariant forall id :: id in keys && id !in rest ==> NotAfter(keys[first], keys[id])
      decreases |rest|
    {
      var id :| id in rest;
      if NotAfter(keys[id], keys[first]) { first := id; }
      rest := rest - {id};
    }
  }

  /** `ids` are in order, and none of them comes after any of the rest. */
  ghost predicate Chosen(keys: SortKeys, ids: seq<Id>, rest: SortKeys) {
    && (forall id :: id in rest ==> id in keys && rest[id] == keys[id])
    && (forall id :: id in keys ==> (id in rest <==> id !in ids))
    && (forall i :: 0 <= i < |ids| ==> ids[i] in keys)
    && (forall i, j :: 0 <= i < j < |ids| ==> ids[i] != ids[j] && NotAfter(keys[ids[i]], keys[ids[j]]))
    && (forall i, id :: 0 <= i < |ids| && id in rest ==> NotAfter(keys[ids[i]], keys[id]))
  }

  lemma {:induction false} ChooseNext(keys: SortKeys, ids: seq<Id>, rest: SortKeys, id: Id)
    requires Chosen(keys, ids, rest) && id in rest && forall other :: other in rest ==> NotAfter(rest[id], rest[other])
    ensures Chosen(keys, ids + [id], rest - {id})
  {
    var now := ids + [id];
    assert id !in ids;
    forall other | other in keys ensures other in rest - {id} <==> other !in now {
      if other == id { assert now[|ids|] == id; }
    }
  }

  /** The `ORDER BY ... LIMIT ...` of a query. */
  method OrderBy(keys: SortKeys, limit: nat) returns (ids: seq<Id>)
    ensures AreFirst(keys, limit, ids)
  {
    ids := [];
    var rest := keys;
    while |ids| < limit && rest != map[]
      invariant |ids| <= limit && Chosen(keys, ids, rest)
      decreases |rest|
    {
      var id := First(rest);
      ChooseNext(keys, ids, rest, id);
      ids := ids + [id];
      rest := rest - {id};
    }
  }

  function IdSet(ids: seq<Id>): set<Id> {
    set id | id in ids
  }

  // ---------- Campaign context ----------

  class CampaignRepository {
    const session: Session

    constructor (session: Session)
      ensures this.session == session
    {
      this.session := session;
    }

    method Add(campaign: Campaign)
      modifies session
      ensures session.tables ==
        old(session.tables).(campaigns := old(session.tables).campaigns[campaign.id := campaign])
    {
      session.tables := session.tables.(campaigns := session.tables.campaigns[campaign.id := campaign]);
    }

    method Get(id: Id) returns (campaign: Option<Campaign>)
      ensures campaign == if id in session.tables.campaigns then Some(session.tables.campaigns[id]) else None
    {
      campaign := if id in session.tables.campaigns then Some(session.tables.campaigns[id]) else None;
    }

    /** A missing row is an error, and writes nothing. */
    method UpdateStatus(campaign: Campaign) returns (found: bool)
      modifies session
      ensures found == (campaign.id in old(session.tables).campaigns)
      ensures found ==>
        var before := old(session.tables).campaigns;
        session.tables ==
          old(session.tables).(campaigns := before[campaign.id := before[campaign.id].(status := campaign.status)])
      ensures !found ==> session.tables == old(session.tables)
    {
      found := campaign.id in session.tables.campaigns;
      if found {
        var row := session.tables.campaigns[campaign.id];
        session.tables :=
          session.tables.(campaigns := session.tables.campaigns[campaign.id := row.(status := campaign.status)]);
      }
    }
  }

  function PendingKeys(leads: map<Id, Lead>, campaign: Id): SortKeys {
    map id | id in leads && leads[id].campaign == campaign && leads[id].state.Pending? :: (id, 0)
  }

  lemma {:induction false} OrderedPendingAreAll(leads: map<Id, Lead>, campaign: Id, ids: seq<Id>, pending: seq<Lead>)
    requires forall id :: id in leads ==> leads[id].id == id
    requires AreFirst(PendingKeys(leads, campaign), |PendingKeys(leads, campaign)| + 1, ids)
    requires |pending| == |ids| && forall i :: 0 <= i < |ids| ==> pending[i] == leads[ids[i]]
    ensures Commands.IsPendingList(leads, campaign, pending)
  {
    var keys := PendingKeys(leads, campaign);
    NothingLeftOut(keys, ids);
    forall i, j | 0 <= i < j < |pending| ensures pending[i].id < pending[j].id {
      assert NotAfter(keys[ids[i]], keys[ids[j]]);
    }
    forall id | id in leads ensures Commands.PendingListed(leads, campaign, pending, id) {
      if id in keys {
        var k :| 0 <= k < |ids| && ids[k] == id;
        assert pending[k] == leads[id];
      }
    }
  }

  class LeadRepository {
    const session: Session

    constructor (session: Session)
      ensures this.session == session
    {
      this.session := session;
    }

    method AddMany(leads: seq<Lead>)
      modifies session
      ensures session.tables == old(session.tables).(leads := InsertLeads(old(session.tables).leads, leads))
    {
      for n := 0 to |leads|
        invariant session.tables == old(session.tables).(leads := InsertLeads(old(session.tables).leads, leads[..n]))
      {
        assert leads[..n + 1][..n] == leads[..n];
        session.tables := session.tables.(leads := session.tables.leads[leads[n].id := leads[n]]);
      }
      assert leads[..|leads|] == leads;
    }

    method Get(id: Id) returns (lead: Option<Lead>)
      ensures lead == if id in session.tables.leads then Some(session.tables.leads[id]) else None
    {
      lead := if id in session.tables.leads then Some(session.tables.leads[id]) else None;
    }

    method Emails(campaign: Id) returns (emails: set<string>)
      ensures emails == Commands.CampaignEmails(session.tables.leads, campaign)
    {
      var leads := session.tables.leads;
      emails := set id | id in leads && leads[id].campaign == campaign :: leads[id].email;
    }

    method ListPending(campaign: Id) returns (pending: seq<Lead>)
      requires forall id :: id in session.tables.leads ==> session.tables.leads[id].id == id
      ensures Commands.IsPendingList(session.tables.leads, campaign, pending)
    {
      var leads := session.tables.leads;
      var keys := PendingKeys(leads, campaign);
      var ids := OrderBy(keys, |keys| + 1);
      pending := seq(|ids|, i requires 0 <= i < |ids| && ids[i] in leads => leads[ids[i]]);
      OrderedPendingAreAll(leads, campaign, ids, pending);
    }

    /** Each lead's progress is written in turn; a lead without a row raises after the writes before it. */
    method UpdateMany(leads: seq<Lead>) returns (found: bool)
      modifies session
      ensures found == UpdateLeads(old(session.tables).leads, leads).Some?
      ensures found ==>
        session.tables == old(session.tables).(leads := UpdateLeads(old(session.tables).leads, leads).value)
    {
      ghost var before := session.tables;
      for n := 0 to |leads|
        invariant UpdateLeads(before.leads, leads[..n]).Some?
        invariant session.tables == before.(leads := UpdateLeads(before.leads, leads[..n]).value)
      {
        assert leads[..n + 1][..n] == leads[..n];
        if leads[n].id !in session.tables.leads { return false; }
        var row := session.tables.leads[leads[n].id];
        session.tables := session.tables.(leads := session.tables.leads[leads[n].id := WithProgressOf(row, leads[n])]);
      }
      assert leads[..|leads|] == leads;
      return true;
    }
  }

  /** With a limit beyond the number of rows nothing is left out. */
  lemma {:induction false} NothingLeftOut(keys: SortKeys, ids: seq<Id>)
    requires AreFirst(keys, |keys| + 1, ids)
    ensures forall id :: id in keys ==> id in ids
  {
    var listed := IdSet(ids);
    DistinctCardinality(ids);
    assert listed <= keys.Keys;
    SubsetIsSmaller(listed, keys.Keys);
  }

  lemma {:induction false} DistinctCardinality(ids: seq<Id>)
    requires forall i, j :: 0 <= i < j < |ids| ==> ids[i] != ids[j]
    ensures |IdSet(ids)| == |ids|
  {
    if ids != [] {
      var last := |ids| - 1;
      DistinctCardinality(ids[..last]);
      assert IdSet(ids) == IdSet(ids[..last]) + {ids[last]};
    }
  }

  // ---------- The send-job queue ----------

  /** What the claim statement may return: due or expired rows nobody else has locked, the earliest first. */
  ghost predicate IsClaim(jobs: JobTable, workspace: Id, limit: nat, moment: Time, locked: set<Id>, ids: seq<Id>) {
    && |ids| <= limit
    && (forall i :: 0 <= i < |ids| ==>
         ids[i] in jobs && ids[i] !in locked && Claimable(jobs[ids[i]], workspace, moment))
    && (forall i, j :: 0 <= i < j < |ids| ==> ids[i] != ids[j] && jobs[ids[i]].scheduledAt <= jobs[ids[j]].scheduledAt)
    && (forall id :: id in jobs && id !in locked && id !in ids && Claimable(jobs[id], workspace, moment) ==>
          |ids| == limit && forall i :: 0 <= i < |ids| ==> jobs[ids[i]].scheduledAt <= jobs[id].scheduledAt)
  }

  function Eligible(jobs: JobTable, workspace: Id, moment: Time, locked: set<Id>): set<Id> {
    set id | id in jobs && id !in locked && Claimable(jobs[id], workspace, moment)
  }

  function DueKeys(jobs: JobTable, workspace: Id, moment: Time, locked: set<Id>): SortKeys {
    map id | id in Eligible(jobs, workspace, moment, locked) :: (jobs[id].scheduledAt, 0)
  }

  lemma {:induction false} FirstDueIsClaim(
    jobs: JobTable, workspace: Id, limit: nat, moment: Time, locked: set<Id>, ids: seq<Id>)
    requires AreFirst(DueKeys(jobs, workspace, moment, locked), limit, ids)
    ensures IsClaim(jobs, workspace, limit, moment, locked, ids)
  {
    var keys := DueKeys(jobs, workspace, moment, locked);
    assert forall id :: id in keys <==> id in Eligible(jobs, workspace, moment, locked);
    forall i, j | 0 <= i < j < |ids| ensures ids[i] != ids[j] && jobs[ids[i]].scheduledAt <= jobs[ids[j]].scheduledAt {
      assert NotAfter(keys[ids[i]], keys[ids[j]]);
    }
    forall id | id in jobs && id !in locked && id !in ids && Claimable(jobs[id], workspace, moment)
      ensures |ids| == limit && forall i :: 0 <= i < |ids| ==> jobs[ids[i]].scheduledAt <= jobs[id].scheduledAt
    {
      assert id in keys;
      forall i | 0 <= i < |ids| ensures jobs[ids[i]].scheduledAt <= jobs[id].scheduledAt {
        assert NotAfter(keys[ids[i]], keys[id]);
      }
    }
  }

  /** Of this workspace, and due or on a lease of five minutes that has run out. */
  predicate DueOrExpired(row: SendJob, workspace: Id, moment: Time) {
    && row.workspace == workspace
    && if row.status.Pending? then row.scheduledAt <= moment
       else row.status.Running? && row.lockedAt.Some? && row.lockedAt.value + 300 * SECOND < moment
  }

  /** The row of a claim runs under this worker's lease, on one attempt more; the claim says what the row says. */
  ghost predicate TakenBy(before: JobTable, after: JobTable, claim: ClaimedSendJob, worker: Id, moment: Time) {
    && claim.id in before && claim.id in after
    && var (row, taken) := (before[claim.id], after[claim.id]);
      && taken == row.(status := JobStatus.Running, lockedAt := Some(moment), lockedBy := Some(worker),
                       attempts := row.attempts + 1, updatedAt := moment)
      && claim.workspace == row.workspace && claim.mailbox == row.mailbox && claim.lead == row.lead
      && claim.payload == row.payload && claim.attempts == row.attempts + 1 && claim.scheduledAt == row.scheduledAt
  }

  ghost predicate OnlyTaken(
    before: JobTable, after: JobTable, claims: seq<ClaimedSendJob>, worker: Id, moment: Time)
  {
    && after.Keys == before.Keys
    && (forall i :: 0 <= i < |claims| ==> TakenBy(before, after, claims[i], worker, moment))
    && (forall id :: id in before && id !in ClaimedIds(claims) ==> after[id] == before[id])
  }

  lemma {:induction false} ClaimedRowsAreTaken(jobs: JobTable, claims: seq<ClaimedSendJob>, worker: Id, moment: Time)
    requires forall id :: id in jobs ==> jobs[id].id == id
    requires var after := ClaimRows(jobs, IdSet(ClaimedIds(claims)), worker, moment);
      forall i :: 0 <= i < |claims| ==> claims[i].id in jobs && claims[i] == Claimed(after[claims[i].id])
    ensures OnlyTaken(jobs, ClaimRows(jobs, IdSet(ClaimedIds(claims)), worker, moment), claims, worker, moment)
  {
    var after := ClaimRows(jobs, IdSet(ClaimedIds(claims)), worker, moment);
    forall i | 0 <= i < |claims| ensures TakenBy(jobs, after, claims[i], worker, moment) {
      assert ClaimedIds(claims)[i] == claims[i].id;
    }
  }

  /** A claim by columns: what it takes, in which order, and that nothing due earlier is left out. */
  ghost predicate TakesFirstDue(
    jobs: JobTable, workspace: Id, limit: nat, moment: Time, locked: set<Id>, ids: seq<Id>)
  {
    && |ids| <= limit
    && (forall i :: 0 <= i < |ids| ==>
          ids[i] in jobs && ids[i] !in locked && DueOrExpired(jobs[ids[i]], workspace, moment))
    && (forall i, j :: 0 <= i < j < |ids| ==> ids[i] != ids[j] && jobs[ids[i]].scheduledAt <= jobs[ids[j]].scheduledAt)
    && (forall id :: id in jobs && id !in locked && id !in ids && DueOrExpired(jobs[id], workspace, moment) ==>
          |ids| == limit && forall i :: 0 <= i < |ids| ==> jobs[ids[i]].scheduledAt <= jobs[id].scheduledAt)
  }

  lemma {:induction false} ClaimIsByColumns(
    jobs: JobTable, workspace: Id, limit: nat, moment: Time, locked: set<Id>, ids: seq<Id>)
    ensures IsClaim(jobs, workspace, limit, moment, locked, ids) <==>
      TakesFirstDue(jobs, workspace, limit, moment, locked, ids)
  {
    assert forall row :: Claimable(row, workspace, moment) <==> DueOrExpired(row, workspace, moment);
  }

  function ClaimedIds(claims: seq<ClaimedSendJob>): seq<Id> {
    seq(|claims|, i requires 0 <= i < |claims| => claims[i].id)
  }

  /** Of all tables, only this row of the queue may differ. */
  ghost predicate OnlyJob(before: Db, after: Db, id: Id) {
    && after == before.(jobs := after.jobs) && after.jobs.Keys == before.jobs.Keys
    && forall k :: k in before.jobs && k != id ==> after.jobs[k] == before.jobs[k]
  }

  /** Due again at `retryAt`, locked by nobody; the attempts aside, the rest of the row is as it was. */
  predicate WaitsAgain(before: SendJob, after: SendJob, retryAt: Time, reason: string, moment: Time) {
    && after.status.Pending? && after.scheduledAt == retryAt && after.lockedAt.None? && after.lockedBy.None?
    && after.lastError == Some(reason) && after.updatedAt == moment
    && after.(status := before.status, scheduledAt := before.scheduledAt, lockedAt := before.lockedAt,
              lockedBy := before.lockedBy, lastError := before.lastError, updatedAt := before.updatedAt,
              attempts := before.attempts) == before
  }

  predicate CancelledOnly(before: SendJob, after: SendJob, moment: Time) {
    && after.status.Cancelled? && after.updatedAt == moment
    && after.(status := before.status, updatedAt := before.updatedAt) == before
  }

  class SendJobRepository {
    const session: Session

    constructor (session: Session)
      ensures this.session == session
    {
      this.session := session;
    }

    method AddMany(jobs: seq<SendJob>)
      modifies session
      ensures session.tables == old(session.tables).(jobs := InsertJobs(old(session.tables).jobs, jobs))
    {
      for n := 0 to |jobs|
        invariant session.tables == old(session.tables).(jobs := InsertJobs(old(session.tables).jobs, jobs[..n]))
      {
        assert jobs[..n + 1][..n] == jobs[..n];
        session.tables := session.tables.(jobs := session.tables.jobs[jobs[n].id := jobs[n]]);
      }
      assert jobs[..|jobs|] == jobs;
    }

    /** `locked` are the rows other transactions hold, which the statement skips. */
    method Claim(workspace: Id, worker: Id, limit: nat, moment: Time, locked: set<Id>)
      returns (claims: seq<ClaimedSendJob>)
      requires forall id :: id in session.tables.jobs ==> session.tables.jobs[id].id == id
      modifies session
      ensures IsClaim(old(session.tables).jobs, workspace, limit, moment, locked, ClaimedIds(claims))
      ensures session.tables == old(session.tables).(
        jobs := ClaimRows(old(session.tables).jobs, IdSet(ClaimedIds(claims)), worker, moment))
      ensures forall i :: 0 <= i < |claims| ==>
        claims[i].id in session.tables.jobs && claims[i] == Claimed(session.tables.jobs[claims[i].id])
      ensures TakesFirstDue(old(session.tables).jobs, workspace, limit, moment, locked, ClaimedIds(claims))
      ensures var (before, after) := (old(session.tables).jobs, session.tables.jobs);
        OnlyTaken(before, after, claims, worker, moment)
    {
      var jobs := session.tables.jobs;
      var ids := OrderBy(DueKeys(jobs, workspace, moment, locked), limit);
      FirstDueIsClaim(jobs, workspace, limit, moment, locked, ids);
      var after := ClaimRows(jobs, IdSet(ids), worker, moment);
      claims := seq(|ids|, i requires 0 <= i < |ids| && ids[i] in after => Claimed(after[ids[i]]));
      session.tables := session.tables.(jobs := after);
      assert ClaimedIds(claims) == ids;
      ClaimIsByColumns(jobs, workspace, limit, moment, locked, ids);
      ClaimedRowsAreTaken(jobs, claims, worker, moment);
    }

    /** The row as it is now, if it is still running. */
    method GetClaimed(id: Id, workspace: Id) returns (claim: Option<ClaimedSendJob>)
      ensures var jobs := session.tables.jobs;
        claim ==
          if id in jobs && jobs[id].workspace == workspace && jobs[id].status.Running? then Some(Claimed(jobs[id]))
                 else None
    {
      var jobs := session.tables.jobs;
      claim := None;
      if id in jobs && jobs[id].workspace == workspace && jobs[id].status.Running? {
        claim := Some(Claimed(jobs[id]));
      }
    }

    /** The row is linked and done, whatever its status was. */
    method Complete(id: Id, outbound: Id, moment: Time)
      modifies session
      ensures OnlyJob(old(session.tables), session.tables, id)
      ensures var (before, after) := (old(session.tables).jobs, session.tables.jobs);
        id in before ==>
          && after[id].status.Done? && after[id].outbound == Some(outbound) && after[id].lastError.None?
          && after[id].updatedAt == moment
          && after[id].(status := before[id].status, outbound := before[id].outbound, lastError := before[id].lastError,
                        updatedAt := before[id].updatedAt) == before[id]
    {
      if id in session.tables.jobs {
        Set(CompleteRow(session.tables.jobs[id], outbound, moment), id);
      }
    }

    /** The row waits again, unlocked, and the attempt is given back. */
    method Release(id: Id, retryAt: Time, reason: string, moment: Time)
      modifies session
      ensures OnlyJob(old(session.tables), session.tables, id)
      ensures var (before, after) := (old(session.tables).jobs, session.tables.jobs);
        id in before ==>
          && WaitsAgain(before[id], after[id], retryAt, reason, moment)
          && after[id].attempts == before[id].attempts - 1
    {
      if id in session.tables.jobs {
        Set(ReleaseRow(session.tables.jobs[id], retryAt, reason, moment), id);
      }
    }

    /** The row waits again, unlocked, and the attempt counts. */
    method RetryLater(id: Id, retryAt: Time, error: string, moment: Time)
      modifies session
      ensures OnlyJob(old(session.tables), session.tables, id)
      ensures var (before, after) := (old(session.tables).jobs, session.tables.jobs);
        id in before ==>
          && WaitsAgain(before[id], after[id], retryAt, error, moment)
          && after[id].attempts == before[id].attempts
    {
      if id in session.tables.jobs {
        Set(RescheduleRow(session.tables.jobs[id], retryAt, error, moment), id);
      }
    }

    method Fail(id: Id, error: string, moment: Time)
      modifies session
      ensures OnlyJob(old(session.tables), session.tables, id)
      ensures var (before, after) := (old(session.tables).jobs, session.tables.jobs);
        id in before ==>
          && after[id].status == JobStatus.Failed && after[id].lastError == Some(error) && after[id].updatedAt == moment
          && after[id].(status := before[id].status, lastError := before[id].lastError,
                        updatedAt := before[id].updatedAt)
             == before[id]
    {
      if id in session.tables.jobs {
        Set(FailRow(session.tables.jobs[id], error, moment), id);
      }
    }

    /** The row is cancelled, whatever its status was; its link stays. */
    method Cancel(id: Id, moment: Time)
      modifies session
      ensures OnlyJob(old(session.tables), session.tables, id)
      ensures var (before, after) := (old(session.tables).jobs, session.tables.jobs);
        id in before ==> CancelledOnly(before[id], after[id], moment)
    {
      if id in session.tables.jobs {
        Set(CancelRow(session.tables.jobs[id], moment), id);
      }
    }

    /** The pending jobs of the lead are cancelled, and no other row is written. */
    method CancelPendingForLead(lead: Id, moment: Time)
      modifies session
      ensures session.tables == old(session.tables).(jobs := session.tables.jobs)
      ensures var (before, after) := (old(session.tables).jobs, session.tables.jobs);
        && after.Keys == before.Keys
        && (forall id :: id in before && before[id].lead == lead && before[id].status.Pending? ==>
              CancelledOnly(before[id], after[id], moment))
        && (forall id :: id in before && !(before[id].lead == lead && before[id].status.Pending?) ==>
              after[id] == before[id])
    {
      var jobs := session.tables.jobs;
      var pending := set id | id in jobs && jobs[id].lead == lead && jobs[id].status.Pending?;
      session.tables := session.tables.(
        jobs := map id | id in jobs :: if id in pending then CancelRow(jobs[id], moment) else jobs[id]);
    }

    method FindLeadIdByOutboundMessage(outbound: Id) returns (lead: Option<Id>)
      requires LinksUnique(session.tables.jobs)
      ensures lead == FindLead(session.tables.jobs, outbound)
    {
      var jobs := session.tables.jobs;
      var linked := set id | id in jobs && jobs[id].outbound == Some(outbound);
      if linked == {} {
        lead := None;
        assert forall id :: LinksTo(jobs, id, outbound) ==> id in linked;
      } else {
        var id :| id in linked;
        FindLeadOfLink(jobs, id, outbound);
        lead := Some(jobs[id].lead);
      }
    }

    /** The row is written whatever its status is. */
    method Set(row: SendJob, id: Id)
      modifies session
      ensures session.tables == old(session.tables).(jobs := old(session.tables).jobs[id := row])
    {
      session.tables := session.tables.(jobs := session.tables.jobs[id := row]);
    }
  }

  /** A claim takes nothing another claim has taken within the lease. */
  lemma {:induction false} ClaimsWithinTheLeaseAreDisjoint(
    jobs: JobTable, workspace: Id, limit: nat, moment: Time, locked: set<Id>, first: seq<Id>, worker: Id,
    workspace': Id, other: nat, later: Time, locked': set<Id>, second: seq<Id>)
    requires IsClaim(jobs, workspace, limit, moment, locked, first)
    requires IsClaim(ClaimRows(jobs, IdSet(first), worker, moment), workspace', other, later, locked', second)
    requires later <= moment + 300 * SECOND
    ensures IdSet(first) !! IdSet(second)
  {
  }

  /** How many rows a claim takes: as many as there are, up to the limit. */
  lemma {:induction false} ClaimTakesAllItMay(
    jobs: JobTable, workspace: Id, limit: nat, moment: Time, locked: set<Id>, ids: seq<Id>)
    requires IsClaim(jobs, workspace, limit, moment, locked, ids)
    ensures var eligible := Eligible(jobs, workspace, moment, locked);
      |ids| == if |eligible| <= limit then |eligible| else limit
  {
    var eligible := Eligible(jobs, workspace, moment, locked);
    DistinctCardinality(ids);
    assert IdSet(ids) <= eligible;
    SubsetIsSmaller(IdSet(ids), eligible);
    if |ids| < limit {
      assert IdSet(ids) == eligible;
    }
  }

  // ---------- Messaging context ----------

  function UnansweredKeys(db: Db, mailbox: Id, answered: set<Id>): SortKeys {
    map id | id in db.outbounds && db.outbounds[id].mailbox == mailbox && db.outbounds[id].providerMessageId.Some?
      && id !in answered :: (-db.outbounds[id].createdAt, 0)
  }

  lemma {:induction false} OrderedUnansweredAreFirst(
    db: Db, mailbox: Id, answered: set<Id>, ids: seq<Id>, candidates: seq<Outbound>)
    requires forall id :: id in db.outbounds ==> db.outbounds[id].id == id
    requires forall id :: id in answered <==> Inbox.Answered(db.inbounds, id)
    requires AreFirst(UnansweredKeys(db, mailbox, answered), Inbox.CANDIDATE_LIMIT, ids)
    requires |candidates| == |ids| && forall i :: 0 <= i < |ids| ==> candidates[i] == db.outbounds[ids[i]]
    ensures Inbox.IsUnansweredList(db, mailbox, candidates)
  {
    var keys := UnansweredKeys(db, mailbox, answered);
    assert forall id :: id in keys <==> Inbox.Unanswered(db, mailbox, id);
    forall i, j | 0 <= i < j < |candidates|
      ensures candidates[i].id != candidates[j].id && candidates[i].createdAt >= candidates[j].createdAt
    {
      assert NotAfter(keys[ids[i]], keys[ids[j]]);
    }
    forall id | Inbox.Unanswered(db, mailbox, id) && db.outbounds[id] !in candidates
      ensures |candidates| == Inbox.CANDIDATE_LIMIT
      ensures forall i :: 0 <= i < |candidates| ==> candidates[i].createdAt >= db.outbounds[id].createdAt
    {
      forall k | 0 <= k < |ids| ensures ids[k] != id {
        assert candidates[k] == db.outbounds[ids[k]];
      }
      assert id in keys && id !in ids;
      forall i | 0 <= i < |candidates| ensures candidates[i].createdAt >= db.outbounds[id].createdAt {
        assert NotAfter(keys[ids[i]], keys[id]);
      }
    }
  }

  /** Sent by this mailbox, and answered by no message received. */
  ghost predicate AwaitsReply(db: Db, mailbox: Id, message: Outbound) {
    && message.mailbox == mailbox && message.providerMessageId.Some?
    && forall i :: i in db.inbounds ==> db.inbounds[i].matched != Some(message.id)
  }

  /** Up to a hundred such messages, the newest first; none that is left out is newer than one that is listed. */
  ghost predicate ListsNewest(db: Db, mailbox: Id, candidates: seq<Outbound>) {
    && |candidates| <= 100
    && (forall i :: 0 <= i < |candidates| ==>
          && candidates[i].id in db.outbounds && db.outbounds[candidates[i].id] == candidates[i]
          && AwaitsReply(db, mailbox, candidates[i]))
    && (forall i, j :: 0 <= i < j < |candidates| ==>
          candidates[i].id != candidates[j].id && candidates[i].createdAt >= candidates[j].createdAt)
    && (forall o :: o in db.outbounds && AwaitsReply(db, mailbox, db.outbounds[o]) && db.outbounds[o] !in candidates ==>
          && |candidates| == 100
          && forall i :: 0 <= i < |candidates| ==> candidates[i].createdAt >= db.outbounds[o].createdAt)
  }

  lemma {:induction false} UnansweredByColumns(db: Db, mailbox: Id, candidates: seq<Outbound>)
    requires forall o :: o in db.outbounds ==> db.outbounds[o].id == o
    requires Inbox.IsUnansweredList(db, mailbox, candidates)
    ensures ListsNewest(db, mailbox, candidates)
  {
    forall o | o in db.outbounds
      ensures AwaitsReply(db, mailbox, db.outbounds[o]) <==> Inbox.Unanswered(db, mailbox, o)
    {
    }
    forall i | 0 <= i < |candidates| ensures AwaitsReply(db, mailbox, candidates[i]) {
      assert Inbox.Unanswered(db, mailbox, candidates[i].id);
    }
  }

  class OutboundMessageRepository {
    const session: Session

    constructor (session: Session)
      ensures this.session == session
    {
      this.session := session;
    }

    method Add(message: Outbound)
      modifies session
      ensures session.tables == old(session.tables).(outbounds := old(session.tables).outbounds[message.id := message])
    {
      session.tables := session.tables.(outbounds := session.tables.outbounds[message.id := message]);
    }

    /** Only the provider's identifiers are written. */
    method MarkSent(message: Outbound)
      requires message.id in session.tables.outbounds
      modifies session
      ensures var before := old(session.tables).outbounds;
        session.tables == old(session.tables).(outbounds := before[message.id := before[message.id].(
          providerMessageId := message.providerMessageId, providerThreadId := message.providerThreadId)])
    {
      var row := session.tables.outbounds[message.id];
      session.tables := session.tables.(outbounds := session.tables.outbounds[message.id := row.(
        providerMessageId := message.providerMessageId, providerThreadId := message.providerThreadId)]);
    }

    method ListUnanswered(mailbox: Id) returns (candidates: seq<Outbound>)
      requires forall id :: id in session.tables.outbounds ==> session.tables.outbounds[id].id == id
      ensures Inbox.IsUnansweredList(session.tables, mailbox, candidates)
      ensures ListsNewest(session.tables, mailbox, candidates)
    {
      var (outbounds, inbounds) := (session.tables.outbounds, session.tables.inbounds);
      var answered := set i | i in inbounds && inbounds[i].matched.Some? :: inbounds[i].matched.value;
      var keys := UnansweredKeys(session.tables, mailbox, answered);
      var ids := OrderBy(keys, Inbox.CANDIDATE_LIMIT);
      assert forall id :: id in answered <==> Inbox.Answered(inbounds, id);
      candidates := seq(|ids|, i requires 0 <= i < |ids| && ids[i] in outbounds => outbounds[ids[i]]);
      OrderedUnansweredAreFirst(session.tables, mailbox, answered, ids, candidates);
      UnansweredByColumns(session.tables, mailbox, candidates);
    }

    method CountSentSince(mailbox: Id, since: Time) returns (count: nat)
      ensures count == |SentSince(session.tables.outbounds, mailbox, since)|
    {
      var outbounds := session.tables.outbounds;
      count := |SentSince(outbounds, mailbox, since)|;
    }
  }

  class InboundMessageRepository {
    const session: Session

    constructor (session: Session)
      ensures this.session == session
    {
      this.session := session;
    }

    method Add(message: Inbound)
      modifies session
      ensures session.tables == old(session.tables).(inbounds := old(session.tables).inbounds[message.id := message])
    {
      session.tables := session.tables.(inbounds := session.tables.inbounds[message.id := message]);
    }

    /** Only the match and the intent are written. */
    method Update(message: Inbound)
      requires message.id in session.tables.inbounds
      modifies session
      ensures var before := old(session.tables).inbounds;
        session.tables == old(session.tables).(inbounds := before[message.id := before[message.id].(
          matched := message.matched, intent := message.intent)])
    {
      var row := session.tables.inbounds[message.id];
      session.tables := session.tables.(inbounds := session.tables.inbounds[message.id := row.(
        matched := message.matched, intent := message.intent)]);
    }

    method Exists(mailbox: Id, providerMessageId: string) returns (known: bool)
      ensures known == Inbox.Known(session.tables.inbounds, mailbox, providerMessageId)
    {
      var inbounds := session.tables.inbounds;
      known := exists id ::
        id in inbounds && inbounds[id].mailbox == mailbox && inbounds[id].providerMessageId == providerMessageId;
    }
  }

  class SuppressionRepository {
    const session: Session

    constructor (session: Session)
      ensures this.session == session
    {
      this.session := session;
    }

    /** Adding twice is adding once: a conflict leaves the row that is there. */
    method Add(key: Suppression, source: Id)
      modifies session
      ensures var before := old(session.tables).suppressions;
        session.tables ==
          old(session.tables).(suppressions := if key in before then before else before[key := source])
    {
      if key !in session.tables.suppressions {
        session.tables := session.tables.(suppressions := session.tables.suppressions[key := source]);
      }
    }

    method IsSuppressed(workspace: Id, email: string) returns (suppressed: bool)
      ensures suppressed == Tables.IsSuppressed(session.tables.suppressions, workspace, email)
    {
      suppressed := Tables.IsSuppressed(session.tables.suppressions, workspace, email);
    }
  }

  // ---------- The feed of classified replies ----------

  function FeedRows(db: Db, workspace: Id, locked: set<Id>): map<Id, OutboxEvent>
    requires Replies.DistinctIds(db.events)
  {
    map e | e in db.events && Replies.InFeed(db, workspace, e) && e.id !in locked :: e.id := e
  }

  function FeedKeys(rows: map<Id, OutboxEvent>): SortKeys {
    map id | id in rows :: (rows[id].createdAt, id)
  }

  /** The first rows of the feed, in order, are a batch. */
  lemma {:induction false} FirstInFeedAreABatch(
    db: Db, workspace: Id, limit: nat, locked: set<Id>, ids: seq<Id>, batch: seq<OutboxEvent>)
    requires Replies.DistinctIds(db.events)
    requires var rows := FeedRows(db, workspace, locked);
      && AreFirst(FeedKeys(rows), limit, ids)
      && |batch| == |ids| && forall i :: 0 <= i < |ids| ==> batch[i] == rows[ids[i]]
    ensures Replies.IsFeedClaim(db, workspace, limit, locked, batch)
  {
    var rows := FeedRows(db, workspace, locked);
    var keys := FeedKeys(rows);
    forall i, j | 0 <= i < j < |batch| ensures Replies.Before(batch[i], batch[j]) {
      assert NotAfter(keys[ids[i]], keys[ids[j]]);
    }
    forall e | Replies.InFeed(db, workspace, e) && e.id !in locked && e !in batch
      ensures |batch| == limit && forall b :: b in batch ==> Replies.Before(b, e)
    {
      LeftOutComesAfter(db, workspace, limit, locked, ids, batch, e);
    }
  }

  lemma {:induction false} LeftOutComesAfter(
    db: Db, workspace: Id, limit: nat, locked: set<Id>, ids: seq<Id>, batch: seq<OutboxEvent>, e: OutboxEvent)
    requires Replies.DistinctIds(db.events)
    requires var rows := FeedRows(db, workspace, locked);
      && AreFirst(FeedKeys(rows), limit, ids)
      && |batch| == |ids| && forall i :: 0 <= i < |ids| ==> batch[i] == rows[ids[i]]
    requires Replies.InFeed(db, workspace, e) && e.id !in locked && e !in batch
    ensures |batch| == limit && forall b :: b in batch ==> Replies.Before(b, e)
  {
    var rows := FeedRows(db, workspace, locked);
    var keys := FeedKeys(rows);
    assert e.id in rows && rows[e.id] == e;
    assert e.id in keys;
    forall k | 0 <= k < |ids| ensures ids[k] != e.id && Replies.Before(batch[k], e) {
      assert batch[k] == rows[ids[k]];
      assert e.id !in ids ==> NotAfter(keys[ids[k]], keys[e.id]);
    }
  }

  /** A classified reply of the workspace that no consumer has acknowledged. */
  predicate Waits(db: Db, workspace: Id, e: OutboxEvent) {
    e in db.events && e.workspace == workspace && e.kind.ReplyClassified? && e.id !in db.processed
  }

  /** Oldest first, and by identifier among those of one time. */
  predicate Older(a: OutboxEvent, b: OutboxEvent) {
    if a.createdAt == b.createdAt then a.id < b.id else a.createdAt < b.createdAt
  }

  /** Up to `limit` waiting events that nobody holds, the oldest first; none left out is older than one taken. */
  ghost predicate TakesOldest(db: Db, workspace: Id, limit: nat, locked: set<Id>, batch: seq<OutboxEvent>) {
    && |batch| <= limit
    && (forall i :: 0 <= i < |batch| ==> Waits(db, workspace, batch[i]) && batch[i].id !in locked)
    && (forall i, j :: 0 <= i < j < |batch| ==> Older(batch[i], batch[j]))
    && (forall e :: Waits(db, workspace, e) && e.id !in locked && e !in batch ==>
          |batch| == limit && forall i :: 0 <= i < |batch| ==> Older(batch[i], e))
  }

  lemma {:induction false} FeedByColumns(db: Db, workspace: Id, limit: nat, locked: set<Id>, batch: seq<OutboxEvent>)
    ensures Replies.IsFeedClaim(db, workspace, limit, locked, batch) <==>
      TakesOldest(db, workspace, limit, locked, batch)
  {
    assert forall e :: Replies.InFeed(db, workspace, e) <==> Waits(db, workspace, e);
    assert forall a, b :: Replies.Before(a, b) <==> Older(a, b);
    assert forall i :: 0 <= i < |batch| ==> batch[i] in batch;
  }

  class ClassifiedReplyFeed {
    const session: Session

    constructor (session: Session)
      ensures this.session == session
    {
      this.session := session;
    }

    /** `locked` are the events other consumers hold, which the query skips. */
    method Claim(workspace: Id, limit: nat, locked: set<Id>) returns (batch: seq<OutboxEvent>)
      requires Replies.DistinctIds(session.tables.events)
      ensures Replies.IsFeedClaim(session.tables, workspace, limit, locked, batch)
      ensures TakesOldest(session.tables, workspace, limit, locked, batch)
    {
      var rows := FeedRows(session.tables, workspace, locked);
      var ids := OrderBy(FeedKeys(rows), limit);
      batch := seq(|ids|, i requires 0 <= i < |ids| && ids[i] in rows => rows[ids[i]]);
      FirstInFeedAreABatch(session.tables, workspace, limit, locked, ids, batch);
      FeedByColumns(session.tables, workspace, limit, locked, batch);
    }

    /** Acknowledging twice is acknowledging once. */
    method Acknowledge(reply: Replies.ClassifiedReply)
      modifies session
      ensures session.tables == old(session.tables).(processed := old(session.tables).processed + {reply.eventId})
    {
      session.tables := session.tables.(processed := session.tables.processed + {reply.eventId});
    }
  }
}
