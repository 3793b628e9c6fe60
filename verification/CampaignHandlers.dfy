/** The campaign handlers, statement by statement, against the transitions they commit. */
module CampaignHandlers {
  import opened Base
  import opened CampaignDomain
  import opened MessagingHandlers
  import opened Repositories
  import opened SendQueue
  import opened Sending
  import opened Tables
  import Commands
  import Replies

  /** Writing the progress of one stored lead is replacing its row. */
  lemma {:induction false} UpdateOne(leads: map<Id, Lead>, lead: Lead)
    requires lead.id in leads && WithProgressOf(leads[lead.id], lead) == lead
    ensures UpdateLeads(leads, [lead]) == Some(leads[lead.id := lead])
  {
    assert UpdateLeads(leads, [lead][..0]) == Some(leads);
  }

  // ---------- Processing a claimed job ----------

  class ProcessClaimedSendJobHandler {
    const session: Session
    const campaigns: CampaignRepository
    const leads: LeadRepository
    const jobs: SendJobRepository
    const dispatch: EmailDispatch

    predicate Valid() {
      && campaigns.session == session && leads.session == session && jobs.session == session
      && dispatch.session == session && dispatch.Valid()
    }

    constructor (session: Session)
      ensures this.session == session && Valid()
    {
      this.session := session;
      campaigns := new CampaignRepository(session);
      leads := new LeadRepository(session);
      jobs := new SendJobRepository(session);
      dispatch := new EmailDispatch(session);
    }

    /** A failure is an exception, which the session rolls back. */
    method Execute(job: ClaimedSendJob, moment: Time, env: SendEnv) returns (r: Result<Outcome, DomainError>)
      requires Valid() && PrimaryKeys(session.tables)
      modifies session
      ensures ProcessClaimed(old(session.tables), job, moment, env) ==
        match r case Success(outcome) => Processed(session.tables, outcome) case Failure(error) => Raised(error)
    {
      var campaign := campaigns.Get(job.payload.campaign);
      var lead := leads.Get(job.lead);
      if campaign.None? || lead.None? || !campaign.value.AcceptsSend(lead.value, job.payload.stepPosition) {
        jobs.Cancel(job.id, moment);
        assert session.tables.jobs == SendQueue.Cancel(old(session.tables).jobs, job.id, moment);
        return Success(Outcome.Cancelled);
      }
      var result := dispatch.Dispatch(job.workspace, job.payload.toEmail, job.payload.subject, job.payload.body, env);
      r := Settle(job, campaign.value, lead.value, moment, result);
    }

    /** The four results of a dispatch. */
    method Settle(job: ClaimedSendJob, campaign: Campaign, lead: Lead, moment: Time, result: DispatchResult)
      returns (r: Result<Outcome, DomainError>)
      requires Valid() && Accepts(session.tables, job)
      requires campaign == session.tables.campaigns[job.payload.campaign] && lead == session.tables.leads[job.lead]
      requires lead.id == job.lead
      modifies session
      ensures Sending.Settle(old(session.tables), job, moment, result) ==
        match r case Success(outcome) => Processed(session.tables, outcome) case Failure(error) => Raised(error)
    {
      match result
      case DispatchSent(outbound, sentAt) =>
        r := SettleSent(job, campaign, lead, moment, outbound, sentAt);
      case DispatchDeferred(retryAt, reason) =>
        jobs.Release(job.id, retryAt, reason, moment);
        assert session.tables.jobs == SendQueue.Release(old(session.tables).jobs, job.id, retryAt, reason, moment);
        return Success(Deferred);
      case DispatchSuppressed =>
        UpdateLead(campaign.FailLead(lead, StopReason.Suppressed, moment).value);
        jobs.Cancel(job.id, moment);
        assert session.tables.jobs == SendQueue.Cancel(old(session.tables).jobs, job.id, moment);
        return Success(Outcome.Suppressed);
      case DispatchFailed(error) =>
        var retryAt := NextRetryAt(job.attempts, moment);
        if retryAt.Some? {
          jobs.RetryLater(job.id, retryAt.value, error, moment);
          assert session.tables.jobs ==
            SendQueue.RetryLater(old(session.tables).jobs, job.id, retryAt.value, error, moment);
          return Success(Retrying);
        }
        UpdateLead(campaign.FailLead(lead, SendFailed, moment).value);
        jobs.Fail(job.id, error, moment);
        assert session.tables.jobs == SendQueue.Fail(old(session.tables).jobs, job.id, error, moment);
        return Success(Outcome.Failed);
    }

    /** The message went out: the lead advances, the job is done, and the follow-up, if any, is queued. */
    method SettleSent(job: ClaimedSendJob, campaign: Campaign, lead: Lead, moment: Time, outbound: Id, sentAt: Time)
      returns (r: Result<Outcome, DomainError>)
      requires Valid() && Accepts(session.tables, job)
      requires campaign == session.tables.campaigns[job.payload.campaign] && lead == session.tables.leads[job.lead]
      requires lead.id == job.lead
      modifies session
      ensures Sending.Settle(old(session.tables), job, moment, DispatchSent(outbound, sentAt)) ==
        match r case Success(outcome) => Processed(session.tables, outcome) case Failure(error) => Raised(error)
    {
      var recorded := campaign.RecordSent(lead, job.payload.stepPosition, sentAt, session.tables.nextId);
      if recorded.Failure? { return Failure(recorded.error); }
      var (advanced, nextJob) := recorded.value;
      UpdateLead(advanced);
      jobs.Complete(job.id, outbound, moment);
      ghost var completed := SendQueue.Complete(old(session.tables).jobs, job.id, outbound, moment);
      assert session.tables.jobs == completed;
      if nextJob.Some? {
        jobs.AddMany([nextJob.value]);
        assert InsertJobs(completed, [nextJob.value][..0]) == completed;
        session.tables := session.tables.(nextId := session.tables.nextId + 1);
      }
      return Success(Outcome.Sent);
    }

    method UpdateLead(lead: Lead)
      requires Valid() && lead.id in session.tables.leads
      requires WithProgressOf(session.tables.leads[lead.id], lead) == lead
      modifies session
      ensures session.tables == old(session.tables).(leads := old(session.tables).leads[lead.id := lead])
    {
      UpdateOne(session.tables.leads, lead);
      var found := leads.UpdateMany([lead]);
      assert found;
    }
  }

  class ProcessSendJobByIdHandler {
    const session: Session
    const jobs: SendJobRepository
    const process: ProcessClaimedSendJobHandler

    predicate Valid() {
      jobs.session == session && process.session == session && process.Valid()
    }

    constructor (session: Session)
      ensures this.session == session && Valid()
    {
      this.session := session;
      jobs := new SendJobRepository(session);
      process := new ProcessClaimedSendJobHandler(session);
    }

    /** `None` is the refusal: the job is no longer running. Otherwise the row is read afresh and processed. */
    method Execute(id: Id, workspace: Id, moment: Time, env: SendEnv)
      returns (r: Option<Result<Outcome, DomainError>>)
      requires Valid() && PrimaryKeys(session.tables)
      modifies session
      ensures var before := old(session.tables);
        && (r.Some? <==> id in before.jobs && before.jobs[id].workspace == workspace && before.jobs[id].status.Running?)
        && (r.None? ==> session.tables == before)
        && (r.Some? ==>
              ProcessClaimed(before, Claimed(before.jobs[id]), moment, env) ==
                match r.value
                case Success(outcome) => Processed(session.tables, outcome)
                case Failure(error) => Raised(error))
    {
      var job := jobs.GetClaimed(id, workspace);
      if job.None? { return None; }
      var outcome := process.Execute(job.value, moment, env);
      return Some(outcome);
    }
  }

  // ---------- Commands ----------

  class AddLeadsHandler {
    const session: Session
    const campaigns: CampaignRepository
    const leads: LeadRepository
    const jobs: SendJobRepository

    predicate Valid() {
      campaigns.session == session && leads.session == session && jobs.session == session
    }

    constructor (session: Session)
      ensures this.session == session && Valid()
    {
      this.session := session;
      campaigns := new CampaignRepository(session);
      leads := new LeadRepository(session);
      jobs := new SendJobRepository(session);
    }

    method Execute(id: Id, emails: seq<string>, moment: Time) returns (r: Result<Commands.AddLeadsResult, DomainError>)
      requires Valid() && PrimaryKeys(session.tables)
      modifies session
      ensures match r
        case Success(result) =>
          Commands.AddLeads(old(session.tables), id, emails, moment) == Success((session.tables, result))
        case Failure(error) => Commands.AddLeads(old(session.tables), id, emails, moment) == Failure(error)
    {
      var campaign := campaigns.Get(id);
      if campaign.None? { return Failure(CampaignNotFound); }
      var known := leads.Emails(id);
      var added := AddLeads(campaign.value, emails, known, session.tables.nextId, moment);
      assert added == Commands.LeadsToAdd(session.tables, campaign.value, emails, moment);
      r := Insert(campaign.value, added, |emails|, moment);
    }

    method Insert(campaign: Campaign, added: seq<Lead>, given: nat, moment: Time)
      returns (r: Result<Commands.AddLeadsResult, DomainError>)
      requires Valid() && campaign.id in session.tables.campaigns && session.tables.campaigns[campaign.id] == campaign
      modifies session
      ensures match r
        case Success(result) =>
          Commands.AddLeadRows(old(session.tables), campaign.id, added, given, moment) ==
            Success((session.tables, result))
        case Failure(error) =>
          Commands.AddLeadRows(old(session.tables), campaign.id, added, given, moment) == Failure(error)
    {
      session.tables := session.tables.(nextId := session.tables.nextId + |added|);
      leads.AddMany(added);
      if !campaign.IsActive() || added == [] {
        return Success(Commands.AddLeadsResult(|added|, given - |added|, 0));
      }
      var pairs := ScheduleLeads(campaign, added, moment, session.tables.nextId);
      r := Schedule(pairs, |added|, given);
    }

    /** The rows are in; now their progress and their first jobs. */
    method Schedule(pairs: Result<(seq<Lead>, seq<SendJob>), DomainError>, added: nat, given: nat)
      returns (r: Result<Commands.AddLeadsResult, DomainError>)
      requires Valid()
      modifies session
      ensures match r
        case Success(result) =>
          Commands.ScheduleAdded(old(session.tables), added, given, pairs) == Success((session.tables, result))
        case Failure(error) => Commands.ScheduleAdded(old(session.tables), added, given, pairs) == Failure(error)
    {
      if pairs.Failure? { return Failure(pairs.error); }
      var found := leads.UpdateMany(pairs.value.0);
      if !found { return Failure(LeadRowMissing); }
      session.tables := session.tables.(nextId := session.tables.nextId + |pairs.value.1|);
      jobs.AddMany(pairs.value.1);
      return Success(Commands.AddLeadsResult(added, given - added, |pairs.value.0|));
    }
  }

  class StartCampaignHandler {
    const session: Session
    const campaigns: CampaignRepository
    const leads: LeadRepository
    const jobs: SendJobRepository

    predicate Valid() {
      campaigns.session == session && leads.session == session && jobs.session == session
    }

    constructor (session: Session)
      ensures this.session == session && Valid()
    {
      this.session := session;
      campaigns := new CampaignRepository(session);
      leads := new LeadRepository(session);
      jobs := new SendJobRepository(session);
    }

    method Execute(id: Id, moment: Time) returns (r: Result<nat, DomainError>, ghost pending: seq<Lead>)
      requires Valid() && PrimaryKeys(session.tables)
      modifies session
      ensures var before := old(session.tables);
        id in before.campaigns && !before.campaigns[id].IsActive() ==> Commands.IsPendingList(before.leads, id, pending)
      ensures match r
        case Success(scheduled) =>
          Commands.StartCampaign(old(session.tables), id, pending, moment) == Success((session.tables, scheduled))
        case Failure(error) => Commands.StartCampaign(old(session.tables), id, pending, moment) == Failure(error)
    {
      pending := [];
      var found := campaigns.Get(id);
      if found.None? { return Failure(CampaignNotFound), pending; }
      var campaign := found.value;
      if campaign.IsActive() { return Success(0), pending; }
      var listed := leads.ListPending(id);
      pending := listed;
      if listed == [] { return Failure(CampaignHasNoLeads), pending; }
      r := Activate(campaign, listed, moment);
    }

    method Activate(campaign: Campaign, pending: seq<Lead>, moment: Time) returns (r: Result<nat, DomainError>)
      requires Valid() && campaign.id in session.tables.campaigns && session.tables.campaigns[campaign.id] == campaign
      requires !campaign.IsActive() && pending != []
      modifies session
      ensures match r
        case Success(scheduled) =>
          Commands.StartCampaign(old(session.tables), campaign.id, pending, moment) ==
            Success((session.tables, scheduled))
        case Failure(error) =>
          Commands.StartCampaign(old(session.tables), campaign.id, pending, moment) == Failure(error)
    {
      var started := campaign.Start(pending, moment, session.tables.nextId);
      if started.Failure? { return Failure(started.error); }
      var updated := campaigns.UpdateStatus(started.value.0);
      var written := leads.UpdateMany(started.value.1);
      if !written { return Failure(LeadRowMissing); }
      session.tables := session.tables.(nextId := session.tables.nextId + |started.value.2|);
      jobs.AddMany(started.value.2);
      return Success(|started.value.1|);
    }
  }

  // ---------- Consuming classified replies ----------

  class HandleClassifiedRepliesHandler {
    const session: Session
    const feed: ClassifiedReplyFeed
    const campaigns: CampaignRepository
    const leads: LeadRepository
    const jobs: SendJobRepository

    predicate Valid() {
      feed.session == session && campaigns.session == session && leads.session == session && jobs.session == session
    }

    constructor (session: Session)
      ensures this.session == session && Valid()
    {
      this.session := session;
      feed := new ClassifiedReplyFeed(session);
      campaigns := new CampaignRepository(session);
      leads := new LeadRepository(session);
      jobs := new SendJobRepository(session);
    }

    method RunOnce(workspace: Id, limit: nat, locked: set<Id>, moment: Time)
      returns (stopped: seq<Lead>, ghost batch: seq<OutboxEvent>)
      requires Valid() && PrimaryKeys(session.tables)
      requires LinksUnique(session.tables.jobs) && Replies.DistinctIds(session.tables.events)
      modifies session
      ensures Replies.IsFeedClaim(old(session.tables), workspace, limit, locked, batch)
      ensures session.tables == Replies.HandleAll(old(session.tables), batch, moment)
      ensures stopped == Replies.StoppedIn(old(session.tables), batch, moment)
    {
      ghost var before := session.tables;
      var claimed := feed.Claim(workspace, limit, locked);
      batch := claimed;
      stopped := [];
      for n := 0 to |claimed|
        invariant session.tables == Replies.HandleAll(before, claimed[..n], moment)
        invariant stopped == Replies.StoppedIn(before, claimed[..n], moment)
        invariant PrimaryKeys(session.tables) && LinksUnique(session.tables.jobs)
      {
        Replies.OneMoreHandled(before, claimed, n, moment);
        var reply := Replies.ToReply(claimed[n]);
        var lead := StopLead(reply, moment);
        if lead.Some? { stopped := stopped + [lead.value]; }
        feed.Acknowledge(reply);
      }
      assert claimed[..|claimed|] == claimed;
    }

    method StopLead(reply: Replies.ClassifiedReply, moment: Time) returns (stopped: Option<Lead>)
      requires Valid() && PrimaryKeys(session.tables) && LinksUnique(session.tables.jobs)
      modifies session
      ensures (session.tables, stopped) == Replies.StopLead(old(session.tables), reply, moment)
      ensures PrimaryKeys(session.tables) && LinksUnique(session.tables.jobs)
    {
      if reply.matched.None? { return None; }
      var leadId := jobs.FindLeadIdByOutboundMessage(reply.matched.value);
      if leadId.None? { return None; }
      var lead := leads.Get(leadId.value);
      if lead.None? { return None; }
      var campaign := campaigns.Get(lead.value.campaign);
      if campaign.None? { return None; }
      var result := campaign.value.StopOnReply(lead.value, reply.intent, moment);
      if result.Failure? { return None; }
      // The same object back means the lead was stopped already.
      if lead.value.IsStopped() { return None; }
      UpdateOne(session.tables.leads, result.value);
      var found := leads.UpdateMany([result.value]);
      jobs.CancelPendingForLead(lead.value.id, moment);
      assert session.tables.jobs == SendQueue.CancelPendingForLead(old(session.tables).jobs, lead.value.id, moment);
      KeysAfterStop(old(session.tables), leadId.value, reply.intent, moment);
      return Some(result.value);
    }
  }

  lemma {:induction false} KeysAfterStop(db: Db, l: Id, intent: Intent, moment: Time)
    requires PrimaryKeys(db) && LinksUnique(db.jobs)
    ensures var after := Replies.StopFoundLead(db, l, intent, moment).0;
      PrimaryKeys(after) && LinksUnique(after.jobs)
  {
    var after := Replies.StopFoundLead(db, l, intent, moment).0;
    assert after.jobs.Keys == db.jobs.Keys;
    forall j | j in after.jobs ensures after.jobs[j].outbound == db.jobs[j].outbound && after.jobs[j].id == j {
    }
  }
}
