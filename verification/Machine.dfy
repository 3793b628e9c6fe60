/**
 The whole pipeline as one transactional state machine. A state holds the tables, the clock, and a
 log of what no table records: who claimed which job, and which step went out when. An operation is
 one committed transaction, with everything the outside world decides written into it.
 */
module Machine {
  import opened Base
  import opened CampaignDomain
  import opened SendQueue
  import opened Sending
  import opened Tables
  import Commands
  import Inbox
  import Replies

  /** What became of a claim. `Refused` is the by-id path finding the job no longer running. */
  datatype Fate = Outstanding | Refused | Settled(outcome: Outcome)

  /** A claim a worker took away, with the snapshot it holds. A crashed worker's token stays outstanding. */
  datatype Token = Token(claim: ClaimedSendJob, claimedAt: Time, fate: Fate)

  /** One committed campaign send. */
  datatype SendRecord = SendRecord(position: nat, job: Id, outbound: Id, stamp: Time)

  /** The jobs of a lead, by step, and its sends, in commit order. */
  datatype LeadLog = LeadLog(jobs: seq<Id>, sends: seq<SendRecord>)

  /** When a job first fell due, and every claim of it. */
  datatype JobLog = JobLog(firstDue: Time, tokens: seq<Token>)

  datatype Sys = Sys(db: Db, clock: Time, leadLogs: map<Id, LeadLog>, jobLogs: map<Id, JobLog>)

  datatype Op =
    | CreateCampaign(workspace: Id, mailbox: Id, name: string, drafts: seq<StepDraft>, moment: Time)
    | AddLeads(campaign: Id, emails: seq<string>, moment: Time)
    | StartCampaign(campaign: Id, pending: seq<Lead>, moment: Time)
    | ClaimJobs(workspace: Id, worker: Id, chosen: set<Id>, moment: Time)
    | ProcessToken(job: Id, index: nat, byId: bool, moment: Time, env: SendEnv)
    | SendTestEmail(workspace: Id, toEmail: string, subject: string, body: string, env: SendEnv)
    | PollInbox(workspace: Id, candidates: seq<Outbound>, inputs: seq<Inbox.PollInput>, cursor: string)
    | HandleReplies(workspace: Id, batch: seq<OutboxEvent>, moment: Time)

  /** Empty tables around any set of configured mailboxes. */
  predicate Init(s: Sys) {
    && s.db == Db(s.db.mailboxes, map[], map[], map[], {}, map[], map[], map[], [], s.db.nextId)
    && s.leadLogs == map[]
    && s.jobLogs == map[]
  }

  /** The claim a processing call works from: the worker's snapshot, or the row as it is now. */
  function ClaimInHand(s: Sys, job: Id, index: nat, byId: bool): Option<ClaimedSendJob>
    requires job in s.jobLogs && index < |s.jobLogs[job].tokens|
  {
    if !byId then Some(s.jobLogs[job].tokens[index].claim)
    else if job in s.db.jobs && s.db.jobs[job].status.Running? then Some(Claimed(s.db.jobs[job]))
    else None
  }

  predicate InOrder(clock: Time, moment: Time, env: SendEnv) {
    clock <= moment <= env.checkedAt <= env.stampedAt
  }

  ghost predicate Enabled(s: Sys, op: Op) {
    match op
    case CreateCampaign(_, _, _, _, moment) => s.clock <= moment
    case AddLeads(_, _, moment) => s.clock <= moment
    case StartCampaign(campaign, pending, moment) =>
      s.clock <= moment && Commands.IsPendingList(s.db.leads, campaign, pending)
    case ClaimJobs(workspace, _, chosen, moment) =>
      s.clock <= moment && forall id :: id in chosen ==> id in s.db.jobs && Claimable(s.db.jobs[id], workspace, moment)
    case ProcessToken(job, index, _, moment, env) =>
      && InOrder(s.clock, moment, env)
      && job in s.jobLogs && index < |s.jobLogs[job].tokens| && s.jobLogs[job].tokens[index].fate.Outstanding?
    case SendTestEmail(_, _, _, _, env) => InOrder(s.clock, s.clock, env)
    case PollInbox(workspace, candidates, inputs, _) =>
      && workspace in s.db.mailboxes
      && Inbox.IsUnansweredList(s.db, s.db.mailboxes[workspace].id, candidates)
    case HandleReplies(workspace, batch, moment) => s.clock <= moment && Replies.IsBatch(s.db, workspace, batch)
  }

  /** A first-step job for each lead of a list, with consecutive identifiers. */
  function LogFirstJobs(logs: map<Id, LeadLog>, leads: seq<Lead>, firstJob: Id): map<Id, LeadLog> {
    if leads == [] then logs
    else
      var last := |leads| - 1;
      LogFirstJobs(logs, leads[..last], firstJob)[leads[last].id := LeadLog([firstJob + last], [])]
  }

  function LogLeads(logs: map<Id, LeadLog>, leads: seq<Lead>): map<Id, LeadLog> {
    if leads == [] then logs
    else
      var last := leads[|leads| - 1];
      LogLeads(logs, leads[..|leads| - 1])[last.id := LeadLog([], [])]
  }

  /** A job that had no log starts one with the due time it was created with. */
  function LogJobs(logs: map<Id, JobLog>, jobs: JobTable): map<Id, JobLog> {
    map id | id in logs.Keys + jobs.Keys :: if id in logs then logs[id] else JobLog(jobs[id].scheduledAt, [])
  }

  function LogClaims(logs: map<Id, JobLog>, jobs: JobTable, chosen: set<Id>, moment: Time): map<Id, JobLog> {
    map id | id in logs ::
      if id in chosen && id in jobs then
        logs[id].(tokens := logs[id].tokens + [Token(Claimed(jobs[id]), moment, Outstanding)])
      else logs[id]
  }

  function LogFate(logs: map<Id, JobLog>, job: Id, index: nat, fate: Fate): map<Id, JobLog>
    requires job in logs && index < |logs[job].tokens|
  {
    var tokens := logs[job].tokens;
    logs[job := logs[job].(tokens := tokens[index := tokens[index].(fate := fate)])]
  }

  /** The lead's log after `claim` went out as message `outbound`; `next` is the follow-up's job, if any. */
  function LogSend(logs: map<Id, LeadLog>, claim: ClaimedSendJob, outbound: Id, stamp: Time, next: seq<Id>)
    : map<Id, LeadLog>
  {
    if claim.lead !in logs then logs
    else
      var log := logs[claim.lead];
      var record := SendRecord(claim.payload.stepPosition, claim.id, outbound, stamp);
      logs[claim.lead := LeadLog(log.jobs + next, log.sends + [record])]
  }

  /** The state once a claim in hand has been processed. An exception rolls everything back. */
  function AfterProcessing(s: Sys, job: Id, index: nat, claim: ClaimedSendJob, moment: Time, env: SendEnv): Sys
    requires job in s.jobLogs && index < |s.jobLogs[job].tokens|
  {
    match ProcessClaimed(s.db, claim, moment, env)
    case Raised(_) => s
    case Processed(db, outcome) =>
      var fates := LogFate(s.jobLogs, job, index, Settled(outcome));
      if !outcome.Sent? then s.(db := db, jobLogs := fates)
      else
        // The message took the next identifier, and the follow-up's job the one after it.
        var next := if s.db.nextId + 1 in db.jobs then [s.db.nextId + 1] else [];
        s.(db := db,
           leadLogs := LogSend(s.leadLogs, claim, s.db.nextId, env.stampedAt, next),
           jobLogs := LogJobs(fates, db.jobs))
  }

  function Process(s: Sys, job: Id, index: nat, byId: bool, moment: Time, env: SendEnv): Sys
    requires job in s.jobLogs && index < |s.jobLogs[job].tokens|
  {
    var late := s.(clock := env.stampedAt);
    match ClaimInHand(s, job, index, byId)
    case None => late.(jobLogs := LogFate(s.jobLogs, job, index, Refused))
    case Some(claim) => AfterProcessing(late, job, index, claim, moment, env)
  }

  function ApplyAddLeads(s: Sys, campaign: Id, emails: seq<string>, moment: Time): Sys {
    if campaign !in s.db.campaigns then s.(clock := moment)
    else
      var added := Commands.LeadsToAdd(s.db, s.db.campaigns[campaign], emails, moment);
      ApplyAddedRows(s, campaign, added, |emails|, moment)
  }

  function ApplyAddedRows(s: Sys, campaign: Id, added: seq<Lead>, given: nat, moment: Time): Sys
    requires campaign in s.db.campaigns
  {
    match Commands.AddLeadRows(s.db, campaign, added, given, moment)
    case Failure(_) => s.(clock := moment)
    case Success((db, result)) =>
      s.(db := db,
         clock := moment,
         leadLogs := if result.scheduled == 0 then LogLeads(s.leadLogs, added)
                     else LogFirstJobs(s.leadLogs, added, s.db.nextId + |added|),
         jobLogs := LogJobs(s.jobLogs, db.jobs))
  }

  function ApplyStart(s: Sys, campaign: Id, pending: seq<Lead>, moment: Time): Sys {
    match Commands.StartCampaign(s.db, campaign, pending, moment)
    case Failure(_) => s.(clock := moment)
    case Success((db, scheduled)) =>
      s.(db := db,
         clock := moment,
         leadLogs := if scheduled == 0 then s.leadLogs else LogFirstJobs(s.leadLogs, pending, s.db.nextId),
         jobLogs := LogJobs(s.jobLogs, db.jobs))
  }

  function ApplyClaim(s: Sys, worker: Id, chosen: set<Id>, moment: Time): Sys {
    var jobs := ClaimRows(s.db.jobs, chosen, worker, moment);
    s.(db := s.db.(jobs := jobs), clock := moment, jobLogs := LogClaims(s.jobLogs, jobs, chosen, moment))
  }

  ghost function Apply(s: Sys, op: Op): Sys
    requires Enabled(s, op)
  {
    match op
    case CreateCampaign(workspace, mailbox, name, drafts, moment) =>
      (match Commands.CreateCampaign(s.db, workspace, mailbox, name, drafts, moment)
       case Failure(_) => s.(clock := moment)
       case Success(db) => s.(db := db, clock := moment))
    case AddLeads(campaign, emails, moment) => ApplyAddLeads(s, campaign, emails, moment)
    case StartCampaign(campaign, pending, moment) => ApplyStart(s, campaign, pending, moment)
    case ClaimJobs(_, worker, chosen, moment) => ApplyClaim(s, worker, chosen, moment)
    case ProcessToken(job, index, byId, moment, env) => Process(s, job, index, byId, moment, env)
    case SendTestEmail(workspace, toEmail, subject, body, env) =>
      (match SendEmail(s.db, workspace, toEmail, subject, body, env)
       case Failure(_) => s.(clock := env.stampedAt)
       case Success((db, _)) => s.(db := db, clock := env.stampedAt))
    case PollInbox(workspace, candidates, inputs, cursor) =>
      s.(db := Inbox.Poll(s.db, workspace, s.db.mailboxes[workspace].id, candidates, inputs, cursor).0)
    case HandleReplies(_, batch, moment) => s.(db := Replies.HandleAll(s.db, batch, moment), clock := moment)
  }

  /** Whether each operation of a run is enabled when its turn comes. */
  ghost predicate IsRun(s: Sys, ops: seq<Op>)
    decreases |ops|
  {
    ops == [] || (Enabled(s, ops[0]) && IsRun(Apply(s, ops[0]), ops[1..]))
  }

  ghost function Exec(s: Sys, ops: seq<Op>): Sys
    requires IsRun(s, ops)
    decreases |ops|
  {
    if ops == [] then s else Exec(Apply(s, ops[0]), ops[1..])
  }
}
