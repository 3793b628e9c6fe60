/** What every reachable state of the pipeline satisfies. */
module Invariant {
  import opened Base
  import opened CampaignDomain
  import opened Machine
  import opened SendQueue
  import opened Sending
  import opened Tables
  import Text

  // ---------- Claims of one job ----------

  /** A claim counts against a job unless it ended in a deferral. */
  predicate Counts(token: Token) {
    token.fate != Settled(Outcome.Deferred)
  }

  predicate IsFinal(token: Token) {
    token.fate in {Settled(Outcome.Sent), Settled(Outcome.Suppressed), Settled(Outcome.Failed)}
  }

  function Counted(tokens: seq<Token>): nat {
    if tokens == [] then 0
    else Counted(tokens[..|tokens| - 1]) + if Counts(tokens[|tokens| - 1]) then 1 else 0
  }

  function Deferrals(tokens: seq<Token>): nat {
    if tokens == [] then 0
    else Deferrals(tokens[..|tokens| - 1]) + if Counts(tokens[|tokens| - 1]) then 0 else 1
  }

  function Retries(tokens: seq<Token>): nat {
    if tokens == [] then 0
    else Retries(tokens[..|tokens| - 1]) + if tokens[|tokens| - 1].fate == Settled(Retrying) then 1 else 0
  }

  function Finals(tokens: seq<Token>): nat {
    if tokens == [] then 0
    else Finals(tokens[..|tokens| - 1]) + if IsFinal(tokens[|tokens| - 1]) then 1 else 0
  }

  /** The rank of a claim among the claims that count. */
  function Rank(tokens: seq<Token>, i: nat): nat
    requires i < |tokens|
  {
    Counted(tokens[..i + 1])
  }

  /** A claim's snapshot is at least its rank among the claims that count; a retried one ranks below the maximum. */
  predicate RankedAt(tokens: seq<Token>, i: nat)
    requires i < |tokens|
  {
    && (tokens[i].fate.Outstanding? ==> Rank(tokens, i) <= tokens[i].claim.attempts)
    && (tokens[i].fate == Settled(Retrying) ==> Rank(tokens, i) < MAX_SEND_ATTEMPTS)
  }

  predicate Ranked(tokens: seq<Token>) {
    forall i {:trigger RankedAt(tokens, i)} :: 0 <= i < |tokens| ==> RankedAt(tokens, i)
  }

  // ---------- One lead ----------

  predicate StateOk(lead: Lead, campaign: Campaign) {
    && (lead.state.Pending? <==> campaign.status.Draft?)
    && (lead.state.Pending? || lead.state.Scheduled? ==> lead.stepsSent == 0)
    && (lead.state.Sent? ==> 1 <= lead.stepsSent < |campaign.steps|)
    && (lead.state.Done? ==> lead.stepsSent == |campaign.steps|)
    && lead.stepsSent <= |campaign.steps|
  }

  predicate StopOk(lead: Lead) {
    && (lead.stopReason.Some? <==> lead.IsStopped())
    && (lead.state.Paused? <==> lead.stopReason in {Some(Replied), Some(Unsubscribed)})
    && (lead.replyIntent.Some? <==> lead.stopReason in {Some(Replied), Some(Unsubscribed), Some(Bounced)})
    && (lead.replyIntent == Some(Bounce) <==> lead.stopReason == Some(Bounced))
    && (lead.replyIntent == Some(Unsubscribe) <==> lead.stopReason == Some(Unsubscribed))
    && (lead.replyIntent.Some? ==> 1 <= lead.stepsSent)
  }

  function JobCount(lead: Lead, campaign: Campaign): nat {
    if lead.state.Pending? then 0
    else if lead.stepsSent < |campaign.steps| then lead.stepsSent + 1
    else lead.stepsSent
  }

  predicate SendOk(campaign: Campaign, log: LeadLog, clock: Time, k: nat)
    requires k < |log.sends| <= |log.jobs| <= |campaign.steps|
  {
    && log.sends[k].position == k + 1
    && log.sends[k].job == log.jobs[k]
    && log.sends[k].stamp <= clock
    && (0 < k ==> log.sends[k - 1].stamp + campaign.steps[k].delaySeconds * SECOND <= log.sends[k].stamp)
  }

  /** Steps 1, 2, ..., once each and in order, each at least its delay after the one before it. */
  predicate SendsOk(campaign: Campaign, log: LeadLog, clock: Time) {
    && |log.sends| <= |log.jobs| <= |campaign.steps|
    && forall k {:trigger SendOk(campaign, log, clock, k)} :: 0 <= k < |log.sends| ==> SendOk(campaign, log, clock, k)
  }

  predicate LeadOk(lead: Lead, campaign: Campaign, log: LeadLog, clock: Time) {
    && campaign.WellFormed()
    && lead.campaign == campaign.id
    && lead.workspace == campaign.workspace
    && StateOk(lead, campaign)
    && StopOk(lead)
    && |log.jobs| == JobCount(lead, campaign)
    && |log.sends| == lead.stepsSent
    && SendsOk(campaign, log, clock)
    && lead.email != "" && Text.NormalizeEmail(lead.email) == lead.email
  }

  // ---------- One job ----------

  /** What the job of a step still to be sent, or already sent, looks like. */
  predicate StatusOk(job: SendJob, lead: Lead, log: LeadLog) {
    var position := job.payload.stepPosition;
    if 1 <= position <= lead.stepsSent && position <= |log.sends| then
      && (job.status.Done? || job.status.Cancelled?)
      && job.outbound == Some(log.sends[position - 1].outbound)
    else
      && !job.status.Done?
      && job.outbound.None?
      && (lead.IsSendable() ==> job.IsLive())
      && (lead.IsStopped() ==> !job.status.Pending?)
  }

  /** The job agrees with its claims. */
  predicate TokensOk(job: SendJob, log: JobLog) {
    && job.attempts == Counted(log.tokens)
    && Ranked(log.tokens)
    && (job.status.Running? ==> log.tokens != [] && job.lockedAt.Some?)
    && (forall i {:trigger ClaimOf(job, log.tokens[i].claim)} :: 0 <= i < |log.tokens| ==>
         ClaimOf(job, log.tokens[i].claim))
  }

  /** A claim carries the columns of its job that never change. */
  predicate ClaimOf(job: SendJob, claim: ClaimedSendJob) {
    && claim.id == job.id && claim.workspace == job.workspace && claim.mailbox == job.mailbox
    && claim.lead == job.lead && claim.payload == job.payload
  }

  /** Not claimed before it first fell due, and a follow-up falls due its delay after the step before it. */
  predicate DueOk(job: SendJob, campaign: Campaign, log: LeadLog, jobLog: JobLog, clock: Time) {
    var position := job.payload.stepPosition;
    && (job.IsLive() ==> jobLog.firstDue <= job.scheduledAt)
    && (jobLog.tokens != [] ==> jobLog.firstDue <= clock)
    && (2 <= position <= |campaign.steps| && position - 2 < |log.sends| ==>
          jobLog.firstDue == log.sends[position - 2].stamp + campaign.steps[position - 1].delaySeconds * SECOND)
  }

  /** At most one claim ends the job, and none has while its step can still go out. */
  predicate FinalsOk(job: SendJob, lead: Lead, jobLog: JobLog) {
    Finals(jobLog.tokens) <= if job.payload.stepPosition == lead.stepsSent + 1 && lead.IsSendable() then 0 else 1
  }

  predicate JobOk(job: SendJob, lead: Lead, campaign: Campaign, log: LeadLog, jobLog: JobLog, clock: Time) {
    && job.lead == lead.id
    && job.workspace == campaign.workspace
    && 1 <= job.payload.stepPosition <= |log.jobs| <= |campaign.steps|
    && log.jobs[job.payload.stepPosition - 1] == job.id
    && job.payload == campaign.PayloadFor(lead, campaign.steps[job.payload.stepPosition - 1])
    && StatusOk(job, lead, log)
    && TokensOk(job, jobLog)
    && DueOk(job, campaign, log, jobLog, clock)
    && FinalsOk(job, lead, jobLog)
  }

  // ---------- The campaign tables ----------

  ghost predicate CampaignRowOk(campaigns: map<Id, Campaign>, nextId: Id, c: Id)
    requires c in campaigns
  {
    campaigns[c].id == c && campaigns[c].WellFormed() && c < nextId
  }

  ghost predicate CampaignRowsOk(campaigns: map<Id, Campaign>, nextId: Id) {
    forall c {:trigger CampaignRowOk(campaigns, nextId, c)} :: c in campaigns ==> CampaignRowOk(campaigns, nextId, c)
  }

  /** The job a lead's log lists for step `k + 1`. */
  ghost predicate SlotOk(s: Sys, l: Id, k: nat)
    requires l in s.leadLogs && k < |s.leadLogs[l].jobs|
  {
    var j := s.leadLogs[l].jobs[k];
    j in s.db.jobs && s.db.jobs[j].lead == l && s.db.jobs[j].payload.stepPosition == k + 1
  }

  ghost predicate LeadRowOk(s: Sys, l: Id) {
    && l in s.db.leads && s.db.leads[l].id == l && l < s.db.nextId
    && s.db.leads[l].campaign in s.db.campaigns
    && l in s.leadLogs
    && LeadOk(s.db.leads[l], s.db.campaigns[s.db.leads[l].campaign], s.leadLogs[l], s.clock)
    && (forall k {:trigger SlotOk(s, l, k)} :: 0 <= k < |s.leadLogs[l].jobs| ==> SlotOk(s, l, k))
  }

  ghost predicate JobRowOk(s: Sys, j: Id) {
    && j in s.db.jobs && s.db.jobs[j].id == j && j < s.db.nextId
    && s.db.jobs[j].lead in s.db.leads
    && s.db.leads[s.db.jobs[j].lead].campaign in s.db.campaigns
    && s.db.jobs[j].lead in s.leadLogs
    && j in s.jobLogs
    && JobOk(s.db.jobs[j], s.db.leads[s.db.jobs[j].lead], s.db.campaigns[s.db.leads[s.db.jobs[j].lead].campaign],
             s.leadLogs[s.db.jobs[j].lead], s.jobLogs[j], s.clock)
  }

  ghost predicate LeadRowsOk(s: Sys) {
    && s.leadLogs.Keys == s.db.leads.Keys
    && forall l {:trigger LeadRowOk(s, l)} :: l in s.db.leads ==> LeadRowOk(s, l)
  }

  ghost predicate JobRowsOk(s: Sys) {
    && s.jobLogs.Keys == s.db.jobs.Keys
    && forall j {:trigger JobRowOk(s, j)} :: j in s.db.jobs ==> JobRowOk(s, j)
  }

  ghost predicate EmailPairOk(leads: map<Id, Lead>, a: Id, b: Id)
    requires a in leads && b in leads
  {
    leads[a].campaign == leads[b].campaign && leads[a].email == leads[b].email ==> a == b
  }

  /** No two leads of one campaign share an address. */
  ghost predicate EmailsDistinct(leads: map<Id, Lead>) {
    forall a, b {:trigger EmailPairOk(leads, a, b)} :: a in leads && b in leads ==> EmailPairOk(leads, a, b)
  }

  /** A linked message exists and went to the job's recipient. */
  ghost predicate LinkOk(jobs: JobTable, outbounds: map<Id, Outbound>, j: Id)
    requires j in jobs
  {
    jobs[j].outbound.Some? ==>
      var o := jobs[j].outbound.value;
      && o in outbounds
      && outbounds[o].toEmail == jobs[j].payload.toEmail
      && outbounds[o].workspace == jobs[j].workspace
  }

  ghost predicate LinksOk(jobs: JobTable, outbounds: map<Id, Outbound>) {
    forall j {:trigger LinkOk(jobs, outbounds, j)} :: j in jobs ==> LinkOk(jobs, outbounds, j)
  }

  /** Every recorded stamp is the creation time of the message it belongs to. */
  ghost predicate StampOk(logs: map<Id, LeadLog>, outbounds: map<Id, Outbound>, l: Id, k: nat)
    requires l in logs && k < |logs[l].sends|
  {
    var record := logs[l].sends[k];
    record.outbound in outbounds && outbounds[record.outbound].createdAt == record.stamp
  }

  ghost predicate StampsOk(logs: map<Id, LeadLog>, outbounds: map<Id, Outbound>) {
    forall l, k {:trigger StampOk(logs, outbounds, l, k)} :: l in logs && 0 <= k < |logs[l].sends| ==>
      StampOk(logs, outbounds, l, k)
  }

  ghost predicate OutboundRowOk(outbounds: map<Id, Outbound>, nextId: Id, o: Id)
    requires o in outbounds
  {
    outbounds[o].id == o && o < nextId && outbounds[o].providerMessageId.Some?
  }

  ghost predicate OutboundRowsOk(outbounds: map<Id, Outbound>, nextId: Id) {
    forall o {:trigger OutboundRowOk(outbounds, nextId, o)} :: o in outbounds ==> OutboundRowOk(outbounds, nextId, o)
  }

  /** Everything about the campaign tables but the rows of leads and jobs. */
  ghost predicate TablesOk(s: Sys) {
    && CampaignRowsOk(s.db.campaigns, s.db.nextId)
    && EmailsDistinct(s.db.leads)
    && LinksUnique(s.db.jobs)
    && LinksOk(s.db.jobs, s.db.outbounds)
    && StampsOk(s.leadLogs, s.db.outbounds)
    && OutboundRowsOk(s.db.outbounds, s.db.nextId)
  }

  ghost predicate CampaignInv(s: Sys) {
    LeadRowsOk(s) && JobRowsOk(s) && TablesOk(s)
  }

  // ---------- The messaging tables ----------

  function Aggregates(events: seq<OutboxEvent>, kind: EventKind): seq<Id> {
    if events == [] then []
    else
      var last := events[|events| - 1];
      Aggregates(events[..|events| - 1], kind) + if last.kind == kind then [last.aggregate] else []
  }

  ghost predicate ListsOnce(listed: seq<Id>, rows: set<Id>) {
    && (forall i, j :: 0 <= i < j < |listed| ==> listed[i] != listed[j])
    && (forall id :: id in listed <==> id in rows)
  }

  function MatchedRows(inbounds: map<Id, Inbound>): set<Id> {
    set id | id in inbounds && inbounds[id].matched.Some?
  }

  ghost predicate InboundRowOk(db: Db, i: Id) {
    && i in db.inbounds && db.inbounds[i].id == i && i < db.nextId
    && (db.inbounds[i].intent.Some? <==> db.inbounds[i].matched.Some?)
    && (db.inbounds[i].matched.Some? ==> db.inbounds[i].matched.value in db.outbounds)
  }

  ghost predicate MatchesUnique(inbounds: map<Id, Inbound>) {
    forall i, j :: i in inbounds && j in inbounds && i != j && inbounds[i].matched.Some? ==>
      inbounds[i].matched != inbounds[j].matched
  }

  ghost predicate MessagesUnique(inbounds: map<Id, Inbound>) {
    forall i, j :: i in inbounds && j in inbounds && i != j ==>
      (inbounds[i].mailbox, inbounds[i].providerMessageId) != (inbounds[j].mailbox, inbounds[j].providerMessageId)
  }

  /** One event of each kind for each row it reports. */
  ghost predicate EventsMirrorRows(db: Db) {
    && ListsOnce(Aggregates(db.events, InboundReceived), db.inbounds.Keys)
    && ListsOnce(Aggregates(db.events, ReplyMatched), MatchedRows(db.inbounds))
    && ListsOnce(Aggregates(db.events, ReplyClassified), MatchedRows(db.inbounds))
  }

  /** An event says of its row what the row says. */
  ghost predicate EventOk(db: Db, k: nat)
    requires k < |db.events|
  {
    var event := db.events[k];
    && event.aggregate in db.inbounds
    && var row := db.inbounds[event.aggregate];
      && event.workspace == row.workspace
      && (event.kind.InboundReceived? ==> event.version == 1)
      && (event.kind.ReplyMatched? ==> event.version == 1 && event.matched == row.matched)
      && (event.kind.ReplyClassified? ==>
            event.version == 2 && event.matched == row.matched && row.intent == Some(event.intent))
  }

  ghost predicate EventsAgree(db: Db) {
    forall k {:trigger EventOk(db, k)} :: 0 <= k < |db.events| ==> EventOk(db, k)
  }

  /** Identifiers grow along the outbox, so no two events share one. */
  ghost predicate EventIdsGrow(db: Db) {
    && (forall i :: 0 <= i < |db.events| ==> db.events[i].id < db.nextId)
    && (forall i, j :: 0 <= i < j < |db.events| ==> db.events[i].id < db.events[j].id)
  }

  /** A matched unsubscribe or bounce has put its recipient on the suppression list. */
  ghost predicate SuppressionOk(db: Db, i: Id)
    requires InboundRowOk(db, i)
  {
    db.inbounds[i].matched.Some? && db.inbounds[i].intent in {Some(Unsubscribe), Some(Bounce)} ==>
      IsSuppressed(db.suppressions, db.inbounds[i].workspace, db.outbounds[db.inbounds[i].matched.value].toEmail)
  }

  ghost predicate MessagingInv(db: Db) {
    && (forall i :: i in db.inbounds ==> InboundRowOk(db, i) && SuppressionOk(db, i))
    && MatchesUnique(db.inbounds)
    && MessagesUnique(db.inbounds)
    && EventsMirrorRows(db)
    && EventIdsGrow(db)
    && EventsAgree(db)
  }

  ghost predicate Inv(s: Sys) {
    CampaignInv(s) && MessagingInv(s.db)
  }
}
