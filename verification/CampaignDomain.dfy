/** The campaign aggregate: campaigns, their leads and the send jobs they emit. */
module CampaignDomain {
  import opened Base
  import Text

  datatype Intent = Positive | Negative | Ooo | Unsubscribe | Unclear | Bounce

  datatype LeadState = Pending | Scheduled | Sent | Paused | Done | Failed

  datatype StopReason = Replied | Unsubscribed | Bounced | Suppressed | SendFailed

  datatype CampaignStatus = Draft | Active

  datatype JobStatus = Pending | Running | Done | Failed | Cancelled

  datatype DomainError =
    | CampaignHasNoSteps
    | NegativeStepDelay
    | CampaignNotActive
    | LeadNotInCampaign
    | LeadTransition(state: LeadState)
    | StepOutOfRange
    | CampaignNotFound
    | CampaignHasNoLeads
    | LeadRowMissing

  const MAX_SEND_ATTEMPTS := 3
  const RETRY_BACKOFF: Time := 60 * SECOND
  const CLAIM_LEASE: Time := 300 * SECOND

  datatype StepDraft = StepDraft(subject: string, body: string, delaySeconds: int)

  datatype Step = Step(id: Id, position: nat, subject: string, body: string, delaySeconds: int)

  datatype Lead = Lead(
    id: Id,
    workspace: Id,
    campaign: Id,
    email: string,
    state: LeadState,
    stepsSent: nat,
    stopReason: Option<StopReason>,
    replyIntent: Option<Intent>,
    updatedAt: Time)
  {
    predicate IsStopped() {
      state.Paused? || state.Failed?
    }

    predicate IsSendable() {
      state.Scheduled? || state.Sent?
    }

    predicate IsReplyable() {
      state.Sent? || state.Done?
    }

    function Moved(to: LeadState, moment: Time): Lead {
      this.(state := to, updatedAt := moment)
    }
  }

  function NewLead(id: Id, workspace: Id, campaign: Id, email: string, moment: Time): Lead {
    Lead(id, workspace, campaign, Text.NormalizeEmail(email), LeadState.Pending, 0, None, None, moment)
  }

  datatype Payload = Payload(
    campaign: Id,
    lead: Id,
    step: Id,
    stepPosition: nat,
    toEmail: string,
    subject: string,
    body: string)

  /** A row of the send-job queue. */
  datatype SendJob = SendJob(
    id: Id,
    workspace: Id,
    mailbox: Id,
    lead: Id,
    payload: Payload,
    scheduledAt: Time,
    status: JobStatus,
    attempts: int,
    lockedAt: Option<Time>,
    lockedBy: Option<Id>,
    lastError: Option<string>,
    outbound: Option<Id>,
    updatedAt: Time)
  {
    predicate IsLive() {
      status.Pending? || status.Running?
    }

    predicate IsTerminal() {
      !IsLive()
    }
  }

  /** When to try again after a failed attempt, if at all. */
  function NextRetryAt(attempts: int, moment: Time): Option<Time> {
    if attempts >= MAX_SEND_ATTEMPTS then None else Some(moment + RETRY_BACKOFF * attempts)
  }

  datatype Campaign = Campaign(
    id: Id,
    workspace: Id,
    mailbox: Id,
    name: string,
    status: CampaignStatus,
    steps: seq<Step>,
    createdAt: Time)
  {
    /** What `New` guarantees and nothing changes afterwards. */
    predicate WellFormed() {
      && 0 < |steps|
      && forall i :: 0 <= i < |steps| ==> steps[i].position == i + 1 && 0 <= steps[i].delaySeconds
    }

    predicate IsActive() {
      status.Active?
    }

    /** The payload every job for this step of this lead carries. */
    function PayloadFor(lead: Lead, step: Step): Payload {
      Payload(id, lead.id, step.id, step.position, lead.email, step.subject, step.body)
    }

    function JobFor(lead: Lead, step: Step, after: Time, jobId: Id): SendJob {
      SendJob(jobId, workspace, mailbox, lead.id, PayloadFor(lead, step),
              after + step.delaySeconds * SECOND, JobStatus.Pending, 0, None, None, None, None, after)
    }

    predicate AcceptsSend(lead: Lead, stepPosition: nat) {
      && IsActive()
      && lead.campaign == id
      && lead.IsSendable()
      && lead.stepsSent == stepPosition - 1
    }

    /** The lead after step `stepPosition` went out at `sentAt`, and the job for the step after it. */
    function RecordSent(lead: Lead, stepPosition: nat, sentAt: Time, jobId: Id)
      : (r: Result<(Lead, Option<SendJob>), DomainError>)
      ensures r.Success? <==>
        && status.Active? && lead.campaign == id && (lead.state.Scheduled? || lead.state.Sent?)
        && lead.stepsSent + 1 == stepPosition && stepPosition <= |steps|
      ensures r.Failure? ==>
        r.error == if lead.campaign != id then LeadNotInCampaign
                   else if AcceptsSend(lead, stepPosition) then StepOutOfRange
                   else LeadTransition(lead.state)
    {
      if lead.campaign != id then Failure(LeadNotInCampaign)
      else if !AcceptsSend(lead, stepPosition) then Failure(LeadTransition(lead.state))
      else if stepPosition == |steps| then
        Success((lead.Moved(LeadState.Done, sentAt).(stepsSent := stepPosition), None))
      else if stepPosition > |steps| then Failure(StepOutOfRange)
      else
        Success((lead.Moved(LeadState.Sent, sentAt).(stepsSent := stepPosition),
                 Some(JobFor(lead, steps[stepPosition], sentAt, jobId))))
    }

    function StopOnReply(lead: Lead, intent: Intent, moment: Time): (r: Result<Lead, DomainError>)
      ensures r.Success? <==> lead.campaign == id && !lead.state.Pending? && !lead.state.Scheduled?
      ensures r.Success? ==> r.value.IsStopped() && r.value.stepsSent == lead.stepsSent
      ensures r.Success? && (lead.state.Paused? || lead.state.Failed?) ==> r.value == lead
      ensures r.Failure? ==> r.error == if lead.campaign != id then LeadNotInCampaign else LeadTransition(lead.state)
    {
      if lead.campaign != id then Failure(LeadNotInCampaign)
      else if lead.IsStopped() then Success(lead)
      else if !lead.IsReplyable() then Failure(LeadTransition(lead.state))
      else if intent.Bounce? then
        Success(lead.Moved(LeadState.Failed, moment).(stopReason := Some(Bounced), replyIntent := Some(intent)))
      else
        var reason := if intent.Unsubscribe? then Unsubscribed else Replied;
        Success(lead.Moved(LeadState.Paused, moment).(stopReason := Some(reason), replyIntent := Some(intent)))
    }

    function FailLead(lead: Lead, reason: StopReason, moment: Time): (r: Result<Lead, DomainError>)
      ensures r.Success? <==> lead.campaign == id && !lead.state.Pending? && !lead.state.Done?
      ensures r.Success? && (lead.state.Paused? || lead.state.Failed?) ==> r.value == lead
      ensures r.Failure? ==> r.error == if lead.campaign != id then LeadNotInCampaign else LeadTransition(lead.state)
    {
      if lead.campaign != id then Failure(LeadNotInCampaign)
      else if lead.IsStopped() then Success(lead)
      else if !lead.IsSendable() then Failure(LeadTransition(lead.state))
      else Success(lead.Moved(LeadState.Failed, moment).(stopReason := Some(reason)))
    }

    /** The leads moved to scheduled, and a first-step job for each, in order. */
    function Schedule(leads: seq<Lead>, moment: Time, firstJob: Id)
      : Result<(seq<Lead>, seq<SendJob>), DomainError>
    {
      if !IsActive() then Failure(CampaignNotActive)
      else if steps == [] then Failure(StepOutOfRange)
      else ScheduleMembers(leads, moment, firstJob)
    }

    function ScheduleMembers(leads: seq<Lead>, moment: Time, firstJob: Id)
      : Result<(seq<Lead>, seq<SendJob>), DomainError>
      requires steps != []
    {
      if leads == [] then Success(([], []))
      else
        var last := |leads| - 1;
        match ScheduleMembers(leads[..last], moment, firstJob)
        case Failure(error) => Failure(error)
        case Success(done) =>
          var lead := leads[last];
          if lead.campaign != id then Failure(LeadNotInCampaign)
          else if !lead.state.Pending? then Failure(LeadTransition(lead.state))
          else
            Success((done.0 + [lead.Moved(LeadState.Scheduled, moment)],
                     done.1 + [JobFor(lead, steps[0], moment, firstJob + last)]))
    }

    /** Activates a draft and schedules its pending leads; an active campaign is left alone. */
    function Start(pending: seq<Lead>, moment: Time, firstJob: Id)
      : Result<(Campaign, seq<Lead>, seq<SendJob>), DomainError>
    {
      if IsActive() then Success((this, [], []))
      else
        var started := this.(status := Active);
        match started.Schedule(pending, moment, firstJob)
        case Failure(error) => Failure(error)
        case Success((scheduled, jobs)) => Success((started, scheduled, jobs))
    }
  }

  /** Scheduling succeeds exactly for pending members, and gives each its first-step job, in order. */
  lemma {:induction false} ScheduleMembersShape(campaign: Campaign, leads: seq<Lead>, moment: Time, firstJob: Id)
    requires campaign.steps != []
    ensures var r := campaign.ScheduleMembers(leads, moment, firstJob);
      && (r.Success? <==> forall i :: 0 <= i < |leads| ==> leads[i].campaign == campaign.id && leads[i].state.Pending?)
      && (r.Success? ==>
            && |r.value.0| == |leads| == |r.value.1|
            && forall i :: 0 <= i < |leads| ==>
                 && r.value.0[i] == leads[i].Moved(LeadState.Scheduled, moment)
                 && r.value.1[i] == campaign.JobFor(leads[i], campaign.steps[0], moment, firstJob + i))
  {
    if leads != [] {
      var last := |leads| - 1;
      ScheduleMembersShape(campaign, leads[..last], moment, firstJob);
      assert forall i :: 0 <= i < last ==> leads[..last][i] == leads[i];
    }
  }

  /** A new draft; its steps are numbered from 1 and take the identifiers after the campaign's own. */
  function NewCampaign(id: Id, workspace: Id, mailbox: Id, name: string, drafts: seq<StepDraft>, moment: Time)
    : (r: Result<Campaign, DomainError>)
    ensures r.Success? <==> drafts != [] && forall d :: d in drafts ==> 0 <= d.delaySeconds
    ensures r.Failure? ==> r.error == if drafts == [] then CampaignHasNoSteps else NegativeStepDelay
    ensures r.Success? ==>
      && r.value.WellFormed() && r.value.status.Draft? && r.value.id == id && |r.value.steps| == |drafts|
      && r.value.workspace == workspace && r.value.mailbox == mailbox && r.value.name == name
      && r.value.createdAt == moment
      && forall i :: 0 <= i < |drafts| ==>
           && r.value.steps[i].id == id + 1 + i && r.value.steps[i].position == i + 1
           && r.value.steps[i].subject == drafts[i].subject && r.value.steps[i].body == drafts[i].body
           && r.value.steps[i].delaySeconds == drafts[i].delaySeconds
  {
    if drafts == [] then Failure(CampaignHasNoSteps)
    else if exists d :: d in drafts && d.delaySeconds < 0 then Failure(NegativeStepDelay)
    else
      var steps := seq(|drafts|, i requires 0 <= i < |drafts| =>
        Step(id + 1 + i, i + 1, drafts[i].subject, drafts[i].body, drafts[i].delaySeconds));
      Success(Campaign(id, workspace, mailbox, name, Draft, steps, moment))
  }

  /** The addresses of `emails` that become leads, in order. */
  function AcceptedEmails(emails: seq<string>, seen: set<string>): seq<string> {
    if emails == [] then []
    else
      var last := |emails| - 1;
      var before := AcceptedEmails(emails[..last], seen);
      var email := Text.NormalizeEmail(emails[last]);
      if email == "" || email in seen || email in before then before else before + [email]
  }

  /** Exactly the unseen, non-empty normal forms are accepted, each once. */
  lemma {:induction false} AcceptedEmailsAreNewAndDistinct(emails: seq<string>, seen: set<string>)
    ensures var accepted := AcceptedEmails(emails, seen);
      && |accepted| <= |emails|
      && (forall i, j :: 0 <= i < j < |accepted| ==> accepted[i] != accepted[j])
      && (forall e :: e in accepted <==>
            e != "" && e !in seen && exists raw :: raw in emails && e == Text.NormalizeEmail(raw))
  {
    if emails != [] {
      var last := |emails| - 1;
      AcceptedEmailsAreNewAndDistinct(emails[..last], seen);
      var before, accepted := AcceptedEmails(emails[..last], seen), AcceptedEmails(emails, seen);
      assert emails == emails[..last] + [emails[last]];
      forall e | e in accepted
        ensures e != "" && e !in seen && exists raw :: raw in emails && e == Text.NormalizeEmail(raw)
      {
        if e in before {
          var raw :| raw in emails[..last] && e == Text.NormalizeEmail(raw);
          assert raw in emails;
        } else {
          assert emails[last] in emails && e == Text.NormalizeEmail(emails[last]);
        }
      }
      forall raw | raw in emails && Text.NormalizeEmail(raw) != "" && Text.NormalizeEmail(raw) !in seen
        ensures Text.NormalizeEmail(raw) in accepted
      {
        if raw in emails[..last] {
          assert Text.NormalizeEmail(raw) in before;
        } else {
          assert raw == emails[last];
        }
      }
    }
  }

  function NormalForms(emails: set<string>): set<string> {
    set e | e in emails :: Text.NormalizeEmail(e)
  }

  /** The lead rows for a list of addresses, with consecutive identifiers. */
  function NewLeads(workspace: Id, campaign: Id, emails: seq<string>, firstId: Id, moment: Time): (leads: seq<Lead>)
    ensures |leads| == |emails|
  {
    if emails == [] then []
    else
      var last := |emails| - 1;
      NewLeads(workspace, campaign, emails[..last], firstId, moment)
      + [NewLead(firstId + last, workspace, campaign, emails[last], moment)]
  }

  lemma {:induction false} NewLeadsAt(
    workspace: Id, campaign: Id, emails: seq<string>, firstId: Id, moment: Time, i: nat)
    requires i < |emails|
    ensures NewLeads(workspace, campaign, emails, firstId, moment)[i] ==
      NewLead(firstId + i, workspace, campaign, emails[i], moment)
  {
    if i < |emails| - 1 {
      NewLeadsAt(workspace, campaign, emails[..|emails| - 1], firstId, moment, i);
    }
  }

  function Elements(emails: seq<string>): set<string> {
    set e | e in emails
  }

  function Accept(before: seq<string>, email: string, seen: set<string>): seq<string> {
    if email == "" || email in seen then before else before + [email]
  }

  lemma {:induction false} AcceptedEmailsOfPrefix(emails: seq<string>, n: nat, known: set<string>)
    requires n < |emails|
    ensures var before := AcceptedEmails(emails[..n], known);
      AcceptedEmails(emails[..n + 1], known) ==
        Accept(before, Text.NormalizeEmail(emails[n]), known + Elements(before))
  {
    assert emails[..n + 1][..n] == emails[..n];
  }

  lemma {:induction false} ElementsAppend(emails: seq<string>, email: string)
    ensures Elements(emails + [email]) == Elements(emails) + {email}
  {
  }

  lemma {:induction false} NewLeadsAppend(
    workspace: Id, campaign: Id, emails: seq<string>, email: string, firstId: Id, moment: Time)
    ensures NewLeads(workspace, campaign, emails + [email], firstId, moment) ==
      NewLeads(workspace, campaign, emails, firstId, moment)
      + [NewLead(firstId + |emails|, workspace, campaign, email, moment)]
  {
    assert (emails + [email])[..|emails|] == emails;
  }

  /** One more address: it is skipped, or it becomes the next lead. */
  lemma {:induction false} OneMoreEmail(
    campaign: Campaign, emails: seq<string>, n: nat, known: set<string>, accepted: seq<string>, seen: set<string>,
    leads: seq<Lead>, firstId: Id, moment: Time)
    requires n < |emails| && accepted == AcceptedEmails(emails[..n], known) && seen == known + Elements(accepted)
    requires leads == NewLeads(campaign.workspace, campaign.id, accepted, firstId, moment)
    ensures var email := Text.NormalizeEmail(emails[n]);
      var after := Accept(accepted, email, seen);
      && after == AcceptedEmails(emails[..n + 1], known)
      && (after != accepted ==>
            && seen + {email} == known + Elements(after)
            && leads + [NewLead(firstId + |leads|, campaign.workspace, campaign.id, email, moment)]
                 == NewLeads(campaign.workspace, campaign.id, after, firstId, moment))
  {
    AcceptedEmailsOfPrefix(emails, n, known);
    var email := Text.NormalizeEmail(emails[n]);
    ElementsAppend(accepted, email);
    NewLeadsAppend(campaign.workspace, campaign.id, accepted, email, firstId, moment);
  }

  method AddLeads(campaign: Campaign, emails: seq<string>, knownEmails: set<string>, firstId: Id, moment: Time)
    returns (leads: seq<Lead>)
    ensures leads == NewLeads(campaign.workspace, campaign.id,
                              AcceptedEmails(emails, NormalForms(knownEmails)), firstId, moment)
  {
    var known := NormalForms(knownEmails);
    var seen := known;
    ghost var accepted: seq<string> := [];
    leads := [];
    for n := 0 to |emails|
      invariant accepted == AcceptedEmails(emails[..n], known)
      invariant seen == known + Elements(accepted)
      invariant leads == NewLeads(campaign.workspace, campaign.id, accepted, firstId, moment)
    {
      OneMoreEmail(campaign, emails, n, known, accepted, seen, leads, firstId, moment);
      var email := Text.NormalizeEmail(emails[n]);
      if email != "" && email !in seen {
        var lead := NewLead(firstId + |leads|, campaign.workspace, campaign.id, email, moment);
        seen := seen + {email};
        leads := leads + [lead];
        accepted := accepted + [email];
      }
    }
    assert emails[..|emails|] == emails;
  }

  /** Scheduling one more lead, or stopping at the first that cannot be scheduled. */
  lemma {:induction false} ScheduleOneMore(campaign: Campaign, leads: seq<Lead>, n: nat, moment: Time, firstJob: Id)
    requires n < |leads| && campaign.steps != []
    ensures campaign.ScheduleMembers(leads[..n + 1], moment, firstJob) ==
      match campaign.ScheduleMembers(leads[..n], moment, firstJob)
      case Failure(error) => Failure(error)
      case Success(done) =>
        if leads[n].campaign != campaign.id then Failure(LeadNotInCampaign)
        else if !leads[n].state.Pending? then Failure(LeadTransition(leads[n].state))
        else Success((done.0 + [leads[n].Moved(LeadState.Scheduled, moment)],
                      done.1 + [campaign.JobFor(leads[n], campaign.steps[0], moment, firstJob + n)]))
  {
    assert leads[..n + 1][..n] == leads[..n];
  }

  /** An error among the first leads is the error of the whole list. */
  lemma {:induction false} ScheduleFailsEarly(campaign: Campaign, leads: seq<Lead>, n: nat, moment: Time, firstJob: Id)
    requires n <= |leads| && campaign.steps != []
    requires campaign.ScheduleMembers(leads[..n], moment, firstJob).Failure?
    ensures campaign.ScheduleMembers(leads, moment, firstJob) == campaign.ScheduleMembers(leads[..n], moment, firstJob)
    decreases |leads| - n
  {
    if n == |leads| {
      assert leads[..n] == leads;
    } else {
      ScheduleOneMore(campaign, leads, n, moment, firstJob);
      ScheduleFailsEarly(campaign, leads, n + 1, moment, firstJob);
    }
  }

  method ScheduleLeads(campaign: Campaign, leads: seq<Lead>, moment: Time, firstJob: Id)
    returns (r: Result<(seq<Lead>, seq<SendJob>), DomainError>)
    ensures r == campaign.Schedule(leads, moment, firstJob)
  {
    if !campaign.IsActive() { return Failure(CampaignNotActive); }
    if campaign.steps == [] { return Failure(StepOutOfRange); }
    var scheduled, jobs := [], [];
    for n := 0 to |leads|
      invariant campaign.ScheduleMembers(leads[..n], moment, firstJob) == Success((scheduled, jobs))
    {
      ScheduleOneMore(campaign, leads, n, moment, firstJob);
      var lead := leads[n];
      if lead.campaign != campaign.id {
        ScheduleFailsEarly(campaign, leads, n + 1, moment, firstJob);
        return Failure(LeadNotInCampaign);
      }
      if !lead.state.Pending? {
        ScheduleFailsEarly(campaign, leads, n + 1, moment, firstJob);
        return Failure(LeadTransition(lead.state));
      }
      scheduled := scheduled + [lead.Moved(LeadState.Scheduled, moment)];
      jobs := jobs + [campaign.JobFor(lead, campaign.steps[0], moment, firstJob + n)];
    }
    assert leads[..|leads|] == leads;
    return Success((scheduled, jobs));
  }
}
