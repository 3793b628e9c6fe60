/** Every processing call, on either path and with any answer from outside, keeps the invariant. */
module ProcessKeeps {
  import opened Base
  import opened CampaignDomain
  import opened Invariant
  import opened Machine
  import opened ProcessingKeeps
  import opened SendKeeps
  import opened SendQueue
  import opened Sending
  import opened Tables

  /** The messaging tables only care about inbound rows, events, suppressions and which messages exist. */
  lemma {:induction false} MessagingFrame(db: Db, after: Db)
    requires MessagingInv(db)
    requires after.inbounds == db.inbounds && after.events == db.events && after.suppressions == db.suppressions
    requires db.nextId <= after.nextId
    requires forall o :: o in db.outbounds ==> o in after.outbounds && after.outbounds[o] == db.outbounds[o]
    ensures MessagingInv(after)
  {
    forall i | i in after.inbounds ensures InboundRowOk(after, i) && SuppressionOk(after, i) {
      assert InboundRowOk(db, i) && SuppressionOk(db, i);
    }
    forall k | 0 <= k < |after.events| ensures EventOk(after, k) {
      assert EventOk(db, k);
    }
  }

  /** The claim in hand is one the invariant can settle. */
  lemma {:induction false} ClaimIsSettling(s: Sys, j: Id, index: nat, byId: bool)
    requires CampaignInv(s) && j in s.jobLogs && index < |s.jobLogs[j].tokens|
    requires s.jobLogs[j].tokens[index].fate.Outstanding?
    ensures ClaimInHand(s, j, index, byId).Some? ==> Settling(s, j, index, ClaimInHand(s, j, index, byId).value)
    ensures Settling(s, j, index, s.jobLogs[j].tokens[index].claim)
  {
    assert JobRowOk(s, j);
    ClaimInHandRanks(s, j, index, byId);
    ClaimInHandRanks(s, j, index, false);
  }

  function WithMessage(db: Db, message: Outbound): Db {
    db.(outbounds := db.outbounds[db.nextId := message], nextId := db.nextId + 1)
  }

  /** Whatever the dispatch answers, a message it sent is new, stamped now and addressed to the lead. */
  lemma {:induction false} DispatchedMessage(db: Db, claim: ClaimedSendJob, env: SendEnv)
    requires Dispatch(db, claim.workspace, claim.payload.toEmail, claim.payload.subject, claim.payload.body, env)
      .1.DispatchSent?
    ensures var (after, result) :=
        Dispatch(db, claim.workspace, claim.payload.toEmail, claim.payload.subject, claim.payload.body, env);
      && result == DispatchSent(db.nextId, env.stampedAt)
      && db.nextId in after.outbounds
      && after == WithMessage(db, after.outbounds[db.nextId])
      && var message := after.outbounds[db.nextId];
        && message.id == db.nextId && message.createdAt == env.stampedAt
        && message.toEmail == claim.payload.toEmail && message.workspace == claim.workspace
        && message.providerMessageId.Some?
  {
  }

  lemma {:induction false} DispatchWithoutMessage(db: Db, claim: ClaimedSendJob, env: SendEnv)
    requires env.checkedAt <= env.stampedAt
    requires !Dispatch(db, claim.workspace, claim.payload.toEmail, claim.payload.subject, claim.payload.body, env)
      .1.DispatchSent?
    ensures var (after, result) :=
        Dispatch(db, claim.workspace, claim.payload.toEmail, claim.payload.subject, claim.payload.body, env);
      after == db && (result.DispatchDeferred? ==> env.checkedAt <= result.retryAt)
  {
  }

  ghost predicate GoesOut(s: Sys, j: Id, index: nat, claim: ClaimedSendJob, env: SendEnv) {
    && CampaignInv(s) && s.clock == env.stampedAt && Settling(s, j, index, claim) && claim.id == j
    && Accepts(s.db, claim)
    && Dispatch(s.db, claim.workspace, claim.payload.toEmail, claim.payload.subject, claim.payload.body, env)
      .1.DispatchSent?
  }

  function MessageOf(s: Sys, claim: ClaimedSendJob, env: SendEnv): Outbound
    requires Dispatch(s.db, claim.workspace, claim.payload.toEmail, claim.payload.subject, claim.payload.body, env)
      .1.DispatchSent?
  {
    DispatchedMessage(s.db, claim, env);
    Dispatch(s.db, claim.workspace, claim.payload.toEmail, claim.payload.subject, claim.payload.body, env)
      .0.outbounds[s.db.nextId]
  }

  function Recorded(s: Sys, claim: ClaimedSendJob, env: SendEnv): Result<(Lead, Option<SendJob>), DomainError>
    requires Accepts(s.db, claim)
  {
    s.db.campaigns[claim.payload.campaign]
      .RecordSent(s.db.leads[claim.lead], claim.payload.stepPosition, env.stampedAt, s.db.nextId + 1)
  }

  /** The sent branch of `ProcessClaimed`, with its intermediate states put together. */
  lemma {:induction false} SentBranch(
    s: Sys, index: nat, claim: ClaimedSendJob, moment: Time, env: SendEnv,
    message: Outbound, advanced: Lead, next: Option<SendJob>)
    requires claim.id in s.jobLogs && index < |s.jobLogs[claim.id].tokens| && Accepts(s.db, claim)
    requires Dispatch(s.db, claim.workspace, claim.payload.toEmail, claim.payload.subject, claim.payload.body, env)
      == (WithMessage(s.db, message), DispatchSent(s.db.nextId, env.stampedAt))
    requires message.id == s.db.nextId
    requires Recorded(s, claim, env) == Success((advanced, next))
    ensures ProcessClaimed(s.db, claim, moment, env)
      == Processed(WithSend(s, index, claim, message, advanced, next, moment).db, Outcome.Sent)
  {
  }

  /** What the machine logs for the sent branch is what `WithSend` says. */
  lemma {:induction false} SentLog(
    s: Sys, j: Id, index: nat, claim: ClaimedSendJob, moment: Time, env: SendEnv,
    message: Outbound, advanced: Lead, next: Option<SendJob>)
    requires j in s.jobLogs && index < |s.jobLogs[j].tokens| && claim.id == j
    requires ProcessClaimed(s.db, claim, moment, env)
      == Processed(WithSend(s, index, claim, message, advanced, next, moment).db, Outcome.Sent)
    requires message.id == s.db.nextId && message.createdAt == env.stampedAt
    requires next.Some? ==> next.value.id == s.db.nextId + 1
    requires next.None? ==> s.db.nextId + 1 !in WithSend(s, index, claim, message, advanced, next, moment).db.jobs
    ensures AfterProcessing(s, j, index, claim, moment, env) ==
      WithSend(s, index, claim, message, advanced, next, moment)
  {
  }

  lemma {:induction false} RecordedJobId(s: Sys, claim: ClaimedSendJob, env: SendEnv)
    requires Accepts(s.db, claim) && Recorded(s, claim, env).Success?
    ensures var next := Recorded(s, claim, env).value.1; next.Some? ==> next.value.id == s.db.nextId + 1
  {
  }

  lemma {:induction false} AcceptedIsRecorded(s: Sys, claim: ClaimedSendJob, env: SendEnv)
    requires CampaignInv(s) && claim.id in s.db.jobs && ClaimOf(s.db.jobs[claim.id], claim) && Accepts(s.db, claim)
    ensures Recorded(s, claim, env).Success?
  {
    assert JobRowOk(s, claim.id);
    assert LeadRowOk(s, claim.lead);
    AcceptedJobIsLive(s, claim.id, claim);
  }

  lemma {:induction false} SentOutcome(s: Sys, j: Id, index: nat, claim: ClaimedSendJob, moment: Time, env: SendEnv)
    requires GoesOut(s, j, index, claim, env)
    ensures ProcessClaimed(s.db, claim, moment, env).Processed?
    ensures ProcessClaimed(s.db, claim, moment, env).outcome.Sent?
    ensures CampaignInv(AfterProcessing(s, j, index, claim, moment, env))
  {
    AcceptedIsRecorded(s, claim, env);
    RecordedJobId(s, claim, env);
    DispatchedMessage(s.db, claim, env);
    var message := MessageOf(s, claim, env);
    var (advanced, next) := Recorded(s, claim, env).value;
    assert Sends(s, index, claim, message, advanced, next);
    SentKeeps(s, index, claim, message, advanced, next, moment);
    SentLookups(s, index, claim, message, advanced, next, moment);
    SentBranch(s, index, claim, moment, env, message, advanced, next);
    SentLog(s, j, index, claim, moment, env, message, advanced, next);
  }

  lemma {:induction false} OtherOutcome(s: Sys, j: Id, index: nat, claim: ClaimedSendJob, moment: Time, env: SendEnv)
    requires CampaignInv(s) && InOrder(s.clock, moment, env)
    requires Settling(s, j, index, claim) && claim.id == j
    requires Accepts(s.db, claim) ==>
      !Dispatch(s.db, claim.workspace, claim.payload.toEmail, claim.payload.subject, claim.payload.body, env)
        .1.DispatchSent?
    ensures ProcessClaimed(s.db, claim, moment, env).Processed?
    ensures CampaignInv(AfterProcessing(s, j, index, claim, moment, env))
    ensures !ProcessClaimed(s.db, claim, moment, env).outcome.Sent?
  {
    if !Accepts(s.db, claim) {
      CancelledKeeps(s, j, index, claim, moment);
    } else {
      DispatchWithoutMessage(s.db, claim, env);
      var result :=
        Dispatch(s.db, claim.workspace, claim.payload.toEmail, claim.payload.subject, claim.payload.body, env).1;
      match result
      case DispatchDeferred(retryAt, reason) => DeferredKeeps(s, j, index, claim, retryAt, reason, moment);
      case DispatchSuppressed => SuppressedKeeps(s, j, index, claim, moment);
      case DispatchFailed(error) =>
        if claim.attempts < MAX_SEND_ATTEMPTS {
          RetryingKeeps(s, j, index, claim, moment + RETRY_BACKOFF * claim.attempts, error, moment);
        } else {
          FailedKeeps(s, j, index, claim, error, moment);
        }
    }
  }

  /** In a sound state processing a claim commits: the exceptions of the domain cannot occur. */
  lemma {:induction false} NeverRaises(s: Sys, j: Id, index: nat, claim: ClaimedSendJob, moment: Time, env: SendEnv)
    requires CampaignInv(s) && InOrder(s.clock, moment, env) && Settling(s, j, index, claim) && claim.id == j
    ensures ProcessClaimed(s.db, claim, moment, env).Processed?
  {
    if && Accepts(s.db, claim)
       && Dispatch(s.db, claim.workspace, claim.payload.toEmail, claim.payload.subject, claim.payload.body, env)
         .1.DispatchSent?
    {
      LaterClock(s, env.stampedAt);
      SentOutcome(s.(clock := env.stampedAt), j, index, claim, moment, env);
    } else {
      OtherOutcome(s, j, index, claim, moment, env);
    }
  }

  /** What a send transaction leaves alone outside the campaign tables. */
  ghost predicate MessagingKept(db: Db, after: Db) {
    && after.mailboxes == db.mailboxes && after.campaigns == db.campaigns && after.processed == db.processed
    && after.inbounds == db.inbounds && after.events == db.events && after.suppressions == db.suppressions
    && db.nextId <= after.nextId
    && (forall o :: o in db.outbounds ==> o in after.outbounds && after.outbounds[o] == db.outbounds[o])
  }

  /** A new message took the next identifier and went to an address that is not suppressed. */
  ghost predicate NewMessageAllowed(db: Db, after: Db, workspace: Id, toEmail: string) {
    forall o :: o in after.outbounds && o !in db.outbounds ==>
      && o == db.nextId
      && after.outbounds[o].workspace == workspace && after.outbounds[o].toEmail == toEmail
      && !IsSuppressed(db.suppressions, workspace, toEmail)
  }

  lemma {:induction false} SendFrame(
    db: Db, workspace: Id, toEmail: string, subject: string, body: string, env: SendEnv)
    requires db.nextId !in db.outbounds
    ensures SendEmail(db, workspace, toEmail, subject, body, env).Success? ==>
      var after := SendEmail(db, workspace, toEmail, subject, body, env).value.0;
      && MessagingKept(db, after) && NewMessageAllowed(db, after, workspace, toEmail)
      && after.leads == db.leads && after.jobs == db.jobs
  {
  }

  lemma {:induction false} SettleSentFrame(db: Db, claim: ClaimedSendJob, moment: Time, outbound: Id, sentAt: Time)
    requires Accepts(db, claim)
    ensures Sending.Settle(db, claim, moment, DispatchSent(outbound, sentAt)).Processed? ==>
      var after := Sending.Settle(db, claim, moment, DispatchSent(outbound, sentAt)).db;
      MessagingKept(db, after) && after.outbounds == db.outbounds
  {
  }

  lemma {:induction false} SettleFrame(db: Db, claim: ClaimedSendJob, moment: Time, result: DispatchResult)
    requires Accepts(db, claim)
    ensures Sending.Settle(db, claim, moment, result).Processed? ==>
      var after := Sending.Settle(db, claim, moment, result).db;
      MessagingKept(db, after) && after.outbounds == db.outbounds
  {
    if result.DispatchSent? { SettleSentFrame(db, claim, moment, result.outbound, result.sentAt); }
  }

  lemma {:induction false} ProcessFrame(db: Db, claim: ClaimedSendJob, moment: Time, env: SendEnv)
    requires db.nextId !in db.outbounds
    ensures ProcessClaimed(db, claim, moment, env).Processed? ==>
      var after := ProcessClaimed(db, claim, moment, env).db;
      MessagingKept(db, after) && NewMessageAllowed(db, after, claim.workspace, claim.payload.toEmail)
  {
    if Accepts(db, claim) {
      SendFrame(db, claim.workspace, claim.payload.toEmail, claim.payload.subject, claim.payload.body, env);
      var (after, result) :=
        Dispatch(db, claim.workspace, claim.payload.toEmail, claim.payload.subject, claim.payload.body, env);
      SettleFrame(after, claim, moment, result);
    }
  }

  lemma {:induction false} ProcessKeepsCampaign(s: Sys, j: Id, index: nat, byId: bool, moment: Time, env: SendEnv)
    requires CampaignInv(s) && InOrder(s.clock, moment, env)
    requires j in s.jobLogs && index < |s.jobLogs[j].tokens| && s.jobLogs[j].tokens[index].fate.Outstanding?
    ensures CampaignInv(Process(s, j, index, byId, moment, env))
  {
    ClaimIsSettling(s, j, index, byId);
    match ClaimInHand(s, j, index, byId)
    case None =>
      RefusedKeeps(s, j, index, s.jobLogs[j].tokens[index].claim);
      LaterClock(s.(jobLogs := LogFate(s.jobLogs, j, index, Refused)), env.stampedAt);
    case Some(claim) =>
      var late := s.(clock := env.stampedAt);
      assert claim.id == j by { assert JobRowOk(s, j); }
      if && Accepts(s.db, claim)
         && Dispatch(s.db, claim.workspace, claim.payload.toEmail, claim.payload.subject, claim.payload.body, env)
           .1.DispatchSent?
      {
        LaterClock(s, env.stampedAt);
        SentOutcome(late, j, index, claim, moment, env);
      } else {
        OtherOutcome(s, j, index, claim, moment, env);
        LaterClock(AfterProcessing(s, j, index, claim, moment, env), env.stampedAt);
      }
  }

  /** A processing call adds at most one outbound message and leaves the rest of messaging alone. */
  lemma {:induction false} ProcessKeepsMessaging(s: Sys, j: Id, index: nat, byId: bool, moment: Time, env: SendEnv)
    requires Inv(s) && InOrder(s.clock, moment, env)
    requires j in s.jobLogs && index < |s.jobLogs[j].tokens| && s.jobLogs[j].tokens[index].fate.Outstanding?
    ensures MessagingInv(Process(s, j, index, byId, moment, env).db)
  {
    MessageIsNew(s);
    var t := Process(s, j, index, byId, moment, env);
    match ClaimInHand(s, j, index, byId)
    case None => assert t.db == s.db;
    case Some(claim) => ProcessFrame(s.db, claim, moment, env);
    MessagingFrame(s.db, t.db);
  }
}
