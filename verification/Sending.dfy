/** One send transaction: the guarded send, its mapping to a dispatch result, and the job it settles. */
module Sending {
  import opened Base
  import opened CampaignDomain
  import opened SendQueue
  import opened Tables

  const BUSY_MAILBOX_RETRY_DELAY: Time := 5 * SECOND

  datatype Receipt = Receipt(messageId: string, threadId: string)

  /** What the outside world answers during one send: the lock, the two clock readings, the provider. */
  datatype SendEnv = SendEnv(
    lockFree: bool,
    checkedAt: Time,
    stampedAt: Time,
    messageId: string,
    provider: Result<Receipt, string>)

  datatype SendError =
    | MailboxNotConfigured
    | RecipientSuppressed
    | MailboxBusy
    | DailySendCapReached(retryAt: Time)
    | ProviderError(error: string)

  datatype DispatchResult =
    | DispatchSent(outbound: Id, sentAt: Time)
    | DispatchDeferred(retryAt: Time, reason: string)
    | DispatchSuppressed
    | DispatchFailed(error: string)

  datatype Outcome = Sent | Deferred | Suppressed | Retrying | Failed | Cancelled

  /** A committed transaction, or an exception that rolled it back. */
  datatype ProcessResult = Processed(db: Db, outcome: Outcome) | Raised(error: DomainError)

  function NewOutbound(id: Id, workspace: Id, mailbox: Id, toEmail: string, subject: string, body: string, env: SendEnv)
    : Outbound
  {
    Outbound(id, workspace, mailbox, toEmail, subject, body, env.messageId, None, None, env.stampedAt)
  }

  function Delivered(message: Outbound, receipt: Receipt): Outbound {
    message.(providerMessageId := Some(receipt.messageId), providerThreadId := Some(receipt.threadId))
  }

  function SendEmail(db: Db, workspace: Id, toEmail: string, subject: string, body: string, env: SendEnv)
    : Result<(Db, Outbound), SendError>
  {
    if workspace !in db.mailboxes then Failure(MailboxNotConfigured)
    else
      var mailbox := db.mailboxes[workspace];
      if IsSuppressed(db.suppressions, workspace, toEmail) then Failure(RecipientSuppressed)
      else if !env.lockFree then Failure(MailboxBusy)
      else
        var dayStart := StartOfUtcDay(env.checkedAt);
        if |SentSince(db.outbounds, mailbox.id, dayStart)| >= mailbox.dailySendCap then
          Failure(DailySendCapReached(dayStart + DAY))
        else
          var message := NewOutbound(db.nextId, workspace, mailbox.id, toEmail, subject, body, env);
          match env.provider
          case Failure(error) => Failure(ProviderError(error))
          case Success(receipt) =>
            var sent := Delivered(message, receipt);
            Success((db.(outbounds := db.outbounds[sent.id := sent], nextId := db.nextId + 1), sent))
  }

  /** The savepoint: a failed send leaves no row behind. */
  function Dispatch(db: Db, workspace: Id, toEmail: string, subject: string, body: string, env: SendEnv)
    : (Db, DispatchResult)
  {
    match SendEmail(db, workspace, toEmail, subject, body, env)
    case Success((after, message)) => (after, DispatchSent(message.id, message.createdAt))
    case Failure(RecipientSuppressed) => (db, DispatchSuppressed)
    case Failure(MailboxBusy) => (db, DispatchDeferred(env.checkedAt + BUSY_MAILBOX_RETRY_DELAY, "mailbox busy"))
    case Failure(DailySendCapReached(retryAt)) => (db, DispatchDeferred(retryAt, "daily send cap reached"))
    case Failure(MailboxNotConfigured) => (db, DispatchFailed("mailbox not configured"))
    case Failure(ProviderError(error)) => (db, DispatchFailed(error))
  }

  predicate Accepts(db: Db, claim: ClaimedSendJob) {
    && claim.payload.campaign in db.campaigns
    && claim.lead in db.leads
    && db.campaigns[claim.payload.campaign].AcceptsSend(db.leads[claim.lead], claim.payload.stepPosition)
  }

  /** One claimed job, from the eligibility check to the row updates, in one transaction. */
  function ProcessClaimed(db: Db, claim: ClaimedSendJob, moment: Time, env: SendEnv): ProcessResult {
    if !Accepts(db, claim) then
      Processed(db.(jobs := Cancel(db.jobs, claim.id, moment)), Outcome.Cancelled)
    else
      var (after, result) :=
        Dispatch(db, claim.workspace, claim.payload.toEmail, claim.payload.subject, claim.payload.body, env);
      Settle(after, claim, moment, result)
  }

  /** The four results of a dispatch. */
  function Settle(db: Db, claim: ClaimedSendJob, moment: Time, result: DispatchResult): ProcessResult
    requires Accepts(db, claim)
  {
    var campaign := db.campaigns[claim.payload.campaign];
    var lead := db.leads[claim.lead];
    match result
    case DispatchSent(outbound, sentAt) =>
      (match campaign.RecordSent(lead, claim.payload.stepPosition, sentAt, db.nextId)
       case Failure(error) => Raised(error)
       case Success((advanced, nextJob)) =>
         var settled := db.(leads := db.leads[claim.lead := advanced],
                            jobs := Complete(db.jobs, claim.id, outbound, moment));
         Processed(match nextJob
                   case None => settled
                   case Some(job) => settled.(jobs := settled.jobs[job.id := job], nextId := db.nextId + 1),
                   Outcome.Sent))
    case DispatchDeferred(retryAt, reason) =>
      Processed(db.(jobs := Release(db.jobs, claim.id, retryAt, reason, moment)), Deferred)
    case DispatchSuppressed =>
      Processed(db.(leads := db.leads[claim.lead := campaign.FailLead(lead, StopReason.Suppressed, moment).value],
                    jobs := Cancel(db.jobs, claim.id, moment)),
                Outcome.Suppressed)
    case DispatchFailed(error) =>
      (match NextRetryAt(claim.attempts, moment)
       case Some(retryAt) => Processed(db.(jobs := RetryLater(db.jobs, claim.id, retryAt, error, moment)), Retrying)
       case None =>
         Processed(db.(leads := db.leads[claim.lead := campaign.FailLead(lead, SendFailed, moment).value],
                       jobs := Fail(db.jobs, claim.id, error, moment)),
                   Outcome.Failed))
  }
}
