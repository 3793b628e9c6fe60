/** The row operations of the send-job queue. */
module SendQueue {
  import opened Base
  import opened CampaignDomain

  type JobTable = map<Id, SendJob>

  /** What a worker takes away from a claim. */
  datatype ClaimedSendJob = ClaimedSendJob(
    id: Id,
    workspace: Id,
    mailbox: Id,
    lead: Id,
    payload: Payload,
    attempts: int,
    scheduledAt: Time)

  function Claimed(row: SendJob): ClaimedSendJob {
    ClaimedSendJob(row.id, row.workspace, row.mailbox, row.lead, row.payload, row.attempts, row.scheduledAt)
  }

  /** The `WHERE` of the claim statement: due, or running on a lease that has run out. */
  predicate Claimable(row: SendJob, workspace: Id, moment: Time) {
    && row.workspace == workspace
    && (|| (row.status.Pending? && row.scheduledAt <= moment)
        || (row.status.Running? && row.lockedAt.Some? && row.lockedAt.value < moment - CLAIM_LEASE))
  }

  function ClaimRow(row: SendJob, worker: Id, moment: Time): SendJob {
    row.(status := JobStatus.Running, lockedAt := Some(moment), lockedBy := Some(worker),
         attempts := row.attempts + 1, updatedAt := moment)
  }

  function ClaimRows(jobs: JobTable, chosen: set<Id>, worker: Id, moment: Time): JobTable {
    map id | id in jobs :: if id in chosen then ClaimRow(jobs[id], worker, moment) else jobs[id]
  }

  function CompleteRow(row: SendJob, outbound: Id, moment: Time): SendJob {
    row.(status := JobStatus.Done, outbound := Some(outbound), lastError := None, updatedAt := moment)
  }

  function RescheduleRow(row: SendJob, retryAt: Time, reason: string, moment: Time): SendJob {
    row.(status := JobStatus.Pending, scheduledAt := retryAt, lockedAt := None, lockedBy := None,
         lastError := Some(reason), updatedAt := moment)
  }

  function ReleaseRow(row: SendJob, retryAt: Time, reason: string, moment: Time): SendJob {
    RescheduleRow(row, retryAt, reason, moment).(attempts := row.attempts - 1)
  }

  function FailRow(row: SendJob, error: string, moment: Time): SendJob {
    row.(status := JobStatus.Failed, lastError := Some(error), updatedAt := moment)
  }

  function CancelRow(row: SendJob, moment: Time): SendJob {
    row.(status := JobStatus.Cancelled, updatedAt := moment)
  }

  function Complete(jobs: JobTable, id: Id, outbound: Id, moment: Time): JobTable {
    if id in jobs then jobs[id := CompleteRow(jobs[id], outbound, moment)] else jobs
  }

  function Release(jobs: JobTable, id: Id, retryAt: Time, reason: string, moment: Time): JobTable {
    if id in jobs then jobs[id := ReleaseRow(jobs[id], retryAt, reason, moment)] else jobs
  }

  function RetryLater(jobs: JobTable, id: Id, retryAt: Time, error: string, moment: Time): JobTable {
    if id in jobs then jobs[id := RescheduleRow(jobs[id], retryAt, error, moment)] else jobs
  }

  function Fail(jobs: JobTable, id: Id, error: string, moment: Time): JobTable {
    if id in jobs then jobs[id := FailRow(jobs[id], error, moment)] else jobs
  }

  function Cancel(jobs: JobTable, id: Id, moment: Time): JobTable {
    if id in jobs then jobs[id := CancelRow(jobs[id], moment)] else jobs
  }

  function CancelPendingForLead(jobs: JobTable, lead: Id, moment: Time): JobTable {
    map id | id in jobs ::
      if jobs[id].lead == lead && jobs[id].status.Pending? then CancelRow(jobs[id], moment) else jobs[id]
  }

  predicate LinksTo(jobs: JobTable, id: Id, outbound: Id) {
    id in jobs && jobs[id].outbound == Some(outbound)
  }

  /** No outbound message is linked from two jobs. */
  ghost predicate LinksUnique(jobs: JobTable) {
    forall i, j :: i in jobs && j in jobs && jobs[i].outbound.Some? && jobs[i].outbound == jobs[j].outbound ==> i == j
  }

  /** The lead behind an outbound message, if a job links to it. */
  ghost function FindLead(jobs: JobTable, outbound: Id): (lead: Option<Id>)
    ensures lead.None? <==> forall id :: !LinksTo(jobs, id, outbound)
    ensures lead.Some? ==> exists id :: LinksTo(jobs, id, outbound) && jobs[id].lead == lead.value
  {
    if exists id :: LinksTo(jobs, id, outbound) then
      var id :| LinksTo(jobs, id, outbound);
      Some(jobs[id].lead)
    else None
  }

  lemma {:induction false} FindLeadOfLink(jobs: JobTable, id: Id, outbound: Id)
    requires LinksUnique(jobs) && LinksTo(jobs, id, outbound)
    ensures FindLead(jobs, outbound) == Some(jobs[id].lead)
  {
  }

  /** Completing a job is what makes its lead findable by the message, and changes no other message's lead. */
  lemma {:induction false} CompletedIsFound(jobs: JobTable, id: Id, outbound: Id, moment: Time, other: Id)
    requires LinksUnique(jobs) && id in jobs && forall k :: k in jobs ==> jobs[k].outbound != Some(outbound)
    ensures var after := Complete(jobs, id, outbound, moment);
      && LinksUnique(after)
      && FindLead(after, outbound) == Some(jobs[id].lead)
      && (other != outbound && jobs[id].outbound != Some(other) ==> FindLead(after, other) == FindLead(jobs, other))
  {
    var after := Complete(jobs, id, outbound, moment);
    FindLeadOfLink(after, id, outbound);
    if other != outbound && jobs[id].outbound != Some(other) {
      forall k ensures LinksTo(after, k, other) <==> LinksTo(jobs, k, other) {
      }
      if k :| LinksTo(jobs, k, other) {
        FindLeadOfLink(jobs, k, other);
        FindLeadOfLink(after, k, other);
      }
    }
  }
}
