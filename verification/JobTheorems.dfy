/** What holds of a send job over whole runs. */
module JobTheorems {
  import opened Base
  import opened CampaignDomain
  import opened Evolution
  import opened Invariant
  import opened Machine
  import opened ProcessKeeps
  import opened ProcessingKeeps
  import opened Reachable
  import opened SendQueue
  import opened Sending
  import opened Tokens

  // ---------- Terminal jobs ----------

  /** A worker acts on a snapshot of this job, without reading its status again. */
  predicate ActsOnSnapshot(op: Op, j: Id) {
    op.ProcessToken? && op.job == j && !op.byId
  }

  predicate SomeSnapshot(ops: seq<Op>, j: Id) {
    exists k :: 0 <= k < |ops| && ActsOnSnapshot(ops[k], j)
  }

  /** A job that is done, failed or cancelled is never pending or running again, and keeps its link. */
  lemma {:induction false} TerminalForever(s: Sys, ops: seq<Op>, j: Id)
    requires Inv(s) && IsRun(s, ops) && j in s.db.jobs && s.db.jobs[j].IsTerminal()
    ensures var t := Exec(s, ops);
      && j in t.db.jobs && t.db.jobs[j].IsTerminal()
      && (s.db.jobs[j].outbound.Some? ==> t.db.jobs[j].outbound == s.db.jobs[j].outbound)
  {
    ExecRowsEvolve(s, ops);
    assert JobEvolves(s, Exec(s, ops), j);
  }

  /** What one operation does to the status of a terminal job. */
  lemma {:induction false} TerminalStep(s: Sys, op: Op, j: Id)
    requires Inv(s) && Enabled(s, op) && j in s.db.jobs && s.db.jobs[j].IsTerminal()
    ensures var t := Apply(s, op);
      && j in t.db.jobs
      && t.db.jobs[j].status == if ActsOnSnapshot(op, j) then JobStatus.Cancelled else s.db.jobs[j].status
  {
    ApplyRows(s, op, j);
    assert JobRowOk(s, j);
    match op
    case ProcessToken(job, index, byId, moment, env) =>
      if job == j && !byId {
        var late, claim := s.(clock := env.stampedAt), s.jobLogs[j].tokens[index].claim;
        ClaimIsSettling(s, j, index, byId);
        AcceptedJobIsLive(s, j, claim);
        ProcessedJobs(s.db, claim, moment, env, j);
      }
    case _ =>
  }

  lemma {:induction false} FirstOrLaterSnapshot(ops: seq<Op>, j: Id)
    requires ops != []
    ensures SomeSnapshot(ops, j) <==> ActsOnSnapshot(ops[0], j) || SomeSnapshot(ops[1..], j)
  {
    if SomeSnapshot(ops[1..], j) {
      var k :| 0 <= k < |ops[1..]| && ActsOnSnapshot(ops[1..][k], j);
      assert ActsOnSnapshot(ops[k + 1], j);
    }
    if SomeSnapshot(ops, j) && !ActsOnSnapshot(ops[0], j) {
      var k :| 0 <= k < |ops| && ActsOnSnapshot(ops[k], j);
      assert ActsOnSnapshot(ops[1..][k - 1], j);
    }
  }

  /** A terminal job keeps its status over a run exactly when no worker acts on a stale snapshot of it. */
  lemma {:induction false} TerminalStatusOverRuns(s: Sys, ops: seq<Op>, j: Id)
    requires Inv(s) && IsRun(s, ops) && j in s.db.jobs && s.db.jobs[j].IsTerminal()
    ensures j in Exec(s, ops).db.jobs
    ensures Exec(s, ops).db.jobs[j].status == if SomeSnapshot(ops, j) then JobStatus.Cancelled else s.db.jobs[j].status
    decreases |ops|
  {
    if ops != [] {
      TerminalStep(s, ops[0], j);
      ApplyKeeps(s, ops[0]);
      TerminalStatusOverRuns(Apply(s, ops[0]), ops[1..], j);
      FirstOrLaterSnapshot(ops, j);
    }
  }

  /** Some worker still holds a claim of this job. */
  predicate HeldBySomeone(s: Sys, j: Id) {
    j in s.jobLogs && exists i :: 0 <= i < |s.jobLogs[j].tokens| && s.jobLogs[j].tokens[i].fate.Outstanding?
  }

  /** A terminal job nobody holds is left alone by every operation, and nobody comes to hold it. */
  lemma {:induction false} UnheldStep(s: Sys, op: Op, j: Id)
    requires Inv(s) && Enabled(s, op) && j in s.db.jobs && s.db.jobs[j].IsTerminal() && !HeldBySomeone(s, j)
    ensures var t := Apply(s, op);
      j in t.db.jobs && t.db.jobs[j].status == s.db.jobs[j].status && !HeldBySomeone(t, j)
  {
    assert JobRowOk(s, j);
    assert !Touches(op, j) by {
      match op
      case ClaimJobs(workspace, _, _, moment) =>
      case ProcessToken(job, index, _, _, _) =>
        assert job == j ==> HeldBySomeone(s, j);
      case _ =>
    }
    ApplyRows(s, op, j);
  }

  lemma {:induction false} UnheldStays(s: Sys, ops: seq<Op>, j: Id)
    requires Inv(s) && IsRun(s, ops) && j in s.db.jobs && s.db.jobs[j].IsTerminal() && !HeldBySomeone(s, j)
    ensures j in Exec(s, ops).db.jobs && Exec(s, ops).db.jobs[j].status == s.db.jobs[j].status
    decreases |ops|
  {
    if ops != [] {
      UnheldStep(s, ops[0], j);
      ApplyKeeps(s, ops[0]);
      UnheldStays(Apply(s, ops[0]), ops[1..], j);
    }
  }

  lemma {:induction false} HolderCancels(s: Sys, j: Id) returns (ops: seq<Op>)
    requires Inv(s) && j in s.db.jobs && s.db.jobs[j].IsTerminal() && HeldBySomeone(s, j)
    ensures IsRun(s, ops) && j in Exec(s, ops).db.jobs && Exec(s, ops).db.jobs[j].status.Cancelled?
  {
    var i :| 0 <= i < |s.jobLogs[j].tokens| && s.jobLogs[j].tokens[i].fate.Outstanding?;
    var op := ProcessToken(j, i, false, s.clock, SendEnv(false, s.clock, s.clock, "", Result.Failure("")));
    TerminalStep(s, op, j);
    RunCons(s, op, []);
    ops := [op] + [];
  }

  /** Whether a done or failed job can still turn cancelled shows in the present state: someone holds a claim of it. */
  lemma {:induction false} CancellableIffHeld(s: Sys, j: Id)
    requires Inv(s) && j in s.db.jobs && s.db.jobs[j].IsTerminal() && !s.db.jobs[j].status.Cancelled?
    ensures HeldBySomeone(s, j) <==>
      exists ops :: IsRun(s, ops) && j in Exec(s, ops).db.jobs && Exec(s, ops).db.jobs[j].status.Cancelled?
  {
    if HeldBySomeone(s, j) {
      var ops := HolderCancels(s, j);
    } else {
      forall ops | IsRun(s, ops)
        ensures j in Exec(s, ops).db.jobs && Exec(s, ops).db.jobs[j].status == s.db.jobs[j].status
      {
        UnheldStays(s, ops, j);
      }
    }
  }

  // ---------- Attempts ----------

  /** The attempts of a job are its claims minus its deferrals, and so never negative. */
  lemma {:induction false} AttemptsAreClaimsMinusDeferrals(s: Sys, j: Id)
    requires Inv(s) && j in s.db.jobs
    ensures s.db.jobs[j].attempts == |s.jobLogs[j].tokens| - Deferrals(s.jobLogs[j].tokens)
    ensures 0 <= s.db.jobs[j].attempts
  {
    assert JobRowOk(s, j);
    CountedPlusDeferrals(s.jobLogs[j].tokens);
  }

  /** Two retries at most, and one outcome at most that ends the job. */
  lemma {:induction false} FewOutcomesPerJob(s: Sys, j: Id)
    requires Inv(s) && j in s.db.jobs
    ensures Retries(s.jobLogs[j].tokens) <= 2
    ensures Finals(s.jobLogs[j].tokens) <= 1
  {
    assert JobRowOk(s, j);
    RetriesAreFew(s.jobLogs[j].tokens);
  }

  /** Outcomes, over the first `n` jobs of a lead, that are neither deferred, cancelled nor refused. */
  ghost function OutcomesOf(s: Sys, l: Id, n: nat): nat
    requires Inv(s) && l in s.db.leads && n <= |s.leadLogs[l].jobs|
  {
    if n == 0 then 0
    else
      var j := s.leadLogs[l].jobs[n - 1];
      assert LeadRowOk(s, l) && SlotOk(s, l, n - 1);
      OutcomesOf(s, l, n - 1) + Retries(s.jobLogs[j].tokens) + Finals(s.jobLogs[j].tokens)
  }

  lemma {:induction false} FewOutcomes(s: Sys, l: Id, n: nat)
    requires Inv(s) && l in s.db.leads && n <= |s.leadLogs[l].jobs|
    ensures OutcomesOf(s, l, n) <= 3 * n
  {
    if n > 0 {
      FewOutcomes(s, l, n - 1);
      assert LeadRowOk(s, l) && SlotOk(s, l, n - 1);
      FewOutcomesPerJob(s, s.leadLogs[l].jobs[n - 1]);
    }
  }

  /** A lead of an N-step campaign sees at most 3N outcomes that are neither deferred nor cancelled. */
  lemma {:induction false} FewOutcomesPerLead(s: Sys, l: Id)
    requires Inv(s) && l in s.db.leads
    ensures s.db.leads[l].campaign in s.db.campaigns
    ensures OutcomesOf(s, l, |s.leadLogs[l].jobs|) <= 3 * |s.db.campaigns[s.db.leads[l].campaign].steps|
    ensures forall j :: j in s.db.jobs && s.db.jobs[j].lead == l ==> j in s.leadLogs[l].jobs
  {
    assert LeadRowOk(s, l);
    FewOutcomes(s, l, |s.leadLogs[l].jobs|);
    forall j | j in s.db.jobs && s.db.jobs[j].lead == l ensures j in s.leadLogs[l].jobs {
      assert JobRowOk(s, j);
    }
  }

  // ---------- Claims ----------

  /**
   What a claim does to each job. Those it takes are of its workspace, and due or on a lease of five minutes that has
   run out; they run under a lease of this worker, on one attempt more, and the worker keeps that snapshot.
   */
  lemma {:induction false} ClaimByColumns(
    s: Sys, workspace: Id, worker: Id, chosen: set<Id>, moment: Time, j: Id)
    requires Inv(s) && Enabled(s, ClaimJobs(workspace, worker, chosen, moment)) && j in s.db.jobs
    ensures var t := Apply(s, ClaimJobs(workspace, worker, chosen, moment));
      var row := s.db.jobs[j];
      && t.db == s.db.(jobs := t.db.jobs) && t.db.jobs.Keys == s.db.jobs.Keys && chosen <= s.db.jobs.Keys
      && j in s.jobLogs && j in t.jobLogs
      && (row.workspace != workspace ==> j !in chosen)
      && (j !in chosen ==> t.db.jobs[j] == row && t.jobLogs[j] == s.jobLogs[j])
      && (j in chosen ==>
            && (|| (row.status.Pending? && row.scheduledAt <= moment)
                || (row.status.Running? && row.lockedAt.Some? && row.lockedAt.value < moment - 300 * SECOND))
            && t.db.jobs[j] == row.(status := JobStatus.Running, lockedAt := Some(moment), lockedBy := Some(worker),
                                    attempts := row.attempts + 1, updatedAt := moment)
            && t.jobLogs[j] == s.jobLogs[j].(tokens := s.jobLogs[j].tokens + [
                 Token(ClaimedSendJob(j, workspace, row.mailbox, row.lead, row.payload, row.attempts + 1,
                                      row.scheduledAt), moment, Outstanding)]))
  {
    assert JobRowOk(s, j);
  }

  // ---------- Leases ----------

  /** A running job that no operation touches keeps its row. */
  lemma {:induction false} UntouchedRunningJobStays(s: Sys, ops: seq<Op>, j: Id)
    requires Inv(s) && IsRun(s, ops) && j in s.db.jobs && s.db.jobs[j].status.Running?
    requires forall k :: 0 <= k < |ops| ==> !Touches(ops[k], j)
    ensures var t := Exec(s, ops); j in t.db.jobs && t.db.jobs[j] == s.db.jobs[j]
    decreases |ops|
  {
    if ops != [] {
      ApplyRows(s, ops[0], j);
      ApplyKeeps(s, ops[0]);
      forall k | 0 <= k < |ops[1..]| ensures !Touches(ops[1..][k], j) {
        assert ops[1..][k] == ops[k + 1];
      }
      UntouchedRunningJobStays(Apply(s, ops[0]), ops[1..], j);
    }
  }

  /** Two claims of one job with no processing of it in between are more than the lease apart. */
  lemma {:induction false} ClaimsAreALeaseApart(
    s: Sys, workspace: Id, worker: Id, chosen: set<Id>, moment: Time, ops: seq<Op>,
    workspace': Id, worker': Id, chosen': set<Id>, moment': Time, j: Id)
    requires Inv(s) && Enabled(s, ClaimJobs(workspace, worker, chosen, moment)) && j in chosen
    requires var t := Apply(s, ClaimJobs(workspace, worker, chosen, moment));
      && IsRun(t, ops)
      && (forall k :: 0 <= k < |ops| ==> !Touches(ops[k], j))
      && Enabled(Exec(t, ops), ClaimJobs(workspace', worker', chosen', moment')) && j in chosen'
    ensures moment + 300 * SECOND < moment'
  {
    var op := ClaimJobs(workspace, worker, chosen, moment);
    ApplyKeeps(s, op);
    UntouchedRunningJobStays(Apply(s, op), ops, j);
  }
}
