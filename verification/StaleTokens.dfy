/** A worker that outlives its lease can overwrite the status of a job another worker has finished. */
module StaleTokens {
  import opened Base
  import opened CampaignDomain
  import opened Evolution
  import opened Invariant
  import opened JobTheorems
  import opened LeadTheorems
  import opened Machine
  import opened ProcessKeeps
  import opened ProcessingKeeps
  import opened Reachable
  import opened Scenario
  import opened SendQueue
  import opened Sending
  import opened Tables

  /** The guards let a message to this job's recipient through. */
  predicate GuardsPass(db: Db, job: SendJob, env: SendEnv) {
    && job.workspace in db.mailboxes
    && !IsSuppressed(db.suppressions, job.workspace, job.payload.toEmail)
    && env.lockFree && env.provider.Success?
    && |SentSince(db.outbounds, db.mailboxes[job.workspace].id, StartOfUtcDay(env.checkedAt))|
         < db.mailboxes[job.workspace].dailySendCap
  }

  /** A pending job, and the times of two claims of it, the second after the first has expired. */
  ghost predicate Overtaken(s: Sys, j: Id, first: Time, second: Time) {
    && Inv(s) && j in s.db.jobs && s.db.jobs[j].status.Pending? && s.db.jobs[j].scheduledAt <= first
    && s.clock <= first && first + CLAIM_LEASE < second
  }

  ghost function Claim(s: Sys, j: Id, worker: Id, moment: Time): Op
    requires j in s.db.jobs
  {
    ClaimJobs(s.db.jobs[j].workspace, worker, {j}, moment)
  }

  /** One claim of a claimable job: it runs under a fresh lease, and the worker holds one more token. */
  lemma {:induction false} ClaimedOnce(s: Sys, j: Id, worker: Id, moment: Time) returns (t: Sys)
    requires Inv(s) && j in s.db.jobs && s.clock <= moment
    requires Claimable(s.db.jobs[j], s.db.jobs[j].workspace, moment)
    ensures Enabled(s, Claim(s, j, worker, moment)) && t == Apply(s, Claim(s, j, worker, moment))
    ensures Inv(t) && t.clock == moment && t.db == s.db.(jobs := t.db.jobs)
    ensures j in t.db.jobs && t.db.jobs[j].status.Running? && t.db.jobs[j].lockedAt == Some(moment)
    ensures SameIdentity(s.db.jobs[j], t.db.jobs[j])
    ensures j in s.jobLogs && j in t.jobLogs
    ensures exists token: Token :: token.fate.Outstanding? && t.jobLogs[j].tokens == s.jobLogs[j].tokens + [token]
  {
    assert JobRowOk(s, j);
    ApplyKeeps(s, Claim(s, j, worker, moment));
    t := Apply(s, Claim(s, j, worker, moment));
    assert t.jobLogs[j].tokens == s.jobLogs[j].tokens + [Token(Claimed(t.db.jobs[j]), moment, Outstanding)];
  }

  lemma {:induction false} ClaimedTwice(s: Sys, j: Id, a: Id, b: Id, first: Time, second: Time) returns (u: Sys)
    requires Overtaken(s, j, first, second)
    ensures Enabled(s, Claim(s, j, a, first)) && Enabled(Apply(s, Claim(s, j, a, first)), Claim(s, j, b, second))
    ensures u == Apply(Apply(s, Claim(s, j, a, first)), Claim(s, j, b, second)) && Inv(u) && u.clock == second
    ensures u.db == s.db.(jobs := u.db.jobs) && j in u.db.jobs && u.db.jobs[j].status.Running?
    ensures SameIdentity(s.db.jobs[j], u.db.jobs[j])
    ensures j in s.jobLogs && j in u.jobLogs
    ensures var (n, tokens) := (|s.jobLogs[j].tokens|, u.jobLogs[j].tokens);
      |tokens| == n + 2 && tokens[n].fate.Outstanding? && tokens[n + 1].fate.Outstanding?
  {
    var t := ClaimedOnce(s, j, a, first);
    u := ClaimedOnce(t, j, b, second);
  }

  /** A claim of the job is accepted and sent when the guards pass. */
  lemma {:induction false} RunningJobGoesOut(s: Sys, j: Id, index: nat, moment: Time, env: SendEnv)
    requires Inv(s) && j in s.db.jobs && s.db.jobs[j].status.Running? && s.db.jobs[j].lead in s.db.leads
    requires !s.db.leads[s.db.jobs[j].lead].IsStopped()
    requires Enabled(s, ProcessToken(j, index, false, moment, env)) && GuardsPass(s.db, s.db.jobs[j], env)
    ensures var t := Apply(s, ProcessToken(j, index, false, moment, env));
      j in t.db.jobs && t.db.jobs[j].status.Done?
  {
    var claim := s.jobLogs[j].tokens[index].claim;
    assert JobRowOk(s, j);
    ClaimIsSettling(s, j, index, false);
    LiveJobIsNext(s, s.db.jobs[j].lead, j);
    AcceptedJobIsLive(s, j, claim);
    LaterClock(s, env.stampedAt);
    SentOutcome(s.(clock := env.stampedAt), j, index, claim, moment, env);
    ProcessedJobs(s.db, claim, moment, env, j);
  }

  /**
   From any reachable state, any due job whose message the guards let through can be claimed, left to expire, claimed
   again and sent, and then marked cancelled by the first worker: done is not the last word on its status.
   */
  lemma {:induction false} StaleTokenOverwritesDone(
    s: Sys, j: Id, a: Id, b: Id, first: Time, second: Time, moment: Time, env: SendEnv, late: Time, lateEnv: SendEnv)
    requires Overtaken(s, j, first, second) && GuardsPass(s.db, s.db.jobs[j], env)
    requires InOrder(second, moment, env) && InOrder(env.stampedAt, late, lateEnv)
    ensures var n := |s.jobLogs[j].tokens|;
      var sent := [Claim(s, j, a, first), Claim(s, j, b, second), ProcessToken(j, n + 1, false, moment, env)];
      var all := sent + [ProcessToken(j, n, false, late, lateEnv)];
      && IsRun(s, sent) && j in Exec(s, sent).db.jobs && Exec(s, sent).db.jobs[j].status.Done?
      && IsRun(s, all) && j in Exec(s, all).db.jobs && Exec(s, all).db.jobs[j].status.Cancelled?
  {
    var n := |s.jobLogs[j].tokens|;
    var u := ClaimedTwice(s, j, a, b, first, second);
    BothCanProcess(s, u, j, second, moment, env);
    var send, stale := ProcessToken(j, n + 1, false, moment, env), ProcessToken(j, n, false, late, lateEnv);
    SentThenOverwritten(u, j, n, moment, env, late, lateEnv);
    FourSteps(s, Claim(s, j, a, first), Claim(s, j, b, second), send, stale);
  }

  /** After the two claims both workers hold a token, and the message can still go out. */
  lemma {:induction false} BothCanProcess(s: Sys, u: Sys, j: Id, second: Time, moment: Time, env: SendEnv)
    requires Inv(s) && j in s.db.jobs && s.db.jobs[j].status.Pending? && GuardsPass(s.db, s.db.jobs[j], env)
    requires Inv(u) && u.clock == second && u.db == s.db.(jobs := u.db.jobs)
    requires j in u.db.jobs && SameIdentity(s.db.jobs[j], u.db.jobs[j]) && InOrder(second, moment, env)
    requires j in s.jobLogs && j in u.jobLogs
    requires var (n, tokens) := (|s.jobLogs[j].tokens|, u.jobLogs[j].tokens);
      |tokens| == n + 2 && tokens[n].fate.Outstanding? && tokens[n + 1].fate.Outstanding?
    ensures var n := |s.jobLogs[j].tokens|;
      && Enabled(u, ProcessToken(j, n, false, moment, env)) && Enabled(u, ProcessToken(j, n + 1, false, moment, env))
      && u.db.jobs[j].lead in u.db.leads && !u.db.leads[u.db.jobs[j].lead].IsStopped()
      && GuardsPass(u.db, u.db.jobs[j], env)
  {
    assert JobRowOk(s, j);
    LiveJobIsNext(s, s.db.jobs[j].lead, j);
  }

  lemma {:induction false} SentThenOverwritten(
    u: Sys, j: Id, n: nat, moment: Time, env: SendEnv, late: Time, lateEnv: SendEnv)
    requires Inv(u) && j in u.db.jobs && u.db.jobs[j].status.Running? && u.db.jobs[j].lead in u.db.leads
    requires !u.db.leads[u.db.jobs[j].lead].IsStopped() && GuardsPass(u.db, u.db.jobs[j], env)
    requires Enabled(u, ProcessToken(j, n, false, moment, env))
    requires Enabled(u, ProcessToken(j, n + 1, false, moment, env))
    requires InOrder(env.stampedAt, late, lateEnv)
    ensures var (send, stale) := (ProcessToken(j, n + 1, false, moment, env), ProcessToken(j, n, false, late, lateEnv));
      var v := Apply(u, send);
      && j in v.db.jobs && v.db.jobs[j].status.Done? && Enabled(v, stale)
      && j in Apply(v, stale).db.jobs && Apply(v, stale).db.jobs[j].status.Cancelled?
  {
    var send := ProcessToken(j, n + 1, false, moment, env);
    RunningJobGoesOut(u, j, n + 1, moment, env);
    StaleIsEnabled(u, j, n, moment, env, late, lateEnv);
    ApplyKeeps(u, send);
    Overwritten(Apply(u, send), j, ProcessToken(j, n, false, late, lateEnv));
  }

  /** The first worker's token is still good for a call after the second worker has sent the job. */
  lemma {:induction false} StaleIsEnabled(
    u: Sys, j: Id, n: nat, moment: Time, env: SendEnv, late: Time, lateEnv: SendEnv)
    requires Inv(u)
    requires Enabled(u, ProcessToken(j, n, false, moment, env))
    requires Enabled(u, ProcessToken(j, n + 1, false, moment, env))
    requires InOrder(env.stampedAt, late, lateEnv)
    ensures Enabled(Apply(u, ProcessToken(j, n + 1, false, moment, env)), ProcessToken(j, n, false, late, lateEnv))
  {
    OtherTokenLeft(u, j, n + 1, false, moment, env, n);
    ClockAfter(u, j, n + 1, false, moment, env);
  }

  lemma {:induction false} Overwritten(v: Sys, j: Id, stale: Op)
    requires Inv(v) && j in v.db.jobs && v.db.jobs[j].status.Done?
    requires ActsOnSnapshot(stale, j) && Enabled(v, stale)
    ensures j in Apply(v, stale).db.jobs && Apply(v, stale).db.jobs[j].status.Cancelled?
  {
    TerminalStep(v, stale, j);
  }

  lemma {:induction false} FourSteps(s: Sys, a: Op, b: Op, c: Op, d: Op)
    requires Enabled(s, a) && Enabled(Apply(s, a), b) && Enabled(Apply(Apply(s, a), b), c)
    requires Enabled(Apply(Apply(Apply(s, a), b), c), d)
    ensures IsRun(s, [a, b, c]) && Exec(s, [a, b, c]) == Apply(Apply(Apply(s, a), b), c)
    ensures IsRun(s, [a, b, c] + [d]) && Exec(s, [a, b, c] + [d]) == Apply(Apply(Apply(Apply(s, a), b), c), d)
  {
    var (t, u, v) := (Apply(s, a), Apply(Apply(s, a), b), Apply(Apply(Apply(s, a), b), c));
    RunCons(u, c, []);
    RunCons(t, b, [c]);
    RunCons(s, a, [b, c]);
    assert [c] + [] == [c] && [b] + [c] == [b, c] && [a] + [b, c] == [a, b, c];
    RunCons(v, d, []);
    assert [d] + [] == [d];
    RunAppend(s, [a, b, c], [d]);
  }

  // ---------- A concrete run ----------

  const LATE: Time := CLAIM_LEASE + 1
  const ANSWERS := SendEnv(true, LATE, LATE, "id", Success(Receipt("p", "t")))

  /** The run goes through: claimed, left to expire, claimed again, sent, and processed by the first worker. */
  lemma {:induction false} TwoWorkers(s: Sys) returns (sent: seq<Op>, stale: Op)
    requires IsStarted(s)
    ensures IsRun(s, sent) && 14 in Exec(s, sent).db.jobs && Exec(s, sent).db.jobs[14].status.Done?
    ensures IsRun(s, sent + [stale]) && 14 in Exec(s, sent + [stale]).db.jobs
    ensures Exec(s, sent + [stale]).db.jobs[14].status.Cancelled?
  {
    assert JobRowOk(s, 14);
    assert SentSince(s.db.outbounds, 2, StartOfUtcDay(LATE)) == {};
    StaleTokenOverwritesDone(s, 14, 7, 8, 0, LATE, LATE, ANSWERS, LATE, ANSWERS);
    var n := |s.jobLogs[14].tokens|;
    sent := [Claim(s, 14, 7, 0), Claim(s, 14, 8, LATE), ProcessToken(14, n + 1, false, LATE, ANSWERS)];
    stale := ProcessToken(14, n, false, LATE, ANSWERS);
  }

  /** From empty tables, a run whose last operation turns a done job cancelled. */
  lemma {:induction false} DoneIsNotForever() returns (s: Sys, ops: seq<Op>, last: Op)
    ensures Init(s) && IsRun(s, ops) && 14 in Exec(s, ops).db.jobs && Exec(s, ops).db.jobs[14].status.Done?
    ensures IsRun(s, ops + [last]) && 14 in Exec(s, ops + [last]).db.jobs
    ensures Exec(s, ops + [last]).db.jobs[14].status.Cancelled?
  {
    s := EmptyState();
    var setup := OneLeadStarted();
    var sent, stale := TwoWorkers(Exec(s, setup));
    RunAppend(s, setup, sent);
    RunAppend(s, setup, sent + [stale]);
    ops, last := setup + sent, stale;
    assert setup + (sent + [stale]) == ops + [last];
  }
}
