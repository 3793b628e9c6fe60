/** The two drivers of the queue, the Python worker and the Go sender, as runs of the machine. */
module Drivers {
  import opened Base
  import opened CampaignHandlers
  import opened Evolution
  import opened Invariant
  import opened Machine
  import opened Reachable
  import opened Repositories
  import opened SendQueue
  import opened Sending
  import opened Tables

  /** The committed state, between transactions. */
  class Database {
    var committed: Db

    constructor (committed: Db)
      ensures this.committed == committed
    {
      this.committed := committed;
    }
  }

  /** What one processing call meets. A lost call ends before its transaction commits. */
  datatype Call = Call(lost: bool, moment: Time, env: SendEnv)

  /** A token: the job, and the place of the claim among the job's claims. */
  datatype TokenRef = TokenRef(job: Id, index: nat)

  ghost predicate Holds(s: Sys, token: TokenRef, claim: ClaimedSendJob) {
    && token.job in s.jobLogs && token.index < |s.jobLogs[token.job].tokens|
    && s.jobLogs[token.job].tokens[token.index].fate.Outstanding?
    && s.jobLogs[token.job].tokens[token.index].claim == claim
    && claim.id == token.job
  }

  ghost predicate Ended(s: Sys, token: TokenRef, fate: Fate) {
    HasFate(s, token.job, token.index, fate)
  }

  predicate Spares(op: Op, mine: set<TokenRef>) {
    op.ProcessToken? ==> TokenRef(op.job, op.index) !in mine
  }

  // ---------- Tokens over runs ----------

  /** An operation by someone else leaves a token outstanding. */
  lemma {:induction false} TokenSpared(s: Sys, op: Op, token: TokenRef, claim: ClaimedSendJob, mine: set<TokenRef>)
    requires Inv(s) && Enabled(s, op) && Holds(s, token, claim) && token in mine && Spares(op, mine)
    ensures Holds(Apply(s, op), token, claim)
  {
    ApplyRows(s, op, token.job);
    assert token.job in s.db.jobs;
    match op
    case ProcessToken(job, index, byId, moment, env) =>
      if job == token.job { OtherTokenLeft(s, job, index, byId, moment, env, token.index); }
    case _ =>
  }

  lemma {:induction false} EndedStays(s: Sys, t: Sys, token: TokenRef, fate: Fate)
    requires Inv(s) && RowsEvolve(s, t) && Ended(s, token, fate) && !fate.Outstanding?
    ensures Ended(t, token, fate)
  {
    assert token.job in s.db.jobs;
    assert JobEvolves(s, t, token.job);
  }

  lemma {:induction false} TokenSparedOver(
    s: Sys, ops: seq<Op>, token: TokenRef, claim: ClaimedSendJob, mine: set<TokenRef>)
    requires Inv(s) && IsRun(s, ops) && Holds(s, token, claim) && token in mine
    requires forall k :: 0 <= k < |ops| ==> Spares(ops[k], mine)
    ensures Holds(Exec(s, ops), token, claim)
    decreases |ops|
  {
    if ops != [] {
      TokenSpared(s, ops[0], token, claim, mine);
      ApplyKeeps(s, ops[0]);
      forall k | 0 <= k < |ops[1..]| ensures Spares(ops[1..][k], mine) {
        assert ops[1..][k] == ops[k + 1];
      }
      TokenSparedOver(Apply(s, ops[0]), ops[1..], token, claim, mine);
    }
  }

  // ---------- The tokens of one claim ----------

  /** The token a claim made in `s` creates. */
  function TokenOf(s: Sys, claim: ClaimedSendJob): TokenRef {
    TokenRef(claim.id, if claim.id in s.jobLogs then |s.jobLogs[claim.id].tokens| else 0)
  }

  /** The tokens of the claims from the `n`-th on are still outstanding in `t`. */
  ghost predicate AllHold(s: Sys, t: Sys, claims: seq<ClaimedSendJob>, n: nat) {
    forall k {:trigger Holds(t, TokenOf(s, claims[k]), claims[k])} :: n <= k < |claims| ==>
      Holds(t, TokenOf(s, claims[k]), claims[k])
  }

  ghost function Mine(s: Sys, claims: seq<ClaimedSendJob>, n: nat): set<TokenRef> {
    set k | n <= k < |claims| :: TokenOf(s, claims[k])
  }

  ghost predicate Distinct(claims: seq<ClaimedSendJob>) {
    forall i, j :: 0 <= i < j < |claims| ==> claims[i].id != claims[j].id
  }

  /** Each of the first claims ended as its fate says. */
  ghost predicate AllEnded(s: Sys, t: Sys, claims: seq<ClaimedSendJob>, fates: seq<Option<Fate>>)
    requires |fates| <= |claims|
  {
    forall k {:trigger Ended(t, TokenOf(s, claims[k]), fates[k].value)} :: 0 <= k < |fates| && fates[k].Some? ==>
      fates[k].value != Outstanding && Ended(t, TokenOf(s, claims[k]), fates[k].value)
  }

  lemma {:induction false} OthersSpareTokens(
    s: Sys, t: Sys, ops: seq<Op>, claims: seq<ClaimedSendJob>, n: nat, fates: seq<Option<Fate>>)
    requires Inv(t) && IsRun(t, ops) && AllHold(s, t, claims, n) && |fates| <= |claims| && AllEnded(s, t, claims, fates)
    requires forall k :: 0 <= k < |ops| ==> Spares(ops[k], Mine(s, claims, n))
    ensures AllHold(s, Exec(t, ops), claims, n) && AllEnded(s, Exec(t, ops), claims, fates)
  {
    forall k | n <= k < |claims| ensures Holds(Exec(t, ops), TokenOf(s, claims[k]), claims[k]) {
      assert Holds(t, TokenOf(s, claims[k]), claims[k]);
      TokenSparedOver(t, ops, TokenOf(s, claims[k]), claims[k], Mine(s, claims, n));
    }
    ExecRowsEvolve(t, ops);
    EndedStay(s, t, Exec(t, ops), claims, fates);
  }

  lemma {:induction false} EndedStay(s: Sys, t: Sys, u: Sys, claims: seq<ClaimedSendJob>, fates: seq<Option<Fate>>)
    requires Inv(t) && RowsEvolve(t, u) && |fates| <= |claims| && AllEnded(s, t, claims, fates)
    ensures AllEnded(s, u, claims, fates)
  {
    forall k | 0 <= k < |fates| && fates[k].Some?
      ensures fates[k].value != Outstanding && Ended(u, TokenOf(s, claims[k]), fates[k].value)
    {
      assert Ended(t, TokenOf(s, claims[k]), fates[k].value);
      EndedStays(t, u, TokenOf(s, claims[k]), fates[k].value);
    }
  }

  /** Processing the `n`-th claim leaves the later ones outstanding and the earlier ones ended. */
  lemma {:induction false} OneMoreEnded(
    s: Sys, t: Sys, byId: bool, moment: Time, env: SendEnv, claims: seq<ClaimedSendJob>, n: nat,
    fates: seq<Option<Fate>>, fate: Fate)
    requires Inv(t) && Distinct(claims) && n == |fates| < |claims| && AllHold(s, t, claims, n)
    requires AllEnded(s, t, claims, fates)
    requires var token := TokenOf(s, claims[n]);
      var op := ProcessToken(token.job, token.index, byId, moment, env);
      Enabled(t, op) && fate != Outstanding && Ended(Apply(t, op), token, fate)
    ensures var token := TokenOf(s, claims[n]);
      var u := Apply(t, ProcessToken(token.job, token.index, byId, moment, env));
      AllHold(s, u, claims, n + 1) && AllEnded(s, u, claims, fates + [Some(fate)])
  {
    var token := TokenOf(s, claims[n]);
    var op := ProcessToken(token.job, token.index, byId, moment, env);
    var u := Apply(t, op);
    forall k | n + 1 <= k < |claims| ensures Holds(u, TokenOf(s, claims[k]), claims[k]) {
      assert Holds(t, TokenOf(s, claims[k]), claims[k]);
      TokenSpared(t, op, TokenOf(s, claims[k]), claims[k], {TokenOf(s, claims[k])});
    }
    ApplyRowsEvolve(t, op);
    EndedStay(s, t, u, claims, fates);
    var after := fates + [Some(fate)];
    forall k | 0 <= k < |after| && after[k].Some? ensures Ended(u, TokenOf(s, claims[k]), after[k].value) {
      if k < n { assert Ended(u, TokenOf(s, claims[k]), fates[k].value); }
    }
  }

  /** A call that never commits changes nothing. */
  lemma {:induction false} OneLost(s: Sys, t: Sys, claims: seq<ClaimedSendJob>, n: nat, fates: seq<Option<Fate>>)
    requires n == |fates| < |claims| && AllHold(s, t, claims, n) && AllEnded(s, t, claims, fates)
    ensures AllHold(s, t, claims, n + 1) && AllEnded(s, t, claims, fates + [None])
  {
    var after := fates + [None];
    forall k | n + 1 <= k < |claims| ensures Holds(t, TokenOf(s, claims[k]), claims[k]) {
    }
    forall k | 0 <= k < |after| && after[k].Some? ensures Ended(t, TokenOf(s, claims[k]), after[k].value) {
      assert Ended(t, TokenOf(s, claims[k]), fates[k].value);
    }
  }

  // ---------- Transactions ----------

  lemma {:induction false} InvHasKeys(s: Sys)
    requires Inv(s)
    ensures PrimaryKeys(s.db)
  {
    forall c | c in s.db.campaigns ensures s.db.campaigns[c].id == c {
      assert CampaignRowOk(s.db.campaigns, s.db.nextId, c);
    }
    forall l | l in s.db.leads ensures s.db.leads[l].id == l { assert LeadRowOk(s, l); }
    forall j | j in s.db.jobs ensures s.db.jobs[j].id == j { assert JobRowOk(s, j); }
    forall o | o in s.db.outbounds ensures s.db.outbounds[o].id == o {
      assert OutboundRowOk(s.db.outbounds, s.db.nextId, o);
    }
  }

  /**
   What other workers, the poll and the consumer commit between two transactions of a driver. Its callers may rely on
   nothing but the contract: any run at all that leaves the driver's own tokens alone.
   */
  method OthersCommit(store: Database, ghost s: Sys, ghost mine: set<TokenRef>, ghost bound: Time)
    returns (ghost t: Sys, ghost ops: seq<Op>)
    requires s.db == store.committed && Inv(s) && s.clock <= bound
    modifies store
    ensures IsRun(s, ops) && t == Exec(s, ops) && Inv(t) && t.db == store.committed && t.clock <= bound
    ensures forall k :: 0 <= k < |ops| ==> Spares(ops[k], mine)
  {
    t, ops := s, [];
  }

  /** One call of the Python worker: its own transaction, working from the snapshot. */
  method ProcessSnapshot(
    store: Database, claim: ClaimedSendJob, moment: Time, env: SendEnv, ghost s: Sys, ghost token: TokenRef)
    returns (outcome: Outcome, ghost t: Sys)
    requires s.db == store.committed && Inv(s) && Holds(s, token, claim) && InOrder(s.clock, moment, env)
    modifies store
    ensures var op := ProcessToken(token.job, token.index, false, moment, env);
      Enabled(s, op) && t == Apply(s, op) && Inv(t) && t.db == store.committed && t.clock == env.stampedAt
    ensures Ended(t, token, Settled(outcome))
  {
    ghost var op := ProcessToken(token.job, token.index, false, moment, env);
    InvHasKeys(s);
    TokenEnds(s, token.job, token.index, false, moment, env);
    ApplyKeeps(s, op);
    t := Apply(s, op);
    ClockAfter(s, token.job, token.index, false, moment, env);
    var session := new Session(store.committed);
    var handler := new ProcessClaimedSendJobHandler(session);
    var result := handler.Execute(claim, moment, env);
    outcome := result.value;
    store.committed := session.tables;
  }

  /** One call of the Go sender: the API reads the row again, and refuses a job that is no longer running. */
  method ProcessById(
    store: Database, workspace: Id, id: Id, moment: Time, env: SendEnv, ghost s: Sys, ghost token: TokenRef,
    ghost claim: ClaimedSendJob)
    returns (outcome: Option<Outcome>, ghost t: Sys)
    requires s.db == store.committed && Inv(s) && Holds(s, token, claim) && InOrder(s.clock, moment, env)
    requires id == claim.id && workspace == claim.workspace
    modifies store
    ensures var op := ProcessToken(token.job, token.index, true, moment, env);
      Enabled(s, op) && t == Apply(s, op) && Inv(t) && t.db == store.committed && t.clock == env.stampedAt
    ensures Ended(t, token, if outcome.Some? then Settled(outcome.value) else Refused)
  {
    ghost var op := ProcessToken(token.job, token.index, true, moment, env);
    InvHasKeys(s);
    WorkspaceOfClaim(s, token, claim);
    TokenEnds(s, token.job, token.index, true, moment, env);
    ApplyKeeps(s, op);
    t := Apply(s, op);
    ClockAfter(s, token.job, token.index, true, moment, env);
    var session := new Session(store.committed);
    var handler := new ProcessSendJobByIdHandler(session);
    var result := handler.Execute(id, workspace, moment, env);
    outcome := if result.Some? then Some(result.value.value) else None;
    store.committed := session.tables;
  }

  lemma {:induction false} WorkspaceOfClaim(s: Sys, token: TokenRef, claim: ClaimedSendJob)
    requires Inv(s) && Holds(s, token, claim)
    ensures claim.id in s.db.jobs && s.db.jobs[claim.id].workspace == claim.workspace
  {
    assert JobRowOk(s, token.job);
    assert ClaimOf(s.db.jobs[token.job], s.jobLogs[token.job].tokens[token.index].claim);
  }

  // ---------- The drain loops ----------

  /** The readings a driver takes, call after call. */
  ghost predicate Ordered(clock: Time, calls: seq<Call>) {
    forall i {:trigger ClockBefore(clock, calls, i)} :: 0 <= i < |calls| ==>
      InOrder(ClockBefore(clock, calls, i), calls[i].moment, calls[i].env)
  }

  function ClockBefore(clock: Time, calls: seq<Call>, i: nat): Time
    requires i <= |calls|
  {
    if i == 0 then clock else calls[i - 1].env.stampedAt
  }

  /** The claims that were processed ended as the list says; those after them are still with the worker. */
  ghost predicate Drained(s: Sys, t: Sys, ops: seq<Op>, claims: seq<ClaimedSendJob>, fates: seq<Option<Fate>>) {
    && IsRun(s, ops) && t == Exec(s, ops)
    && Distinct(claims) && |fates| <= |claims|
    && AllHold(s, t, claims, |fates|) && AllEnded(s, t, claims, fates)
  }

  /** The claim, in a transaction of its own: the run so far is that one operation. */
  method ClaimDue(store: Database, workspace: Id, worker: Id, limit: nat, moment: Time, locked: set<Id>, ghost s: Sys)
    returns (claims: seq<ClaimedSendJob>, ghost t: Sys, ghost ops: seq<Op>)
    requires s.db == store.committed && Inv(s) && s.clock <= moment
    modifies store
    ensures IsClaim(old(store.committed).jobs, workspace, limit, moment, locked, ClaimedIds(claims))
    ensures ops == [ClaimJobs(workspace, worker, IdSet(ClaimedIds(claims)), moment)]
    ensures Drained(s, t, ops, claims, []) && t.db == store.committed && t.clock == moment
  {
    InvHasKeys(s);
    var session := new Session(store.committed);
    var repository := new SendJobRepository(session);
    claims := repository.Claim(workspace, worker, limit, moment, locked);
    store.committed := session.tables;
    ghost var op := ClaimJobs(workspace, worker, IdSet(ClaimedIds(claims)), moment);
    t := ClaimedState(s, workspace, worker, limit, moment, locked, claims);
    ops := [op];
    RunCons(s, op, []);
    assert [op] + [] == [op];
  }

  /** The state the machine reaches by the claim the repository made. */
  lemma {:induction false} ClaimedState(
    s: Sys, workspace: Id, worker: Id, limit: nat, moment: Time, locked: set<Id>, claims: seq<ClaimedSendJob>)
    returns (t: Sys)
    requires Inv(s) && s.clock <= moment
    requires IsClaim(s.db.jobs, workspace, limit, moment, locked, ClaimedIds(claims))
    requires var jobs := ClaimRows(s.db.jobs, IdSet(ClaimedIds(claims)), worker, moment);
      forall i :: 0 <= i < |claims| ==> claims[i].id in jobs && claims[i] == Claimed(jobs[claims[i].id])
    ensures var op := ClaimJobs(workspace, worker, IdSet(ClaimedIds(claims)), moment);
      && Enabled(s, op) && t == Apply(s, op) && t.clock == moment
      && t.db == s.db.(jobs := ClaimRows(s.db.jobs, IdSet(ClaimedIds(claims)), worker, moment))
    ensures Distinct(claims) && AllHold(s, t, claims, 0)
  {
    var ids := ClaimedIds(claims);
    forall i, j | 0 <= i < j < |claims| ensures claims[i].id != claims[j].id {
      assert ids[i] != ids[j];
    }
    t := Apply(s, ClaimJobs(workspace, worker, IdSet(ids), moment));
    forall k | 0 <= k < |claims| ensures Holds(t, TokenOf(s, claims[k]), claims[k]) {
      assert ids[k] == claims[k].id && claims[k].id in IdSet(ids);
      assert JobRowOk(s, claims[k].id);
    }
  }

  /** One step of a drain, either driver's: others commit, then one more claim is processed. */
  lemma {:induction false} DrainStep(
    s: Sys, t: Sys, ops: seq<Op>, claims: seq<ClaimedSendJob>, fates: seq<Option<Fate>>,
    others: seq<Op>, byId: bool, moment: Time, env: SendEnv, fate: Fate)
    requires Inv(s) && Drained(s, t, ops, claims, fates) && |fates| < |claims|
    requires IsRun(t, others) && forall k :: 0 <= k < |others| ==> Spares(others[k], Mine(s, claims, |fates|))
    requires var (token, u) := (TokenOf(s, claims[|fates|]), Exec(t, others));
      var op := ProcessToken(token.job, token.index, byId, moment, env);
      Enabled(u, op) && fate != Outstanding && Ended(Apply(u, op), token, fate)
    ensures var (token, u) := (TokenOf(s, claims[|fates|]), Exec(t, others));
      var op := ProcessToken(token.job, token.index, byId, moment, env);
      Drained(s, Apply(u, op), ops + others + [op], claims, fates + [Some(fate)])
  {
    var (token, u) := (TokenOf(s, claims[|fates|]), Exec(t, others));
    var op := ProcessToken(token.job, token.index, byId, moment, env);
    OthersInDrain(s, t, ops, claims, fates, others);
    ExecKeeps(s, ops + others);
    OneMoreEnded(s, u, byId, moment, env, claims, |fates|, fates, fate);
    RunAppend(s, ops + others, [op]);
    assert Exec(u, [op]) == Apply(u, op);
  }

  lemma {:induction false} OthersInDrain(
    s: Sys, t: Sys, ops: seq<Op>, claims: seq<ClaimedSendJob>, fates: seq<Option<Fate>>, others: seq<Op>)
    requires Inv(s) && Drained(s, t, ops, claims, fates)
    requires IsRun(t, others) && forall k :: 0 <= k < |others| ==> Spares(others[k], Mine(s, claims, |fates|))
    ensures Drained(s, Exec(t, others), ops + others, claims, fates)
  {
    ExecKeeps(s, ops);
    OthersSpareTokens(s, t, others, claims, |fates|, fates);
    RunAppend(s, ops, others);
  }

  /** One turn of the Python loop: whatever others commit first, then the next snapshot. */
  method NextSnapshot(
    store: Database, claims: seq<ClaimedSendJob>, n: nat, call: Call, ghost bound: Time,
    ghost s: Sys, ghost t: Sys, ghost ops: seq<Op>, ghost fates: seq<Option<Fate>>)
    returns (outcome: Outcome, ghost after: Sys, ghost run: seq<Op>)
    requires Inv(s) && Drained(s, t, ops, claims, fates) && n == |fates| < |claims|
    requires t.db == store.committed && t.clock <= bound && InOrder(bound, call.moment, call.env)
    modifies store
    ensures Drained(s, after, run, claims, fates + [Some(Settled(outcome))]) && ops <= run
    ensures after.db == store.committed && after.clock == call.env.stampedAt
  {
    ExecKeeps(s, ops);
    ghost var u, others := OthersCommit(store, t, Mine(s, claims, n), bound);
    OthersInDrain(s, t, ops, claims, fates, others);
    ghost var token := TokenOf(s, claims[n]);
    assert Holds(u, token, claims[n]);
    outcome, after := ProcessSnapshot(store, claims[n], call.moment, call.env, u, token);
    DrainStep(s, t, ops, claims, fates, others, false, call.moment, call.env, Settled(outcome));
    run := ops + others + [ProcessToken(token.job, token.index, false, call.moment, call.env)];
  }

  /** The Python worker: claim, then process each snapshot in turn. A lost call ends the drain. */
  method DrainSendJobs(
    store: Database, workspace: Id, worker: Id, limit: nat, moment: Time, locked: set<Id>, calls: seq<Call>,
    ghost s: Sys)
    returns (
      claims: seq<ClaimedSendJob>, outcomes: seq<Outcome>,
      ghost t: Sys, ghost ops: seq<Op>, ghost fates: seq<Option<Fate>>)
    requires s.db == store.committed && Inv(s) && s.clock <= moment && Ordered(moment, calls)
    modifies store
    ensures IsClaim(old(store.committed).jobs, workspace, limit, moment, locked, ClaimedIds(claims))
    ensures Drained(s, t, ops, claims, fates) && t.db == store.committed
    ensures |fates| == |outcomes| && forall k :: 0 <= k < |fates| ==> fates[k] == Some(Settled(outcomes[k]))
    ensures |outcomes| < |claims| ==> |outcomes| == |calls| || (|outcomes| < |calls| && calls[|outcomes|].lost)
    ensures [ClaimJobs(workspace, worker, IdSet(ClaimedIds(claims)), moment)] <= ops
  {
    claims, t, ops := ClaimDue(store, workspace, worker, limit, moment, locked, s);
    fates, outcomes := [], [];
    for n := 0 to |claims|
      invariant n == |outcomes| <= |calls|
      invariant Drained(s, t, ops, claims, fates) && t.db == store.committed
      invariant t.clock <= ClockBefore(moment, calls, n)
      invariant |fates| == n && forall k :: 0 <= k < |fates| ==> fates[k] == Some(Settled(outcomes[k]))
      invariant [ClaimJobs(workspace, worker, IdSet(ClaimedIds(claims)), moment)] <= ops
    {
      if n == |calls| || calls[n].lost { break; }
      assert InOrder(ClockBefore(moment, calls, n), calls[n].moment, calls[n].env);
      var outcome;
      outcome, t, ops := NextSnapshot(store, claims, n, calls[n], ClockBefore(moment, calls, n), s, t, ops, fates);
      fates := fates + [Some(Settled(outcome))];
      outcomes := outcomes + [outcome];
    }
  }

  lemma {:induction false} LostInDrain(
    s: Sys, t: Sys, ops: seq<Op>, claims: seq<ClaimedSendJob>, fates: seq<Option<Fate>>)
    requires Drained(s, t, ops, claims, fates) && |fates| < |claims|
    ensures Drained(s, t, ops, claims, fates + [None])
  {
    OneLost(s, t, claims, |fates|, fates);
  }

  function FateOf(outcome: Option<Outcome>): Fate {
    if outcome.Some? then Settled(outcome.value) else Refused
  }

  /** One turn of the Go loop. */
  method NextById(
    store: Database, claims: seq<ClaimedSendJob>, n: nat, call: Call, ghost bound: Time,
    ghost s: Sys, ghost t: Sys, ghost ops: seq<Op>, ghost answers: seq<Option<Fate>>)
    returns (answer: Option<Fate>, ghost after: Sys, ghost run: seq<Op>)
    requires Inv(s) && Drained(s, t, ops, claims, answers) && n == |answers| < |claims|
    requires t.db == store.committed && t.clock <= bound && InOrder(bound, call.moment, call.env)
    modifies store
    ensures Drained(s, after, run, claims, answers + [answer]) && ops <= run
    ensures after.db == store.committed && after.clock <= call.env.stampedAt
    ensures answer.None? <==> call.lost
  {
    if call.lost {
      LostInDrain(s, t, ops, claims, answers);
      return None, t, ops;
    }
    ExecKeeps(s, ops);
    ghost var u, others := OthersCommit(store, t, Mine(s, claims, n), bound);
    OthersInDrain(s, t, ops, claims, answers, others);
    ghost var token := TokenOf(s, claims[n]);
    assert Holds(u, token, claims[n]);
    var outcome;
    outcome, after := ProcessById(store, claims[n].workspace, claims[n].id, call.moment, call.env, u, token, claims[n]);
    DrainStep(s, t, ops, claims, answers, others, true, call.moment, call.env, FateOf(outcome));
    run := ops + others + [ProcessToken(token.job, token.index, true, call.moment, call.env)];
    answer := Some(FateOf(outcome));
  }

  /**
   The Go sender: claim, then one call by identifier for each. A lost call leaves its job running and the drain goes
   on. The answer to a call is the outcome, the refusal, or nothing.
   */
  method Drain(
    store: Database, workspace: Id, worker: Id, limit: nat, moment: Time, locked: set<Id>, calls: seq<Call>,
    ghost s: Sys)
    returns (claims: seq<ClaimedSendJob>, answers: seq<Option<Fate>>, ghost t: Sys, ghost ops: seq<Op>)
    requires s.db == store.committed && Inv(s) && s.clock <= moment && Ordered(moment, calls)
    modifies store
    ensures IsClaim(old(store.committed).jobs, workspace, limit, moment, locked, ClaimedIds(claims))
    ensures Drained(s, t, ops, claims, answers) && t.db == store.committed
    ensures |answers| == if |claims| <= |calls| then |claims| else |calls|
    ensures forall k :: 0 <= k < |answers| ==> (answers[k].None? <==> calls[k].lost)
    ensures [ClaimJobs(workspace, worker, IdSet(ClaimedIds(claims)), moment)] <= ops
  {
    claims, t, ops := ClaimDue(store, workspace, worker, limit, moment, locked, s);
    answers := [];
    for n := 0 to |claims|
      invariant n <= |calls| && |answers| == n
      invariant Drained(s, t, ops, claims, answers) && t.db == store.committed
      invariant t.clock <= ClockBefore(moment, calls, n)
      invariant forall k :: 0 <= k < |answers| ==> (answers[k].None? <==> calls[k].lost)
      invariant [ClaimJobs(workspace, worker, IdSet(ClaimedIds(claims)), moment)] <= ops
    {
      if n == |calls| { break; }
      assert InOrder(ClockBefore(moment, calls, n), calls[n].moment, calls[n].env);
      var answer;
      answer, t, ops := NextById(store, claims, n, calls[n], ClockBefore(moment, calls, n), s, t, ops, answers);
      answers := answers + [answer];
    }
  }
}
