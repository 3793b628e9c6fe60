/**
 Row locks of the job queue at the grain of statements: any number of open transactions share one lock table. A claim
 skips rows others have locked, any other update waits for them, and a lock is held until its transaction ends.
 */
module ClaimLocks {
  import opened Base
  import opened CampaignDomain
  import opened Repositories
  import opened SendQueue

  /** What a claim statement was asked, and the rows it returned. */
  datatype ClaimStatement = ClaimStatement(workspace: Id, worker: Id, limit: nat, moment: Time, ids: seq<Id>)

  /** An open transaction: its claim, if it is a claiming one, and the rows it has written but not committed. */
  datatype Transaction = Transaction(claim: Option<ClaimStatement>, writes: JobTable)

  /** The committed rows, who holds which row, and the open transactions. */
  datatype State = State(jobs: JobTable, locks: map<Id, Id>, open: map<Id, Transaction>)

  datatype Step =
    | Begin(txn: Id)
    | Claim(txn: Id, statement: ClaimStatement)
    | Update(txn: Id, id: Id, row: SendJob)
    | Commit(txn: Id)
    | RollBack(txn: Id)

  function LockedByOthers(s: State, txn: Id): set<Id> {
    set id | id in s.locks && s.locks[id] != txn
  }

  /** A claim is alone in its transaction, and an update finds its row unlocked or its own. */
  ghost predicate Enabled(s: State, step: Step) {
    match step
    case Begin(txn) => txn !in s.open
    case Claim(txn, c) =>
      && txn in s.open && s.open[txn] == Transaction(None, map[])
      && IsClaim(s.jobs, c.workspace, c.limit, c.moment, LockedByOthers(s, txn), c.ids)
    case Update(txn, id, _) =>
      && txn in s.open && s.open[txn].claim.None?
      && id in s.jobs && id !in LockedByOthers(s, txn)
    case Commit(txn) => txn in s.open
    case RollBack(txn) => txn in s.open
  }

  function ClaimedRows(jobs: JobTable, c: ClaimStatement): JobTable {
    map id | id in jobs && id in IdSet(c.ids) :: ClaimRow(jobs[id], c.worker, c.moment)
  }

  function Lock(locks: map<Id, Id>, ids: set<Id>, txn: Id): map<Id, Id> {
    map id | id in locks.Keys + ids :: if id in ids then txn else locks[id]
  }

  function Ended(s: State, txn: Id): State {
    s.(open := s.open - {txn}, locks := map id | id in s.locks && s.locks[id] != txn :: s.locks[id])
  }

  ghost function Next(s: State, step: Step): State
    requires Enabled(s, step)
  {
    match step
    case Begin(txn) => s.(open := s.open[txn := Transaction(None, map[])])
    case Claim(txn, c) =>
      s.(open := s.open[txn := Transaction(Some(c), ClaimedRows(s.jobs, c))], locks := Lock(s.locks, IdSet(c.ids), txn))
    case Update(txn, id, row) =>
      s.(open := s.open[txn := Transaction(None, s.open[txn].writes[id := row])], locks := s.locks[id := txn])
    case Commit(txn) => Ended(s, txn).(jobs := s.jobs + s.open[txn].writes)
    case RollBack(txn) => Ended(s, txn)
  }

  ghost predicate IsRun(s: State, steps: seq<Step>)
    decreases |steps|
  {
    steps == [] || (Enabled(s, steps[0]) && IsRun(Next(s, steps[0]), steps[1..]))
  }

  ghost function Exec(s: State, steps: seq<Step>): State
    requires IsRun(s, steps)
    decreases |steps|
  {
    if steps == [] then s else Exec(Next(s, steps[0]), steps[1..])
  }

  /** Any committed rows, and nobody at work on them. */
  predicate Init(s: State) {
    s.locks == map[] && s.open == map[]
  }

  // ---------- The invariant ----------

  /** A transaction holds exactly the rows it has written. */
  ghost predicate HoldsItsRows(s: State, txn: Id)
    requires txn in s.open
  {
    forall id :: id in s.open[txn].writes <==> id in s.locks && s.locks[id] == txn
  }

  /** What an open claim has written is still what it would write now, to rows it may still claim. */
  ghost predicate ClaimStands(s: State, txn: Id)
    requires txn in s.open
  {
    s.open[txn].claim.Some? ==>
      var c := s.open[txn].claim.value;
      && (forall id :: id in IdSet(c.ids) ==> id in s.jobs && Claimable(s.jobs[id], c.workspace, c.moment))
      && s.open[txn].writes == ClaimedRows(s.jobs, c)
  }

  ghost predicate TransactionOk(s: State, txn: Id)
    requires txn in s.open
  {
    HoldsItsRows(s, txn) && ClaimStands(s, txn)
  }

  ghost predicate Inv(s: State) {
    && (forall id :: id in s.locks ==> s.locks[id] in s.open)
    && (forall txn {:trigger TransactionOk(s, txn)} :: txn in s.open ==> TransactionOk(s, txn))
  }

  /** Two open transactions have written different rows. */
  lemma {:induction false} WritesAreDisjoint(s: State, a: Id, b: Id)
    requires Inv(s) && a in s.open && b in s.open && a != b
    ensures s.open[a].writes.Keys !! s.open[b].writes.Keys
  {
    assert TransactionOk(s, a) && TransactionOk(s, b);
  }

  lemma {:induction false} ClaimKeeps(s: State, txn: Id, c: ClaimStatement)
    requires Inv(s) && Enabled(s, Claim(txn, c))
    ensures Inv(Next(s, Claim(txn, c)))
  {
    var t := Next(s, Claim(txn, c));
    assert TransactionOk(s, txn);
    forall id | id in IdSet(c.ids)
      ensures id in s.jobs && id !in s.locks && Claimable(s.jobs[id], c.workspace, c.moment)
    {
      var k :| 0 <= k < |c.ids| && c.ids[k] == id;
    }
    forall other | other in t.open ensures TransactionOk(t, other) {
      if other != txn { assert TransactionOk(s, other); }
    }
  }

  lemma {:induction false} UpdateKeeps(s: State, txn: Id, id: Id, row: SendJob)
    requires Inv(s) && Enabled(s, Update(txn, id, row))
    ensures Inv(Next(s, Update(txn, id, row)))
  {
    var t := Next(s, Update(txn, id, row));
    forall other | other in t.open ensures TransactionOk(t, other) {
      assert TransactionOk(s, other);
    }
  }

  /** A commit leaves the rows of every other open claim as they were. */
  lemma {:induction false} CommitLeavesClaim(s: State, txn: Id, other: Id)
    requires Inv(s) && txn in s.open && other in s.open && other != txn
    ensures ClaimStands(Next(s, Commit(txn)), other)
  {
    var t := Next(s, Commit(txn));
    WritesAreDisjoint(s, txn, other);
    assert TransactionOk(s, other);
    if s.open[other].claim.Some? {
      var c := s.open[other].claim.value;
      forall id | id in IdSet(c.ids) ensures id in t.jobs && t.jobs[id] == s.jobs[id] {
        assert id in s.open[other].writes;
      }
      assert ClaimedRows(t.jobs, c) == ClaimedRows(s.jobs, c);
    }
  }

  lemma {:induction false} EndKeeps(s: State, step: Step)
    requires Inv(s) && Enabled(s, step) && (step.Commit? || step.RollBack?)
    ensures Inv(Next(s, step))
  {
    var t := Next(s, step);
    assert TransactionOk(s, step.txn);
    forall other | other in t.open ensures TransactionOk(t, other) {
      assert TransactionOk(s, other);
      if step.Commit? { CommitLeavesClaim(s, step.txn, other); }
    }
  }

  lemma {:induction false} BeginKeeps(s: State, txn: Id)
    requires Inv(s) && Enabled(s, Begin(txn))
    ensures Inv(Next(s, Begin(txn)))
  {
    var t := Next(s, Begin(txn));
    forall other | other in t.open ensures TransactionOk(t, other) {
      if other != txn { assert TransactionOk(s, other); }
    }
  }

  lemma {:induction false} ExecKeeps(s: State, steps: seq<Step>)
    requires Inv(s) && IsRun(s, steps)
    ensures Inv(Exec(s, steps))
    decreases |steps|
  {
    if steps != [] {
      match steps[0] {
        case Begin(txn) => BeginKeeps(s, txn);
        case Claim(txn, c) => ClaimKeeps(s, txn, c);
        case Update(txn, id, row) => UpdateKeeps(s, txn, id, row);
        case _ => EndKeeps(s, steps[0]);
      }
      ExecKeeps(Next(s, steps[0]), steps[1..]);
    }
  }

  // ---------- What claims may rely on ----------

  /** Rows are written by commits alone: those of the transaction, as it left them, and no others. */
  lemma {:induction false} OnlyCommitsWrite(s: State, step: Step, id: Id)
    requires Enabled(s, step)
    ensures var after := Next(s, step).jobs;
      if step.Commit? && id in s.open[step.txn].writes then id in after && after[id] == s.open[step.txn].writes[id]
      else (id in after <==> id in s.jobs) && (id in s.jobs ==> after[id] == s.jobs[id])
  {
  }

  /** In every run, claims that are open at the same time have taken different jobs. */
  lemma {:induction false} ConcurrentClaimsAreDisjoint(start: State, steps: seq<Step>, a: Id, b: Id)
    requires Init(start) && IsRun(start, steps)
    requires var s := Exec(start, steps);
      a in s.open && b in s.open && a != b && s.open[a].claim.Some? && s.open[b].claim.Some?
    ensures var s := Exec(start, steps);
      IdSet(s.open[a].claim.value.ids) !! IdSet(s.open[b].claim.value.ids)
  {
    var s := Exec(start, steps);
    ExecKeeps(start, steps);
    WritesAreDisjoint(s, a, b);
    forall txn, id | txn in {a, b} && id in IdSet(s.open[txn].claim.value.ids) ensures id in s.open[txn].writes {
      assert TransactionOk(s, txn);
    }
  }

  /**
   Whatever other transactions do between a claim and its commit, committing it is one atomic claim of the rows as they
   are at the commit: each may still be claimed, each becomes running, and no other row changes.
   */
  lemma {:induction false} CommitIsAnAtomicClaim(start: State, steps: seq<Step>, txn: Id)
    requires Init(start) && IsRun(start, steps)
    requires txn in Exec(start, steps).open && Exec(start, steps).open[txn].claim.Some?
    ensures var s := Exec(start, steps);
      var c := s.open[txn].claim.value;
      && (forall id :: id in IdSet(c.ids) ==> id in s.jobs && Claimable(s.jobs[id], c.workspace, c.moment))
      && Next(s, Commit(txn)).jobs == ClaimRows(s.jobs, IdSet(c.ids), c.worker, c.moment)
  {
    var s := Exec(start, steps);
    ExecKeeps(start, steps);
    assert TransactionOk(s, txn);
  }
}
