/**
 One lead at the grain of single statements. A processing call reads the row without a lock, sends, and writes it; the
 consumer reads it, and writes the stop. A statement sees what others have committed, an UPDATE takes the row's lock and
 writes the columns in which the target differs from the session's copy, and every lock is held to the end of its
 transaction.
 */
module LeadRaces {
  import opened Base
  import opened CampaignDomain
  import opened Invariant

  /** Processing a claimed job of one step, from a snapshot or by its identifier, or handling a reply. */
  datatype Purpose = Process(position: nat, byId: bool) | Stop(intent: Intent)

  datatype Decision = Send(stamp: Time) | GiveUp(suppressed: bool, moment: Time) | Answer(moment: Time)

  /**
   How far a transaction has come. `Declined` found nothing to do for the lead, and `Released` puts its job off.
   `Decided` holds the row as first read, what is to be written, the session's copy of the row, and whether the
   UPDATE has been made.
   */
  datatype Phase =
    | Begun
    | Declined
    | Released
    | Accepted(read: Lead)
    | Decided(read: Lead, decision: Decision, target: Lead, copy: Lead, written: bool)

  datatype Txn = Txn(purpose: Purpose, phase: Phase)

  /** The committed row and sends of the lead, the steps whose job is no longer running, and the open transactions. */
  datatype State = State(lead: Lead, sends: seq<nat>, settled: set<nat>, open: map<Id, Txn>)

  datatype Action =
    | Begin(id: Id, purpose: Purpose)
    | Read(id: Id)
    | Release(id: Id)
    | Decide(id: Id, decision: Decision)
    | Reload(id: Id)
    | Write(id: Id)
    | Commit(id: Id)
    | RollBack(id: Id)

  /** The row calls for what the transaction is there to do. */
  predicate CallsFor(c: Campaign, lead: Lead, purpose: Purpose) {
    match purpose
    case Process(position, _) => c.AcceptsSend(lead, position)
    case Stop(_) => !lead.IsStopped() && lead.IsReplyable()
  }

  /** What the handler computes from the row it read; `None` is an exception, or no decision of this purpose. */
  function Target(c: Campaign, read: Lead, purpose: Purpose, decision: Decision): Option<Lead> {
    match (purpose, decision)
    case (Process(position, _), Send(stamp)) =>
      (match c.RecordSent(read, position, stamp, 0) case Success(pair) => Some(pair.0) case Failure(_) => None)
    case (Process(_, _), GiveUp(suppressed, moment)) =>
      var reason := if suppressed then StopReason.Suppressed else SendFailed;
      (match c.FailLead(read, reason, moment) case Success(lead) => Some(lead) case Failure(_) => None)
    case (Stop(intent), Answer(moment)) =>
      (match c.StopOnReply(read, intent, moment) case Success(lead) => Some(lead) case Failure(_) => None)
    case _ => None
  }

  /** An UPDATE of the columns in which the target differs from the session's copy. */
  function Merge(lead: Lead, copy: Lead, target: Lead): Lead {
    lead.(state := if target.state == copy.state then lead.state else target.state,
          stepsSent := if target.stepsSent == copy.stepsSent then lead.stepsSent else target.stepsSent,
          stopReason := if target.stopReason == copy.stopReason then lead.stopReason else target.stopReason,
          replyIntent := if target.replyIntent == copy.replyIntent then lead.replyIntent else target.replyIntent,
          updatedAt := if target.updatedAt == copy.updatedAt then lead.updatedAt else target.updatedAt)
  }

  predicate IsSend(txn: Txn) {
    txn.phase.Decided? && txn.phase.decision.Send?
  }

  predicate HoldsRow(txn: Txn) {
    txn.phase.Decided? && txn.phase.written
  }

  /** No other transaction holds the job of this step, which the by-id path locks when it begins. */
  ghost predicate JobFree(s: State, id: Id, position: nat) {
    forall k :: k in s.open && k != id ==> s.open[k].purpose != Process(position, true)
  }

  /** Only the holder of the mailbox's send lock sends, and only the holder of the row's lock writes. */
  ghost predicate MailboxFree(s: State, id: Id) {
    forall k :: k in s.open && k != id ==> !IsSend(s.open[k])
  }

  ghost predicate RowFree(s: State, id: Id) {
    forall k :: k in s.open && k != id ==> !HoldsRow(s.open[k])
  }

  ghost predicate Enabled(c: Campaign, s: State, action: Action) {
    match action
    case Begin(id, purpose) =>
      && id !in s.open
      && (purpose.Process? && purpose.byId ==> purpose.position !in s.settled && JobFree(s, id, purpose.position))
    case Read(id) => id in s.open && s.open[id].phase.Begun?
    case Release(id) => id in s.open && s.open[id].phase.Accepted? && s.open[id].purpose.Process?
    case Decide(id, decision) =>
      && id in s.open && s.open[id].phase.Accepted?
      && Target(c, s.open[id].phase.read, s.open[id].purpose, decision).Some?
      && (decision.Send? ==> MailboxFree(s, id))
    case Reload(id) => id in s.open && s.open[id].phase.Decided? && !s.open[id].phase.written
    case Write(id) => id in s.open && s.open[id].phase.Decided? && !s.open[id].phase.written && RowFree(s, id)
    case Commit(id) =>
      && id in s.open
      && (s.open[id].phase.Declined? || s.open[id].phase.Released? || HoldsRow(s.open[id]))
      && (s.open[id].purpose.Process? ==> JobFree(s, id, s.open[id].purpose.position))
    case RollBack(id) => id in s.open
  }

  function Moved(s: State, id: Id, phase: Phase): State
    requires id in s.open
  {
    s.(open := s.open[id := s.open[id].(phase := phase)])
  }

  function Ended(s: State, id: Id): State {
    s.(open := s.open - {id})
  }

  /** The row, the sends and the settled steps once this transaction has committed. */
  function Committed(s: State, txn: Txn): State {
    var settled := if txn.purpose.Process? then s.settled + {txn.purpose.position} else s.settled;
    match txn.phase
    case Declined => s.(settled := settled)
    case Released => if txn.purpose.Process? then s.(settled := s.settled - {txn.purpose.position}) else s
    case Decided(_, decision, target, copy, _) =>
      s.(lead := Merge(s.lead, copy, target), settled := settled,
         sends := if decision.Send? && txn.purpose.Process? then s.sends + [txn.purpose.position] else s.sends)
    case _ => s
  }

  ghost function Next(c: Campaign, s: State, action: Action): State
    requires Enabled(c, s, action)
  {
    match action
    case Begin(id, purpose) => s.(open := s.open[id := Txn(purpose, Begun)])
    case Read(id) => Moved(s, id, if CallsFor(c, s.lead, s.open[id].purpose) then Accepted(s.lead) else Declined)
    case Release(id) => Moved(s, id, Released)
    case Decide(id, decision) =>
      var read := s.open[id].phase.read;
      Moved(s, id, Decided(read, decision, Target(c, read, s.open[id].purpose, decision).value, read, false))
    case Reload(id) => Moved(s, id, s.open[id].phase.(copy := s.lead))
    case Write(id) => Moved(s, id, s.open[id].phase.(written := true))
    case Commit(id) => Committed(Ended(s, id), s.open[id])
    case RollBack(id) => Ended(s, id)
  }

  ghost predicate IsRun(c: Campaign, s: State, actions: seq<Action>)
    decreases |actions|
  {
    actions == [] || (Enabled(c, s, actions[0]) && IsRun(c, Next(c, s, actions[0]), actions[1..]))
  }

  ghost function Exec(c: Campaign, s: State, actions: seq<Action>): State
    requires IsRun(c, s, actions)
    decreases |actions|
  {
    if actions == [] then s else Exec(c, Next(c, s, actions[0]), actions[1..])
  }

  /** The row a transaction writes from is still the row it read. */
  ghost predicate Current(s: State, id: Id)
    requires id in s.open
  {
    s.open[id].phase.Decided? ==> s.open[id].phase.read == s.lead
  }

  /** A run in which nobody writes from a row that has been overtaken. */
  ghost predicate IsClean(c: Campaign, s: State, actions: seq<Action>)
    requires IsRun(c, s, actions)
    decreases |actions|
  {
    actions == [] ||
    ((actions[0].Commit? ==> Current(s, actions[0].id)) && IsClean(c, Next(c, s, actions[0]), actions[1..]))
  }

  function FirstSteps(n: nat): (positions: seq<nat>)
    ensures |positions| == n
  {
    seq(n, i requires 0 <= i < n => i + 1)
  }

  /** A lead of a running campaign as the machine's invariant has it, and nobody at work on it. */
  ghost predicate Init(c: Campaign, s: State) {
    && c.WellFormed() && c.IsActive() && s.lead.campaign == c.id && StateOk(s.lead, c) && StopOk(s.lead)
    && s.open == map[] && s.sends == FirstSteps(s.lead.stepsSent) && forall p :: p in s.sends ==> p in s.settled
  }

  // ---------- Every run ----------

  /** What a transaction holds was computed from a row that called for it. */
  ghost predicate TxnOk(c: Campaign, txn: Txn) {
    match txn.phase
    case Accepted(read) => CallsFor(c, read, txn.purpose)
    case Decided(read, decision, target, _, _) =>
      CallsFor(c, read, txn.purpose) && Target(c, read, txn.purpose, decision) == Some(target)
    case Released => txn.purpose.Process?
    case _ => true
  }

  ghost predicate TxnsOk(c: Campaign, s: State) {
    forall id :: id in s.open ==> TxnOk(c, s.open[id])
  }

  /** One holder of the row at a time. */
  ghost predicate OneWriter(s: State) {
    forall id :: id in s.open && HoldsRow(s.open[id]) ==> RowFree(s, id)
  }

  lemma {:induction false} NextOk(c: Campaign, s: State, action: Action)
    requires Enabled(c, s, action) && TxnsOk(c, s) && OneWriter(s)
    ensures TxnsOk(c, Next(c, s, action)) && OneWriter(Next(c, s, action))
  {
  }

  lemma {:induction false} RunOk(c: Campaign, s: State, actions: seq<Action>)
    requires IsRun(c, s, actions) && TxnsOk(c, s) && OneWriter(s)
    ensures TxnsOk(c, Exec(c, s, actions)) && OneWriter(Exec(c, s, actions))
    decreases |actions|
  {
    if actions != [] {
      NextOk(c, s, actions[0]);
      RunOk(c, Next(c, s, actions[0]), actions[1..]);
    }
  }

  lemma {:induction false} Unroll(c: Campaign, s: State, action: Action, rest: seq<Action>)
    ensures IsRun(c, s, [action] + rest) <==> Enabled(c, s, action) && IsRun(c, Next(c, s, action), rest)
    ensures IsRun(c, s, [action] + rest) ==> Exec(c, s, [action] + rest) == Exec(c, Next(c, s, action), rest)
  {
    assert ([action] + rest)[1..] == rest;
  }

  // ---------- Clean runs are atomic ----------

  /** Every clean commit that writes moves the row up. */
  function Rank(lead: Lead): nat {
    2 * lead.stepsSent + if lead.IsStopped() then 1 else 0
  }

  /** The same row, or one that ranks below the later. */
  predicate Precedes(earlier: Lead, later: Lead) {
    earlier == later || Rank(earlier) < Rank(later)
  }

  ghost predicate SeenInOrder(s: State, txn: Txn) {
    match txn.phase
    case Accepted(read) => Precedes(read, s.lead)
    case Decided(read, _, _, copy, _) => Precedes(read, copy) && Precedes(copy, s.lead)
    case _ => true
  }

  /** What atomic transactions would keep: the row in order, and the sends its steps, once each. */
  ghost predicate Sound(c: Campaign, s: State) {
    && c.WellFormed() && c.IsActive() && s.lead.campaign == c.id && StateOk(s.lead, c) && StopOk(s.lead)
    && s.sends == FirstSteps(s.lead.stepsSent)
    && TxnsOk(c, s) && OneWriter(s)
    && forall id :: id in s.open ==> SeenInOrder(s, s.open[id])
  }

  /** A commit from a current row is the atomic transition of the row as it is. */
  lemma {:induction false} CurrentCommitIsAtomic(c: Campaign, s: State, id: Id)
    requires Sound(c, s) && Enabled(c, s, Commit(id)) && Current(s, id) && s.open[id].phase.Decided?
    ensures CallsFor(c, s.lead, s.open[id].purpose)
    ensures Target(c, s.lead, s.open[id].purpose, s.open[id].phase.decision) == Some(Next(c, s, Commit(id)).lead)
    ensures Rank(s.lead) < Rank(Next(c, s, Commit(id)).lead)
  {
    assert TxnOk(c, s.open[id]) && SeenInOrder(s, s.open[id]);
  }

  lemma {:induction false} TargetOk(c: Campaign, lead: Lead, purpose: Purpose, decision: Decision)
    requires c.WellFormed() && c.IsActive() && lead.campaign == c.id && StateOk(lead, c) && StopOk(lead)
    requires CallsFor(c, lead, purpose) && Target(c, lead, purpose, decision).Some?
    ensures var target := Target(c, lead, purpose, decision).value;
      && target.campaign == c.id && StateOk(target, c) && StopOk(target)
      && target.stepsSent == (if decision.Send? then lead.stepsSent + 1 else lead.stepsSent)
      && (decision.Send? ==> target.stepsSent == purpose.position && !target.IsStopped())
      && (!decision.Send? ==> target.IsStopped())
  {
  }

  lemma {:induction false} CleanStep(c: Campaign, s: State, action: Action)
    requires Sound(c, s) && Enabled(c, s, action) && (action.Commit? ==> Current(s, action.id))
    ensures Sound(c, Next(c, s, action))
  {
    NextOk(c, s, action);
    var t := Next(c, s, action);
    if action.Commit? && s.open[action.id].phase.Decided? {
      CurrentCommitIsAtomic(c, s, action.id);
      TargetOk(c, s.lead, s.open[action.id].purpose, s.open[action.id].phase.decision);
      assert FirstSteps(s.lead.stepsSent) + [s.lead.stepsSent + 1] == FirstSteps(s.lead.stepsSent + 1);
      forall id | id in t.open ensures SeenInOrder(t, t.open[id]) {
        assert SeenInOrder(s, s.open[id]);
      }
    } else {
      forall id | id in t.open ensures SeenInOrder(t, t.open[id]) {
        assert id in s.open ==> SeenInOrder(s, s.open[id]);
      }
    }
  }

  /** A clean run keeps what atomic transactions would. */
  lemma {:induction false} CleanRunsAreSound(c: Campaign, s: State, actions: seq<Action>)
    requires Sound(c, s) && IsRun(c, s, actions) && IsClean(c, s, actions)
    ensures Sound(c, Exec(c, s, actions)) && Rank(s.lead) <= Rank(Exec(c, s, actions).lead)
    ensures s.sends <= Exec(c, s, actions).sends
    ensures s.lead.IsStopped() ==> Exec(c, s, actions).lead == s.lead
    decreases |actions|
  {
    if actions != [] {
      var t := Next(c, s, actions[0]);
      CleanStep(c, s, actions[0]);
      CleanStepGoesUp(c, s, actions[0]);
      CleanRunsAreSound(c, t, actions[1..]);
    }
  }

  lemma {:induction false} CleanStepGoesUp(c: Campaign, s: State, action: Action)
    requires Sound(c, s) && Enabled(c, s, action) && (action.Commit? ==> Current(s, action.id))
    ensures Rank(s.lead) <= Rank(Next(c, s, action).lead) && s.sends <= Next(c, s, action).sends
    ensures s.lead.IsStopped() ==> Next(c, s, action).lead == s.lead
  {
    if action.Commit? && s.open[action.id].phase.Decided? { CurrentCommitIsAtomic(c, s, action.id); }
  }

  lemma {:induction false} InitIsSound(c: Campaign, s: State)
    requires Init(c, s)
    ensures Sound(c, s)
  {
  }
}
