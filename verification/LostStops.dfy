/** When a stop is lost and when a step goes out twice, in terms of what open transactions have read. */
module LostStops {
  import opened Base
  import opened CampaignDomain
  import opened LeadRaces

  lemma {:induction false} RunThenRun(c: Campaign, s: State, a: seq<Action>, b: seq<Action>)
    requires IsRun(c, s, a) && IsRun(c, Exec(c, s, a), b)
    ensures IsRun(c, s, a + b) && Exec(c, s, a + b) == Exec(c, Exec(c, s, a), b)
    ensures IsClean(c, s, a) && IsClean(c, Exec(c, s, a), b) ==> IsClean(c, s, a + b)
    decreases |a|
  {
    if a == [] {
      assert a + b == b;
    } else {
      assert (a + b)[0] == a[0] && (a + b)[1..] == a[1..] + b;
      RunThenRun(c, Next(c, s, a[0]), a[1..], b);
    }
  }

  lemma {:induction false} Single(c: Campaign, s: State, action: Action)
    requires Enabled(c, s, action)
    ensures IsRun(c, s, [action]) && Exec(c, s, [action]) == Next(c, s, action)
    ensures !action.Commit? ==> IsClean(c, s, [action])
  {
    Unroll(c, s, action, []);
    assert [action] + [] == [action];
  }

  /** Every other open transaction can roll back. */
  lemma {:induction false} OthersRollBack(c: Campaign, s: State, id: Id) returns (actions: seq<Action>)
    requires id in s.open
    ensures IsRun(c, s, actions) && IsClean(c, s, actions)
    ensures Exec(c, s, actions) == s.(open := map[id := s.open[id]])
    decreases |s.open|
  {
    if other :| other in s.open && other != id {
      var t := Next(c, s, RollBack(other));
      assert s.open.Keys == t.open.Keys + {other};
      Single(c, s, RollBack(other));
      var rest := OthersRollBack(c, t, id);
      actions := [RollBack(other)] + rest;
      RunThenRun(c, s, [RollBack(other)], rest);
    } else {
      assert s.open.Keys == {id};
      assert s.open == map[id := s.open[id]];
      actions := [];
    }
  }

  /** Past its check, and not at a failure: its message can still go out. */
  predicate CanSend(c: Campaign, txn: Txn) {
    && txn.purpose.Process?
    && if txn.phase.Accepted? then txn.purpose.position <= |c.steps| else IsSend(txn)
  }

  // ---------- One commit ----------

  /**
   After a clean run, a send is committed from an overtaken row exactly if it repeats a step or is to a stopped lead.
   */
  lemma {:induction false} OvertakenSendsAreWrong(c: Campaign, s: State, actions: seq<Action>, id: Id)
    requires Init(c, s) && IsRun(c, s, actions) && IsClean(c, s, actions)
    requires Enabled(c, Exec(c, s, actions), Commit(id)) && IsSend(Exec(c, s, actions).open[id])
    ensures var t := Exec(c, s, actions);
      !Current(t, id) <==> t.lead.IsStopped() || (t.open[id].purpose.Process? && t.open[id].purpose.position in t.sends)
  {
    InitIsSound(c, s);
    CleanRunsAreSound(c, s, actions);
    var t := Exec(c, s, actions);
    assert TxnOk(c, t.open[id]) && SeenInOrder(t, t.open[id]);
    InFirstSteps(t.open[id].purpose.position, t.lead.stepsSent);
  }

  lemma {:induction false} InFirstSteps(p: nat, n: nat)
    ensures p in FirstSteps(n) <==> 1 <= p <= n
  {
    if 1 <= p <= n { assert FirstSteps(n)[p - 1] == p; }
  }

  // ---------- Sends after a stop ----------

  /** The lead is stopped, and nobody can send to it any more. */
  ghost predicate Quiet(c: Campaign, s: State) {
    && s.lead.IsStopped() && TxnsOk(c, s) && OneWriter(s)
    && forall id :: id in s.open ==> !CanSend(c, s.open[id])
  }

  lemma {:induction false} QuietStep(c: Campaign, s: State, action: Action)
    requires Quiet(c, s) && Enabled(c, s, action)
    ensures Quiet(c, Next(c, s, action)) && Next(c, s, action).sends == s.sends
  {
    NextOk(c, s, action);
  }

  lemma {:induction false} QuietRun(c: Campaign, s: State, actions: seq<Action>)
    requires Quiet(c, s) && IsRun(c, s, actions)
    ensures Quiet(c, Exec(c, s, actions)) && Exec(c, s, actions).sends == s.sends
    decreases |actions|
  {
    if actions != [] {
      QuietStep(c, s, actions[0]);
      QuietRun(c, Next(c, s, actions[0]), actions[1..]);
    }
  }

  /** Whoever has read a row that called for a send can decide on it, once nobody else is at work. */
  lemma {:induction false} CanDecide(c: Campaign, s: State, id: Id) returns (actions: seq<Action>)
    requires c.WellFormed() && TxnsOk(c, s) && id in s.open && s.open.Keys == {id} && CanSend(c, s.open[id])
    ensures IsRun(c, s, actions) && IsClean(c, s, actions)
    ensures var t := Exec(c, s, actions);
      && t == s.(open := t.open) && t.open.Keys == {id} && IsSend(t.open[id]) && TxnsOk(c, t)
      && t.open[id].purpose == s.open[id].purpose && (IsSend(s.open[id]) ==> t == s)
      && (!IsSend(s.open[id]) ==> !HoldsRow(t.open[id]))
  {
    if IsSend(s.open[id]) {
      actions := [];
    } else {
      assert TxnOk(c, s.open[id]);
      Single(c, s, Decide(id, Send(0)));
      actions := [Decide(id, Send(0))];
    }
  }

  lemma {:induction false} CanWrite(c: Campaign, s: State, id: Id) returns (actions: seq<Action>)
    requires TxnsOk(c, s) && id in s.open && s.open.Keys == {id} && IsSend(s.open[id])
    ensures IsRun(c, s, actions) && IsClean(c, s, actions)
    ensures var t := Exec(c, s, actions);
      && t == s.(open := t.open) && t.open.Keys == {id} && HoldsRow(t.open[id]) && IsSend(t.open[id]) && TxnsOk(c, t)
      && t.open[id].purpose == s.open[id].purpose
      && t.open[id].phase.copy == s.open[id].phase.copy && t.open[id].phase.target == s.open[id].phase.target
      && Enabled(c, t, Commit(id))
  {
    assert TxnOk(c, s.open[id]);
    if HoldsRow(s.open[id]) {
      actions := [];
    } else {
      Single(c, s, Write(id));
      actions := [Write(id)];
    }
  }

  /** From any state, a transaction that can send can be brought to the point of committing, without a commit. */
  lemma {:induction false} CanComeToCommit(c: Campaign, s: State, id: Id) returns (actions: seq<Action>)
    requires c.WellFormed() && TxnsOk(c, s) && id in s.open && CanSend(c, s.open[id])
    ensures IsRun(c, s, actions) && IsClean(c, s, actions)
    ensures var t := Exec(c, s, actions);
      t == s.(open := t.open) && id in t.open && IsSend(t.open[id]) && t.open[id].purpose == s.open[id].purpose
      && Enabled(c, t, Commit(id))
  {
    var alone := OthersRollBack(c, s, id);
    var t := Exec(c, s, alone);
    var decided := CanDecide(c, t, id);
    var written := CanWrite(c, Exec(c, t, decided), id);
    RunThenRun(c, t, decided, written);
    RunThenRun(c, s, alone, decided + written);
    actions := alone + (decided + written);
  }

  /**
   From any reachable state with a stopped lead, some run commits another message to it if and only if an open
   processing call has read the lead before it was stopped and can still send.
   */
  lemma {:induction false} StoppedLeadIsMailedExactly(c: Campaign, start: State, before: seq<Action>)
    requires Init(c, start) && IsRun(c, start, before) && Exec(c, start, before).lead.IsStopped()
    ensures var s := Exec(c, start, before);
      (exists id :: id in s.open && CanSend(c, s.open[id])) <==>
      (exists actions :: IsRun(c, s, actions) && |Exec(c, s, actions).sends| > |s.sends|)
  {
    var s := Exec(c, start, before);
    RunOk(c, start, before);
    if id :| id in s.open && CanSend(c, s.open[id]) {
      var actions := CanComeToCommit(c, s, id);
      var t := Exec(c, s, actions);
      assert TxnsOk(c, t) by { RunOk(c, s, actions); }
      assert TxnOk(c, t.open[id]);
      Single(c, t, Commit(id));
      RunThenRun(c, s, actions, [Commit(id)]);
      assert |Exec(c, s, actions + [Commit(id)]).sends| > |s.sends|;
    } else {
      forall actions | IsRun(c, s, actions) ensures |Exec(c, s, actions).sends| <= |s.sends| {
        QuietRun(c, s, actions);
      }
    }
  }

  // ---------- Stops that are lost ----------

  /** It can still send, and it has not written the row, or what it has written is no stopped lead. */
  predicate CanUnstop(c: Campaign, s: State, txn: Txn) {
    CanSend(c, txn) && (HoldsRow(txn) ==> !Merge(s.lead, txn.phase.copy, txn.phase.target).IsStopped())
  }

  ghost predicate StaysStopped(c: Campaign, s: State) {
    && s.lead.IsStopped() && TxnsOk(c, s) && OneWriter(s)
    && forall id :: id in s.open ==> !CanUnstop(c, s, s.open[id])
  }

  /** What is written for a failure or a reply leaves a stopped row stopped. */
  lemma {:induction false} OtherWritesStop(c: Campaign, s: State, txn: Txn)
    requires s.lead.IsStopped() && TxnOk(c, txn) && txn.phase.Decided? && !CanSend(c, txn)
    ensures Merge(s.lead, txn.phase.copy, txn.phase.target).IsStopped()
  {
  }

  lemma {:induction false} StoppedStep(c: Campaign, s: State, action: Action)
    requires StaysStopped(c, s) && Enabled(c, s, action)
    ensures StaysStopped(c, Next(c, s, action))
  {
    NextOk(c, s, action);
    if action.Commit? && s.open[action.id].phase.Decided? {
      assert TxnOk(c, s.open[action.id]);
      if !CanSend(c, s.open[action.id]) { OtherWritesStop(c, s, s.open[action.id]); }
      assert RowFree(s, action.id);
    }
  }

  lemma {:induction false} StoppedRun(c: Campaign, s: State, actions: seq<Action>)
    requires StaysStopped(c, s) && IsRun(c, s, actions)
    ensures Exec(c, s, actions).lead.IsStopped()
    decreases |actions|
  {
    if actions != [] {
      StoppedStep(c, s, actions[0]);
      StoppedRun(c, Next(c, s, actions[0]), actions[1..]);
    }
  }

  /**
   With nobody else at work, a send that has not written can take a fresh copy of the stopped row, and undo the stop.
   */
  lemma {:induction false} UndoesStop(c: Campaign, s: State, id: Id) returns (actions: seq<Action>)
    requires TxnsOk(c, s) && s.lead.IsStopped() && id in s.open && s.open.Keys == {id}
    requires IsSend(s.open[id]) && CanUnstop(c, s, s.open[id])
    ensures IsRun(c, s, actions) && !Exec(c, s, actions).lead.IsStopped()
  {
    assert TxnOk(c, s.open[id]);
    if HoldsRow(s.open[id]) {
      Single(c, s, Commit(id));
      actions := [Commit(id)];
    } else {
      var t := Next(c, s, Reload(id));
      Single(c, s, Reload(id));
      assert TxnsOk(c, t) by { RunOk(c, s, [Reload(id)]); }
      var written := CanWrite(c, t, id);
      var u := Exec(c, t, written);
      assert TxnOk(c, u.open[id]);
      Single(c, u, Commit(id));
      RunThenRun(c, t, written, [Commit(id)]);
      RunThenRun(c, s, [Reload(id)], written + [Commit(id)]);
      actions := [Reload(id)] + (written + [Commit(id)]);
    }
  }

  lemma {:induction false} CanUndoStop(c: Campaign, s: State, id: Id) returns (actions: seq<Action>)
    requires c.WellFormed() && TxnsOk(c, s) && OneWriter(s) && s.lead.IsStopped()
    requires id in s.open && CanUnstop(c, s, s.open[id])
    ensures IsRun(c, s, actions) && !Exec(c, s, actions).lead.IsStopped()
  {
    var alone := OthersRollBack(c, s, id);
    var t := Exec(c, s, alone);
    var decided := CanDecide(c, t, id);
    var u := Exec(c, t, decided);
    var undone := UndoesStop(c, u, id);
    RunThenRun(c, t, decided, undone);
    RunThenRun(c, s, alone, decided + undone);
    actions := alone + (decided + undone);
  }

  /**
   From any reachable state with a stopped lead, some run ends with the lead no longer stopped if and only if an open
   processing call can still send and has not yet written the row, or has written it with another state.
   */
  lemma {:induction false} StopIsLostExactly(c: Campaign, start: State, before: seq<Action>)
    requires Init(c, start) && IsRun(c, start, before) && Exec(c, start, before).lead.IsStopped()
    ensures var s := Exec(c, start, before);
      (exists id :: id in s.open && CanUnstop(c, s, s.open[id])) <==>
      (exists actions :: IsRun(c, s, actions) && !Exec(c, s, actions).lead.IsStopped())
  {
    var s := Exec(c, start, before);
    InitIsSound(c, start);
    RunOk(c, start, before);
    if id :| id in s.open && CanUnstop(c, s, s.open[id]) {
      var actions := CanUndoStop(c, s, id);
    } else {
      forall actions | IsRun(c, s, actions) ensures Exec(c, s, actions).lead.IsStopped() {
        StoppedRun(c, s, actions);
      }
    }
  }

  /**
   What a commit overwrites when the session's copy is still the row as first read. A stop leaves the steps counted
   since. A send counts its step, leaves the reason and the intent of a stop made since, and on a middle step leaves its
   state too; on the first and the last step it overwrites that.
   */
  lemma {:induction false} OldCopiesOverwriteLittle(c: Campaign, s: State, id: Id)
    requires TxnsOk(c, s) && Enabled(c, s, Commit(id)) && s.open[id].phase.Decided?
    requires s.open[id].phase.copy == s.open[id].phase.read
    ensures var (before, after, txn) := (s.lead, Next(c, s, Commit(id)).lead, s.open[id]);
      && (txn.purpose.Stop? ==> after.IsStopped() && after.stepsSent == before.stepsSent)
      && (txn.purpose.Process? && IsSend(txn) ==>
            && after.stepsSent == txn.purpose.position
            && after.stopReason == before.stopReason && after.replyIntent == before.replyIntent
            && after.state ==
                 if txn.purpose.position == |c.steps| then LeadState.Done
                 else if txn.phase.read.state.Sent? then before.state
                 else LeadState.Sent)
      && (txn.purpose.Process? && !IsSend(txn) ==>
            after.state.Failed? && after.stepsSent == before.stepsSent && after.replyIntent == before.replyIntent)
  {
    assert TxnOk(c, s.open[id]);
  }

  // ---------- Steps that go out twice ----------

  /** It can still send this step. */
  predicate CanSendStep(c: Campaign, txn: Txn, p: nat) {
    CanSend(c, txn) && txn.purpose.position == p
  }

  /** Going on like this, and cleanly up to now, this transaction is about to commit a send of step `p`. */
  ghost predicate AboutToSend(c: Campaign, s: State, actions: seq<Action>, id: Id, p: nat) {
    && IsRun(c, s, actions) && IsClean(c, s, actions)
    && var t := Exec(c, s, actions);
      Enabled(c, t, Commit(id)) && IsSend(t.open[id]) && CanSendStep(c, t.open[id], p)
  }

  /** The step has been sent, and nobody can send it any more. */
  ghost predicate Spent(c: Campaign, s: State, p: nat) {
    Sound(c, s) && p in s.sends && forall id :: id in s.open ==> !CanSendStep(c, s.open[id], p)
  }

  lemma {:induction false} SpentStep(c: Campaign, s: State, action: Action, p: nat)
    requires Spent(c, s, p) && Enabled(c, s, action) && (action.Commit? ==> Current(s, action.id))
    ensures Spent(c, Next(c, s, action), p)
  {
    CleanStep(c, s, action);
    CleanStepGoesUp(c, s, action);
    InFirstSteps(p, s.lead.stepsSent);
  }

  lemma {:induction false} SpentRun(c: Campaign, s: State, actions: seq<Action>, p: nat)
    requires Spent(c, s, p) && IsRun(c, s, actions) && IsClean(c, s, actions)
    ensures Spent(c, Exec(c, s, actions), p)
    decreases |actions|
  {
    if actions != [] {
      SpentStep(c, s, actions[0], p);
      SpentRun(c, Next(c, s, actions[0]), actions[1..], p);
    }
  }

  /**
   After a clean run, a step that has been sent can be the next to be wrongly committed if and only if an open
   processing call has read the lead before it was sent and can still send it.
   */
  lemma {:induction false} StepRepeatsExactly(c: Campaign, start: State, before: seq<Action>, p: nat)
    requires Init(c, start) && IsRun(c, start, before) && IsClean(c, start, before) && p in Exec(c, start, before).sends
    ensures var s := Exec(c, start, before);
      (exists id :: id in s.open && CanSendStep(c, s.open[id], p)) <==>
      (exists actions, id :: AboutToSend(c, s, actions, id, p))
  {
    var s := Exec(c, start, before);
    InitIsSound(c, start);
    CleanRunsAreSound(c, start, before);
    if id :| id in s.open && CanSendStep(c, s.open[id], p) {
      var actions := CanComeToCommit(c, s, id);
      assert AboutToSend(c, s, actions, id, p);
    } else {
      forall actions, id ensures !AboutToSend(c, s, actions, id, p) {
        if AboutToSend(c, s, actions, id, p) { SpentRun(c, s, actions, p); }
      }
    }
  }

  // ---------- What holds the locks ----------

  /** Of the calls that are about to send to one lead, one holds the mailbox. */
  ghost predicate OneSender(s: State) {
    forall i, j :: i in s.open && j in s.open && IsSend(s.open[i]) && IsSend(s.open[j]) ==> i == j
  }

  lemma {:induction false} OneSenderAtATime(c: Campaign, s: State, actions: seq<Action>)
    requires Init(c, s) && IsRun(c, s, actions)
    ensures OneSender(Exec(c, s, actions))
  {
    OneSenderStays(c, s, actions);
  }

  lemma {:induction false} OneSenderStays(c: Campaign, s: State, actions: seq<Action>)
    requires OneSender(s) && IsRun(c, s, actions)
    ensures OneSender(Exec(c, s, actions))
    decreases |actions|
  {
    if actions != [] {
      OneSenderStep(c, s, actions[0]);
      OneSenderStays(c, Next(c, s, actions[0]), actions[1..]);
    }
  }

  lemma {:induction false} OneSenderStep(c: Campaign, s: State, action: Action)
    requires OneSender(s) && Enabled(c, s, action)
    ensures OneSender(Next(c, s, action))
  {
  }

  /** A committed call settles its step, unless it puts the step off, which opens it again. No other step is touched. */
  lemma {:induction false} CommitSettlesItsStep(c: Campaign, s: State, id: Id, p: nat)
    requires Enabled(c, s, Commit(id))
    ensures var (purpose, after) := (s.open[id].purpose, Next(c, s, Commit(id)).settled);
      if purpose == Process(p, true) || purpose == Process(p, false) then p in after <==> !s.open[id].phase.Released?
      else p in after <==> p in s.settled
  {
  }

  // ---------- The by-id path ----------

  ghost predicate OnlyById(actions: seq<Action>) {
    forall k :: 0 <= k < |actions| && actions[k].Begin? && actions[k].purpose.Process? ==> actions[k].purpose.byId
  }

  ghost predicate Alone(s: State, id: Id)
    requires id in s.open
  {
    var purpose := s.open[id].purpose;
    purpose.Process? ==> purpose.byId && purpose.position !in s.settled && JobFree(s, id, purpose.position)
  }

  /** Every processing call holds its job, no other holds it, and what has been sent is settled. */
  ghost predicate Exclusive(s: State) {
    && (forall id :: id in s.open ==> Alone(s, id) && (s.open[id].phase.Released? ==> s.open[id].purpose.Process?))
    && (forall p :: p in s.sends ==> p in s.settled)
    && (forall i, j :: 0 <= i < j < |s.sends| ==> s.sends[i] != s.sends[j])
  }

  lemma {:induction false} ExclusiveStep(c: Campaign, s: State, action: Action)
    requires Exclusive(s) && Enabled(c, s, action)
    requires action.Begin? && action.purpose.Process? ==> action.purpose.byId
    ensures Exclusive(Next(c, s, action))
  {
    var t := Next(c, s, action);
    forall id | id in t.open ensures Alone(t, id) {
      assert id in s.open ==> Alone(s, id);
      if action.Commit? { assert Alone(s, action.id); }
    }
    if action.Commit? { assert Alone(s, action.id); }
  }

  lemma {:induction false} ExclusiveRun(c: Campaign, s: State, actions: seq<Action>)
    requires Exclusive(s) && IsRun(c, s, actions) && OnlyById(actions)
    ensures Exclusive(Exec(c, s, actions))
    decreases |actions|
  {
    if actions != [] {
      ExclusiveStep(c, s, actions[0]);
      forall k | 0 <= k < |actions[1..]| && actions[1..][k].Begin? && actions[1..][k].purpose.Process?
        ensures actions[1..][k].purpose.byId
      {
        assert actions[1..][k] == actions[k + 1];
      }
      ExclusiveRun(c, Next(c, s, actions[0]), actions[1..]);
    }
  }

  /** When all processing goes by identifier no step is committed twice, whatever the interleaving with replies. */
  lemma {:induction false} ByIdNeverRepeats(c: Campaign, s: State, actions: seq<Action>)
    requires Init(c, s) && IsRun(c, s, actions) && OnlyById(actions)
    ensures var sends := Exec(c, s, actions).sends; forall i, j :: 0 <= i < j < |sends| ==> sends[i] != sends[j]
  {
    ExclusiveRun(c, s, actions);
  }

  // ---------- The snapshot path ----------

  lemma {:induction false} Follows(c: Campaign, s: State, action: Action, t: State, rest: seq<Action>)
    requires Enabled(c, s, action) && Next(c, s, action) == t && IsRun(c, t, rest)
    ensures IsRun(c, s, [action] + rest) && Exec(c, s, [action] + rest) == Exec(c, t, rest)
  {
    Unroll(c, s, action, rest);
  }

  /** Two workers hold a snapshot of the same job, and have both read the lead. */
  lemma {:induction false} TwoRead(c: Campaign, s: State, p: nat) returns (actions: seq<Action>)
    requires Init(c, s) && c.AcceptsSend(s.lead, p)
    ensures IsRun(c, s, actions)
    ensures var txn := Txn(Process(p, false), Accepted(s.lead));
      Exec(c, s, actions) == s.(open := map[0 := txn, 1 := txn])
  {
    var purpose := Process(p, false);
    var s1 := Next(c, s, Begin(0, purpose));
    var s2 := Next(c, s1, Begin(1, purpose));
    var s3 := Next(c, s2, Read(0));
    var txn := Txn(purpose, Accepted(s.lead));
    var t := Next(c, s3, Read(1));
    assert t.open == map[0 := txn, 1 := txn];
    Follows(c, s3, Read(1), t, []);
    Follows(c, s2, Read(0), s3, [Read(1)] + []);
    Follows(c, s1, Begin(1, purpose), s2, [Read(0)] + ([Read(1)] + []));
    actions := [Begin(0, purpose)] + ([Begin(1, purpose)] + ([Read(0)] + ([Read(1)] + [])));
    Follows(c, s, Begin(0, purpose), s1, actions[1..]);
  }

  /** One of them sends, while the other looks on. */
  lemma {:induction false} OneSends(c: Campaign, s: State, p: nat) returns (actions: seq<Action>)
    requires c.AcceptsSend(s.lead, p) && p <= |c.steps|
    requires var txn := Txn(Process(p, false), Accepted(s.lead)); s.open == map[0 := txn, 1 := txn]
    ensures IsRun(c, s, actions)
    ensures var t := Exec(c, s, actions);
      t.sends == s.sends + [p] && t.open == map[1 := Txn(Process(p, false), Accepted(s.lead))]
  {
    var s1 := Next(c, s, Decide(0, Send(0)));
    var s2 := Next(c, s1, Write(0));
    var t := Next(c, s2, Commit(0));
    assert t.open == map[1 := Txn(Process(p, false), Accepted(s.lead))];
    Follows(c, s2, Commit(0), t, []);
    Follows(c, s1, Write(0), s2, [Commit(0)] + []);
    actions := [Decide(0, Send(0))] + ([Write(0)] + ([Commit(0)] + []));
    Follows(c, s, Decide(0, Send(0)), s1, actions[1..]);
  }

  /** From snapshots, any step that is due can be committed twice. */
  lemma {:induction false} SnapshotsRepeat(c: Campaign, s: State, p: nat) returns (actions: seq<Action>)
    requires Init(c, s) && c.AcceptsSend(s.lead, p) && p <= |c.steps|
    ensures IsRun(c, s, actions) && Exec(c, s, actions).sends == s.sends + [p, p]
  {
    var both := TwoRead(c, s, p);
    var t := Exec(c, s, both);
    var first := OneSends(c, t, p);
    var u := Exec(c, t, first);
    RunThenRun(c, s, both, first);
    RunOk(c, s, both + first);
    var second := CanComeToCommit(c, u, 1);
    var v := Exec(c, u, second);
    Single(c, v, Commit(1));
    assert TxnOk(c, v.open[1]) by { RunOk(c, u, second); }
    RunThenRun(c, u, second, [Commit(1)]);
    RunThenRun(c, s, both + first, second + [Commit(1)]);
    actions := (both + first) + (second + [Commit(1)]);
    assert Exec(c, s, actions).sends == s.sends + [p] + [p];
  }

  // ---------- A concrete run ----------

  const STEPS := [CampaignDomain.Step(11, 1, "s", "b", 0), CampaignDomain.Step(12, 2, "t", "c", 0)]
  const TWO_STEPS := Campaign(10, 1, 2, "c", Active, STEPS, 0)
  const SENT_ONE := Lead(13, 1, 10, "x", LeadState.Sent, 1, None, None, 0)
  const PAUSED := SENT_ONE.(state := LeadState.Paused, stopReason := Some(Replied), replyIntent := Some(Positive))
  const CALL := Process(2, true)

  /** The consumer writes the stop it has decided on, and commits. */
  lemma {:induction false} StopIsWritten(s: State) returns (actions: seq<Action>)
    requires s.lead == SENT_ONE && s.sends == [1] && s.settled == {1}
    requires s.open == map[1 := Txn(CALL, Accepted(SENT_ONE)), 2 := Txn(Stop(Positive), Accepted(SENT_ONE))]
    ensures IsRun(TWO_STEPS, s, actions) && OnlyById(actions)
    ensures Exec(TWO_STEPS, s, actions) == State(PAUSED, [1], {1}, map[1 := Txn(CALL, Accepted(SENT_ONE))])
  {
    var c := TWO_STEPS;
    var s1 := Next(c, s, Decide(2, Answer(0)));
    var s2 := Next(c, s1, Write(2));
    var t := State(PAUSED, [1], {1}, map[1 := Txn(CALL, Accepted(SENT_ONE))]);
    assert Ended(s2, 2).open == t.open;
    Follows(c, s2, Commit(2), t, []);
    Follows(c, s1, Write(2), s2, [Commit(2)] + []);
    actions := [Decide(2, Answer(0))] + ([Write(2)] + ([Commit(2)] + []));
    Follows(c, s, Decide(2, Answer(0)), s1, actions[1..]);
  }

  /** The consumer reads the lead, writes the stop and commits, while the call has read the lead and not yet sent. */
  lemma {:induction false} ReplyIsHandled(s: State) returns (actions: seq<Action>)
    requires s == State(SENT_ONE, [1], {1}, map[1 := Txn(CALL, Accepted(SENT_ONE))])
    ensures IsRun(TWO_STEPS, s, actions) && OnlyById(actions)
    ensures Exec(TWO_STEPS, s, actions) == State(PAUSED, [1], {1}, map[1 := Txn(CALL, Accepted(SENT_ONE))])
  {
    var (c, purpose) := (TWO_STEPS, Stop(Positive));
    var s1 := Next(c, s, Begin(2, purpose));
    var s2 := Next(c, s1, Read(2));
    assert s2.open == map[1 := Txn(CALL, Accepted(SENT_ONE)), 2 := Txn(purpose, Accepted(SENT_ONE))];
    var written := StopIsWritten(s2);
    Follows(c, s1, Read(2), s2, written);
    actions := [Begin(2, purpose)] + ([Read(2)] + written);
    Follows(c, s, Begin(2, purpose), s1, actions[1..]);
    forall k | 0 <= k < |actions| && actions[k].Begin? && actions[k].purpose.Process? ensures actions[k].purpose.byId {
      assert k < 2 || actions[k] == written[k - 2];
    }
  }

  lemma {:induction false} CallGoesOn(s: State) returns (actions: seq<Action>)
    requires s == State(PAUSED, [1], {1}, map[1 := Txn(CALL, Accepted(SENT_ONE))])
    ensures IsRun(TWO_STEPS, s, actions) && OnlyById(actions)
    ensures var t := Exec(TWO_STEPS, s, actions);
      t.lead.state.Done? && t.lead.stopReason == Some(Replied) && t.sends == [1, 2]
  {
    var c := TWO_STEPS;
    var s1 := Next(c, s, Decide(1, Send(0)));
    var s2 := Next(c, s1, Write(1));
    var t := Next(c, s2, Commit(1));
    Follows(c, s2, Commit(1), t, []);
    Follows(c, s1, Write(1), s2, [Commit(1)] + []);
    actions := [Decide(1, Send(0))] + ([Write(1)] + ([Commit(1)] + []));
    Follows(c, s, Decide(1, Send(0)), s1, actions[1..]);
  }

  /**
   A reply is handled while the lead's last step is on its way. The step is counted and the paused lead is done,
   although the call went by identifier.
   */
  lemma {:induction false} RepliedLeadIsDone() returns (start: State, before: seq<Action>, after: seq<Action>)
    ensures Init(TWO_STEPS, start) && IsRun(TWO_STEPS, start, before) && OnlyById(before) && OnlyById(after)
    ensures var s := Exec(TWO_STEPS, start, before);
      && s.lead == PAUSED && s.sends == [1] && IsRun(TWO_STEPS, s, after)
      && var t := Exec(TWO_STEPS, s, after);
        t.lead.state.Done? && t.lead.stopReason == Some(Replied) && t.sends == [1, 2]
  {
    var c := TWO_STEPS;
    start := State(SENT_ONE, [1], {1}, map[]);
    assert FirstSteps(1) == [1];
    var s1 := Next(c, start, Begin(1, CALL));
    var s2 := Next(c, s1, Read(1));
    assert s2 == State(SENT_ONE, [1], {1}, map[1 := Txn(CALL, Accepted(SENT_ONE))]);
    var handled := ReplyIsHandled(s2);
    Follows(c, s1, Read(1), s2, handled);
    before := [Begin(1, CALL)] + ([Read(1)] + handled);
    Follows(c, start, Begin(1, CALL), s1, before[1..]);
    forall k | 0 <= k < |before| && before[k].Begin? && before[k].purpose.Process? ensures before[k].purpose.byId {
      assert k < 2 || before[k] == handled[k - 2];
    }
    after := CallGoesOn(Exec(c, start, before));
  }
}
