/**
 The send guards at the grain of single statements: any number of senders, interleaved anyhow, each taking its own
 clock readings. A statement sees what other transactions have committed; the lock is held to the end of its
 transaction, and its key is any function of the mailbox.
 */
module Guards {
  import opened Base
  import Text

  /** How far a send transaction has come. `Aborted` is an exception, or an answer that sends nothing. */
  datatype Phase =
    | Begun
    | Unsuppressed
    | Locked
    | Clocked(dayStart: Time)
    | Counted(dayStart: Time)
    | Stamped(dayStart: Time, stamp: Time)
    | Delivered(dayStart: Time, stamp: Time)
    | Aborted

  datatype Sender = Sender(workspace: Id, mailbox: Id, toEmail: string, phase: Phase)
  {
    predicate HoldsLock() {
      phase.Locked? || phase.Clocked? || CountedToday()
    }

    predicate CountedToday() {
      phase.Counted? || phase.Stamped? || phase.Delivered?
    }

    /** The suppression list has been consulted and let this send through. */
    predicate PastCheck() {
      phase.Unsuppressed? || HoldsLock()
    }

    function In(phase: Phase): Sender {
      this.(phase := phase)
    }
  }

  datatype SentRow = SentRow(workspace: Id, mailbox: Id, toEmail: string, stamp: Time)

  /** What no step changes. */
  datatype Config = Config(cap: Id -> nat, key: Id -> int)

  /** Open transactions, lock holders, and what has been committed. */
  datatype State = State(
    senders: map<Id, Sender>,
    locks: map<int, Id>,
    sent: seq<SentRow>,
    suppressed: set<(Id, string)>)

  datatype Step =
    | Begin(id: Id, workspace: Id, mailbox: Id, toEmail: string)
    | CheckSuppression(id: Id)
    | TryLock(id: Id)
    | ReadClock(id: Id, reading: Time)
    | CountToday(id: Id)
    | StampMessage(id: Id, reading: Time)
    | Deliver(id: Id, accepted: bool)
    | Commit(id: Id)
    | RollBack(id: Id)
    | PollCommits(workspace: Id, email: string)

  predicate IsSuppressed(s: State, workspace: Id, email: string) {
    (workspace, Text.NormalizeEmail(email)) in s.suppressed
  }

  function SentSince(sent: seq<SentRow>, mailbox: Id, since: Time): set<nat> {
    set i: nat | i < |sent| && sent[i].mailbox == mailbox && sent[i].stamp >= since
  }

  /** The committed messages of a mailbox stamped in the day that starts at `day`. */
  function SentOn(sent: seq<SentRow>, mailbox: Id, day: Time): set<nat> {
    set i: nat | i < |sent| && sent[i].mailbox == mailbox && day <= sent[i].stamp < day + DAY
  }

  /** A sender's own clock does not run backwards within its transaction; nothing is asked across senders. */
  predicate Enabled(s: State, step: Step) {
    match step
    case Begin(id, _, _, _) => id !in s.senders
    case CheckSuppression(id) => id in s.senders && s.senders[id].phase.Begun?
    case TryLock(id) => id in s.senders && s.senders[id].phase.Unsuppressed?
    case ReadClock(id, _) => id in s.senders && s.senders[id].phase.Locked?
    case CountToday(id) => id in s.senders && s.senders[id].phase.Clocked?
    case StampMessage(id, reading) =>
      id in s.senders && s.senders[id].phase.Counted? && s.senders[id].phase.dayStart <= reading
    case Deliver(id, _) => id in s.senders && s.senders[id].phase.Stamped?
    case Commit(id) => id in s.senders && s.senders[id].phase.Delivered?
    case RollBack(id) => id in s.senders
    case PollCommits(_, _) => true
  }

  function Moved(s: State, id: Id, phase: Phase): State
    requires id in s.senders
  {
    s.(senders := s.senders[id := s.senders[id].In(phase)])
  }

  /** The transaction is over: its locks are gone, and the sender may begin another. */
  function Ended(s: State, id: Id): State {
    s.(senders := s.senders - {id}, locks := map k | k in s.locks && s.locks[k] != id :: s.locks[k])
  }

  function Next(c: Config, s: State, step: Step): State
    requires Enabled(s, step)
  {
    match step
    case Begin(id, workspace, mailbox, toEmail) =>
      s.(senders := s.senders[id := Sender(workspace, mailbox, toEmail, Begun)])
    case CheckSuppression(id) =>
      var sender := s.senders[id];
      Moved(s, id, if IsSuppressed(s, sender.workspace, sender.toEmail) then Aborted else Unsuppressed)
    case TryLock(id) =>
      var key := c.key(s.senders[id].mailbox);
      if key in s.locks then Moved(s, id, Aborted) else Moved(s, id, Locked).(locks := s.locks[key := id])
    case ReadClock(id, reading) => Moved(s, id, Clocked(StartOfUtcDay(reading)))
    case CountToday(id) =>
      var (mailbox, dayStart) := (s.senders[id].mailbox, s.senders[id].phase.dayStart);
      Moved(s, id, if |SentSince(s.sent, mailbox, dayStart)| >= c.cap(mailbox) then Aborted else Counted(dayStart))
    case StampMessage(id, reading) => Moved(s, id, Stamped(s.senders[id].phase.dayStart, reading))
    case Deliver(id, accepted) =>
      Moved(s, id, if accepted then Delivered(s.senders[id].phase.dayStart, s.senders[id].phase.stamp) else Aborted)
    case Commit(id) =>
      var sender := s.senders[id];
      Ended(s, id).(sent := s.sent + [SentRow(sender.workspace, sender.mailbox, sender.toEmail, sender.phase.stamp)])
    case RollBack(id) => Ended(s, id)
    case PollCommits(workspace, email) => s.(suppressed := s.suppressed + {(workspace, Text.NormalizeEmail(email))})
  }

  predicate IsRun(c: Config, s: State, steps: seq<Step>)
    decreases |steps|
  {
    steps == [] || (Enabled(s, steps[0]) && IsRun(c, Next(c, s, steps[0]), steps[1..]))
  }

  function Exec(c: Config, s: State, steps: seq<Step>): State
    requires IsRun(c, s, steps)
    decreases |steps|
  {
    if steps == [] then s else Exec(c, Next(c, s, steps[0]), steps[1..])
  }

  /** A run of one step and the rest. */
  lemma {:induction false} Unroll(c: Config, g: State, step: Step, rest: seq<Step>)
    ensures IsRun(c, g, [step] + rest) <==> Enabled(g, step) && IsRun(c, Next(c, g, step), rest)
    ensures IsRun(c, g, [step] + rest) ==> Exec(c, g, [step] + rest) == Exec(c, Next(c, g, step), rest)
  {
    assert ([step] + rest)[1..] == rest;
  }

  // ---------- The invariant ----------

  /** Who is past the lock holds it; who has counted still counts below the cap, and stamps no earlier day. */
  ghost predicate SenderOk(c: Config, s: State, id: Id)
    requires id in s.senders
  {
    var sender := s.senders[id];
    && (sender.HoldsLock() ==> c.key(sender.mailbox) in s.locks && s.locks[c.key(sender.mailbox)] == id)
    && (sender.phase.Clocked? || sender.CountedToday() ==> sender.phase.dayStart % DAY == 0)
    && (sender.CountedToday() ==> |SentSince(s.sent, sender.mailbox, sender.phase.dayStart)| < c.cap(sender.mailbox))
    && (sender.phase.Stamped? || sender.phase.Delivered? ==> sender.phase.dayStart <= sender.phase.stamp)
  }

  ghost predicate CapHolds(c: Config, sent: seq<SentRow>) {
    forall mailbox, day | day % DAY == 0 :: |SentOn(sent, mailbox, day)| <= c.cap(mailbox)
  }

  ghost predicate Inv(c: Config, s: State) {
    (forall id :: id in s.senders ==> SenderOk(c, s, id)) && CapHolds(c, s.sent)
  }

  predicate Init(s: State) {
    s.senders == map[] && s.locks == map[] && s.sent == []
  }

  lemma {:induction false} InitHolds(c: Config, s: State)
    requires Init(s)
    ensures Inv(c, s)
  {
    forall mailbox, day | day % DAY == 0 ensures |SentOn(s.sent, mailbox, day)| <= c.cap(mailbox) {
      assert SentOn(s.sent, mailbox, day) == {};
    }
  }

  /** One more row counts once for its mailbox from its stamp on, and not at all elsewhere. */
  lemma {:induction false} AppendedRow(sent: seq<SentRow>, row: SentRow, mailbox: Id, day: Time)
    ensures row.mailbox != mailbox ==> SentSince(sent + [row], mailbox, day) == SentSince(sent, mailbox, day)
    ensures SentOn(sent + [row], mailbox, day) ==
      if row.mailbox == mailbox && day <= row.stamp < day + DAY then SentOn(sent, mailbox, day) + {|sent|}
      else SentOn(sent, mailbox, day)
  {
  }

  /** The cap survives a commit: the day of the stamp is no earlier than the day that was counted. */
  lemma {:induction false} CommitKeepsCap(c: Config, sent: seq<SentRow>, row: SentRow, dayStart: Time)
    requires CapHolds(c, sent)
    requires dayStart % DAY == 0 && dayStart <= row.stamp
    requires |SentSince(sent, row.mailbox, dayStart)| < c.cap(row.mailbox)
    ensures CapHolds(c, sent + [row])
  {
    forall mailbox, day | day % DAY == 0 ensures |SentOn(sent + [row], mailbox, day)| <= c.cap(mailbox) {
      AppendedRow(sent, row, mailbox, day);
      if row.mailbox == mailbox && day <= row.stamp < day + DAY {
        DayStartIsUnique(row.stamp, day);
        DayStartIsUnique(dayStart, dayStart);
        DayStartIsMonotone(dayStart, row.stamp);
        SubsetIsSmaller(SentOn(sent, mailbox, day), SentSince(sent, mailbox, dayStart));
      }
    }
  }

  lemma {:induction false} CommitKeeps(c: Config, s: State, id: Id)
    requires Inv(c, s) && Enabled(s, Commit(id))
    ensures Inv(c, Next(c, s, Commit(id)))
  {
    var sender, t := s.senders[id], Next(c, s, Commit(id));
    var row := SentRow(sender.workspace, sender.mailbox, sender.toEmail, sender.phase.stamp);
    CommitKeepsCap(c, s.sent, row, sender.phase.dayStart);
    forall other | other in t.senders ensures SenderOk(c, t, other) {
      assert SenderOk(c, s, other) && SenderOk(c, s, id);
      if t.senders[other].CountedToday() {
        AppendedRow(s.sent, row, t.senders[other].mailbox, t.senders[other].phase.dayStart);
      }
    }
  }

  lemma {:induction false} MoveKeeps(c: Config, s: State, step: Step)
    requires Inv(c, s) && Enabled(s, step) && !step.Commit?
    ensures Inv(c, Next(c, s, step))
  {
    var t := Next(c, s, step);
    forall id | id in t.senders ensures SenderOk(c, t, id) {
      if id in s.senders { assert SenderOk(c, s, id); }
    }
  }

  lemma {:induction false} ExecKeeps(c: Config, s: State, steps: seq<Step>)
    requires Inv(c, s) && IsRun(c, s, steps)
    ensures Inv(c, Exec(c, s, steps))
    decreases |steps|
  {
    if steps != [] {
      if steps[0].Commit? { CommitKeeps(c, s, steps[0].id); } else { MoveKeeps(c, s, steps[0]); }
      ExecKeeps(c, Next(c, s, steps[0]), steps[1..]);
    }
  }

  /**
   For any interleaving of any number of senders, the committed messages of a mailbox stamped in one UTC day never
   exceed its cap, even when the count falls before midnight and the stamp after it.
   */
  lemma {:induction false} DailyCapHolds(c: Config, s: State, steps: seq<Step>, mailbox: Id, moment: Time)
    requires Init(s) && IsRun(c, s, steps)
    ensures |SentOn(Exec(c, s, steps).sent, mailbox, StartOfUtcDay(moment))| <= c.cap(mailbox)
  {
    InitHolds(c, s);
    ExecKeeps(c, s, steps);
  }

  // ---------- Suppression ----------

  /**
   Every message committed to an address after its suppression comes from a transaction that had already passed its
   check when the suppression was committed.
   */
  lemma {:induction false} SuppressedMailIsARace(c: Config, s: State, steps: seq<Step>, i: nat) returns (id: Id)
    requires IsRun(c, s, steps) && |s.sent| <= i < |Exec(c, s, steps).sent|
    requires IsSuppressed(s, Exec(c, s, steps).sent[i].workspace, Exec(c, s, steps).sent[i].toEmail)
    ensures id in s.senders && s.senders[id].PastCheck()
    ensures var row, sender := Exec(c, s, steps).sent[i], s.senders[id];
      sender.workspace == row.workspace && sender.mailbox == row.mailbox && sender.toEmail == row.toEmail
    decreases |steps|
  {
    var t := Next(c, s, steps[0]);
    if i < |t.sent| {
      SentOnlyGrows(c, t, steps[1..]);
      id := steps[0].id;
    } else {
      id := SuppressedMailIsARace(c, t, steps[1..], i);
    }
  }

  lemma {:induction false} SentOnlyGrows(c: Config, s: State, steps: seq<Step>)
    requires IsRun(c, s, steps)
    ensures s.sent <= Exec(c, s, steps).sent
    decreases |steps|
  {
    if steps != [] {
      SentOnlyGrows(c, Next(c, s, steps[0]), steps[1..]);
    }
  }

  /** The run ends with the commit of the transaction `id` has open at its start. */
  predicate CommitsOpen(steps: seq<Step>, id: Id) {
    && steps != [] && steps[|steps| - 1] == Commit(id)
    && forall k :: 0 <= k < |steps| - 1 ==> steps[k] != RollBack(id) && steps[k] != Commit(id)
  }

  /** Past the check, and not bound to find the cap reached. */
  predicate MayStillCommit(c: Config, s: State, id: Id)
    requires id in s.senders
  {
    var sender := s.senders[id];
    && sender.PastCheck()
    && 0 < c.cap(sender.mailbox)
    && (sender.phase.Clocked? ==> |SentSince(s.sent, sender.mailbox, sender.phase.dayStart)| < c.cap(sender.mailbox))
  }

  lemma {:induction false} StuckStays(c: Config, s: State, step: Step, id: Id)
    requires Inv(c, s) && Enabled(s, step) && step != RollBack(id) && id in s.senders
    requires IsSuppressed(s, s.senders[id].workspace, s.senders[id].toEmail)
    requires !MayStillCommit(c, s, id)
    ensures step != Commit(id)
    ensures var t := Next(c, s, step);
      && id in t.senders && IsSuppressed(t, t.senders[id].workspace, t.senders[id].toEmail)
      && !MayStillCommit(c, t, id)
  {
    var sender, t := s.senders[id], Next(c, s, step);
    assert SenderOk(c, s, id);
    if sender.phase.Clocked? {
      SubsetIsSmaller(SentSince(s.sent, sender.mailbox, sender.phase.dayStart),
                      SentSince(t.sent, sender.mailbox, sender.phase.dayStart));
    }
  }

  lemma {:induction false} StuckNeverCommits(c: Config, s: State, steps: seq<Step>, id: Id)
    requires Inv(c, s) && IsRun(c, s, steps) && id in s.senders
    requires IsSuppressed(s, s.senders[id].workspace, s.senders[id].toEmail)
    requires !MayStillCommit(c, s, id)
    ensures !CommitsOpen(steps, id)
    decreases |steps|
  {
    if CommitsOpen(steps, id) {
      StuckStays(c, s, steps[0], id);
      ExecKeeps(c, s, [steps[0]]);
      assert Exec(c, s, [steps[0]]) == Next(c, s, steps[0]);
      forall k | 0 <= k < |steps[1..]| - 1 ensures steps[1..][k] != RollBack(id) && steps[1..][k] != Commit(id) {
        assert steps[1..][k] == steps[k + 1];
      }
      StuckNeverCommits(c, Next(c, s, steps[0]), steps[1..], id);
    }
  }

  lemma {:induction false} OneMore(c: Config, s: State, step: Step, rest: seq<Step>, id: Id)
    requires Enabled(s, step) && step != RollBack(id) && step != Commit(id)
    requires IsRun(c, Next(c, s, step), rest) && CommitsOpen(rest, id)
    ensures IsRun(c, s, [step] + rest) && CommitsOpen([step] + rest, id)
  {
    var steps := [step] + rest;
    assert steps[1..] == rest;
    forall k | 0 <= k < |steps| - 1 ensures steps[k] != RollBack(id) && steps[k] != Commit(id) {
      if k > 0 { assert steps[k] == rest[k - 1]; }
    }
  }

  /** A day no committed message reaches. */
  lemma {:induction false} LaterDay(sent: seq<SentRow>) returns (reading: Time)
    ensures forall i :: 0 <= i < |sent| ==> sent[i].stamp < StartOfUtcDay(reading)
  {
    if sent == [] {
      reading := 0;
    } else {
      var last := |sent| - 1;
      var before := LaterDay(sent[..last]);
      reading := (if before < sent[last].stamp then sent[last].stamp else before) + DAY;
      DayStartIsMonotone(before, reading);
      assert forall i :: 0 <= i < last ==> sent[i] == sent[..last][i];
    }
  }

  /** From the count on, the transaction commits by itself. */
  lemma {:induction false} FinishCounted(c: Config, s: State, id: Id) returns (steps: seq<Step>)
    requires id in s.senders && s.senders[id].CountedToday()
    ensures IsRun(c, s, steps) && CommitsOpen(steps, id)
  {
    match s.senders[id].phase
    case Counted(dayStart) =>
      var step := StampMessage(id, dayStart);
      var rest := FinishStamped(c, Next(c, s, step), id);
      OneMore(c, s, step, rest, id);
      steps := [step] + rest;
    case _ => steps := FinishStamped(c, s, id);
  }

  lemma {:induction false} FinishStamped(c: Config, s: State, id: Id) returns (steps: seq<Step>)
    requires id in s.senders && (s.senders[id].phase.Stamped? || s.senders[id].phase.Delivered?)
    ensures IsRun(c, s, steps) && CommitsOpen(steps, id)
  {
    if s.senders[id].phase.Delivered? {
      steps := [Commit(id)];
    } else {
      OneMore(c, s, Deliver(id, true), [Commit(id)], id);
      steps := [Deliver(id, true), Commit(id)];
    }
  }

  lemma {:induction false} FinishLocked(c: Config, s: State, id: Id) returns (steps: seq<Step>)
    requires id in s.senders && s.senders[id].HoldsLock() && MayStillCommit(c, s, id)
    ensures IsRun(c, s, steps) && CommitsOpen(steps, id)
    decreases if s.senders[id].phase.Locked? then 1 else 0
  {
    if s.senders[id].CountedToday() {
      steps := FinishCounted(c, s, id);
    } else if s.senders[id].phase.Clocked? {
      var rest := FinishCounted(c, Next(c, s, CountToday(id)), id);
      OneMore(c, s, CountToday(id), rest, id);
      steps := [CountToday(id)] + rest;
    } else {
      var reading := LaterDay(s.sent);
      var step := ReadClock(id, reading);
      assert SentSince(s.sent, s.senders[id].mailbox, StartOfUtcDay(reading)) == {};
      var rest := FinishLocked(c, Next(c, s, step), id);
      OneMore(c, s, step, rest, id);
      steps := [step] + rest;
    }
  }

  lemma {:induction false} Finish(c: Config, s: State, id: Id) returns (steps: seq<Step>)
    requires Inv(c, s) && id in s.senders && MayStillCommit(c, s, id) && LocksAreHeld(s)
    ensures IsRun(c, s, steps) && CommitsOpen(steps, id)
  {
    var key := c.key(s.senders[id].mailbox);
    if s.senders[id].HoldsLock() {
      steps := FinishLocked(c, s, id);
    } else if key in s.locks {
      var holder := s.locks[key];
      var rest := FinishFree(c, Next(c, s, RollBack(holder)), id);
      OneMore(c, s, RollBack(holder), rest, id);
      steps := [RollBack(holder)] + rest;
    } else {
      steps := FinishFree(c, s, id);
    }
  }

  lemma {:induction false} FinishFree(c: Config, s: State, id: Id) returns (steps: seq<Step>)
    requires id in s.senders && s.senders[id].phase.Unsuppressed? && 0 < c.cap(s.senders[id].mailbox)
    requires c.key(s.senders[id].mailbox) !in s.locks
    ensures IsRun(c, s, steps) && CommitsOpen(steps, id)
  {
    var rest := FinishLocked(c, Next(c, s, TryLock(id)), id);
    OneMore(c, s, TryLock(id), rest, id);
    steps := [TryLock(id)] + rest;
  }

  /** A lock belongs to an open transaction that is past taking it. */
  ghost predicate LocksAreHeld(s: State) {
    forall key :: key in s.locks ==>
      && s.locks[key] in s.senders
      && (s.senders[s.locks[key]].HoldsLock() || s.senders[s.locks[key]].phase.Aborted?)
  }

  lemma {:induction false} LocksStayHeld(c: Config, s: State, steps: seq<Step>)
    requires LocksAreHeld(s) && IsRun(c, s, steps)
    ensures LocksAreHeld(Exec(c, s, steps))
    decreases |steps|
  {
    if steps != [] {
      LocksStayHeld(c, Next(c, s, steps[0]), steps[1..]);
    }
  }

  /**
   Exactly when the open transaction of `id`, to an address that has been suppressed meanwhile, can still commit: it had
   passed the check, and the count it is going to make, or has made, is below the cap.
   */
  lemma {:induction false} SuppressionRace(c: Config, start: State, before: seq<Step>, id: Id)
    requires Init(start) && IsRun(c, start, before)
    requires var s := Exec(c, start, before);
      id in s.senders && IsSuppressed(s, s.senders[id].workspace, s.senders[id].toEmail)
    ensures var s := Exec(c, start, before);
      (exists steps :: IsRun(c, s, steps) && CommitsOpen(steps, id)) <==> MayStillCommit(c, s, id)
  {
    var s := Exec(c, start, before);
    InitHolds(c, start);
    ExecKeeps(c, start, before);
    LocksStayHeld(c, start, before);
    if MayStillCommit(c, s, id) {
      var steps := Finish(c, s, id);
    } else {
      forall steps | IsRun(c, s, steps) ensures !CommitsOpen(steps, id) {
        StuckNeverCommits(c, s, steps, id);
      }
    }
  }
}
