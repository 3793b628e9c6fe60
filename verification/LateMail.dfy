/** How many messages can still reach an address once it is suppressed: no more than were already on their way. */
module LateMail {
  import opened Base
  import opened Guards
  import Text

  /** The messages to an address that `after` has and `before` does not. */
  function LateRows(before: seq<SentRow>, after: seq<SentRow>, workspace: Id, email: string): set<nat> {
    set i: nat | |before| <= i < |after| && after[i].workspace == workspace
                 && Text.NormalizeEmail(after[i].toEmail) == Text.NormalizeEmail(email)
  }

  /** The open transactions to an address that have passed their check. */
  function Racers(s: State, workspace: Id, email: string): set<Id> {
    set id | id in s.senders && s.senders[id].PastCheck() && s.senders[id].workspace == workspace
             && Text.NormalizeEmail(s.senders[id].toEmail) == Text.NormalizeEmail(email)
  }

  /** `who` gives every late row a racer of its own, which sent it. */
  ghost predicate OwnRacers(s: State, after: seq<SentRow>, workspace: Id, email: string, who: map<nat, Id>) {
    && who.Keys == LateRows(s.sent, after, workspace, email)
    && (forall i :: i in who ==>
          && who[i] in Racers(s, workspace, email)
          && s.senders[who[i]].mailbox == after[i].mailbox && s.senders[who[i]].toEmail == after[i].toEmail)
    && (forall i, j :: i in who && j in who && i != j ==> who[i] != who[j])
  }

  /** The racers of `t` were racers in `s`, with the same mailbox and spelling. */
  ghost predicate RacersStay(s: State, t: State, workspace: Id, email: string) {
    && Racers(t, workspace, email) <= Racers(s, workspace, email)
    && (forall id :: id in Racers(t, workspace, email) ==>
          s.senders[id].mailbox == t.senders[id].mailbox && s.senders[id].toEmail == t.senders[id].toEmail)
  }

  /** One step opens no racer, and a late message of its own uses its racer up. */
  lemma {:induction false} RacersAreUsedUp(c: Config, s: State, step: Step, workspace: Id, email: string)
    requires Enabled(s, step) && IsSuppressed(s, workspace, email)
    ensures var t := Next(c, s, step);
      && RacersStay(s, t, workspace, email)
      && s.sent <= t.sent
      && (LateRows(s.sent, t.sent, workspace, email) != {} ==>
            && step.Commit? && step.id in Racers(s, workspace, email) && step.id !in t.senders
            && LateRows(s.sent, t.sent, workspace, email) == {|s.sent|}
            && t.sent == s.sent + [SentRow(workspace, s.senders[step.id].mailbox, s.senders[step.id].toEmail,
                                           s.senders[step.id].phase.stamp)])
  {
    var t := Next(c, s, step);
    if LateRows(s.sent, t.sent, workspace, email) != {} {
      assert step.Commit?;
      forall i | i in LateRows(s.sent, t.sent, workspace, email) ensures i == |s.sent| {
      }
    }
  }

  lemma {:induction false} LateRowsAddUp(
    a: seq<SentRow>, b: seq<SentRow>, end: seq<SentRow>, workspace: Id, email: string)
    requires a <= b <= end
    ensures LateRows(a, end, workspace, email) == LateRows(a, b, workspace, email) + LateRows(b, end, workspace, email)
  {
    assert forall i :: 0 <= i < |b| ==> b[i] == end[i];
  }

  /** A step that sends nothing late leaves the assignment as it is. */
  lemma {:induction false} RacersOfStep(
    s: State, t: State, end: seq<SentRow>, workspace: Id, email: string, who: map<nat, Id>)
    requires RacersStay(s, t, workspace, email) && s.sent <= t.sent <= end
    requires OwnRacers(t, end, workspace, email, who) && LateRows(s.sent, t.sent, workspace, email) == {}
    ensures OwnRacers(s, end, workspace, email, who)
  {
    LateRowsAddUp(s.sent, t.sent, end, workspace, email);
    assert who.Keys == LateRows(s.sent, end, workspace, email);
  }

  /** A late message is assigned the racer that sent it, which is gone afterwards. */
  lemma {:induction false} RacersOfLateCommit(
    s: State, t: State, id: Id, end: seq<SentRow>, workspace: Id, email: string, who: map<nat, Id>)
    requires RacersStay(s, t, workspace, email) && s.sent <= t.sent <= end
    requires OwnRacers(t, end, workspace, email, who) && LateRows(s.sent, t.sent, workspace, email) == {|s.sent|}
    requires id in Racers(s, workspace, email) && id !in t.senders && |t.sent| == |s.sent| + 1
    requires s.senders[id].mailbox == t.sent[|s.sent|].mailbox && s.senders[id].toEmail == t.sent[|s.sent|].toEmail
    ensures OwnRacers(s, end, workspace, email, who[|s.sent| := id])
  {
    LateRowsAddUp(s.sent, t.sent, end, workspace, email);
    assert end[|s.sent|] == t.sent[|s.sent|];
    assert |s.sent| !in who;
    assert who[|s.sent| := id].Keys == LateRows(s.sent, end, workspace, email);
  }

  lemma {:induction false} LateMailHasOwnRacers(c: Config, s: State, steps: seq<Step>, workspace: Id, email: string)
    returns (who: map<nat, Id>)
    requires IsRun(c, s, steps) && IsSuppressed(s, workspace, email)
    ensures OwnRacers(s, Exec(c, s, steps).sent, workspace, email, who)
    decreases |steps|
  {
    if steps == [] {
      who := map[];
      assert LateRows(s.sent, s.sent, workspace, email) == {};
    } else {
      var t, end := Next(c, s, steps[0]), Exec(c, s, steps).sent;
      RacersAreUsedUp(c, s, steps[0], workspace, email);
      SentOnlyGrows(c, t, steps[1..]);
      var rest := LateMailHasOwnRacers(c, t, steps[1..], workspace, email);
      if LateRows(s.sent, t.sent, workspace, email) == {} {
        who := rest;
        RacersOfStep(s, t, end, workspace, email, rest);
      } else {
        who := rest[|s.sent| := steps[0].id];
        RacersOfLateCommit(s, t, steps[0].id, end, workspace, email, rest);
      }
    }
  }

  /** Different keys with different values in a set: no more keys than the set has elements. */
  lemma {:induction false} InjectionBounds(who: map<nat, Id>, values: set<Id>)
    requires forall i :: i in who ==> who[i] in values
    requires forall i, j :: i in who && j in who && i != j ==> who[i] != who[j]
    ensures |who.Keys| <= |values|
    decreases |who|
  {
    if who != map[] {
      var i :| i in who;
      var rest := who - {i};
      assert who.Keys == rest.Keys + {i};
      InjectionBounds(rest, values - {who[i]});
    }
  }

  /**
   The messages committed to an address after its suppression come from different transactions, each open and past its
   check when the suppression was committed; so there are no more of them than of those.
   */
  lemma {:induction false} LateMailIsBounded(c: Config, s: State, steps: seq<Step>, workspace: Id, email: string)
    returns (who: map<nat, Id>)
    requires IsRun(c, s, steps) && IsSuppressed(s, workspace, email)
    ensures OwnRacers(s, Exec(c, s, steps).sent, workspace, email, who)
    ensures |LateRows(s.sent, Exec(c, s, steps).sent, workspace, email)| <= |Racers(s, workspace, email)|
  {
    who := LateMailHasOwnRacers(c, s, steps, workspace, email);
    InjectionBounds(who, Racers(s, workspace, email));
  }

  // ---------- The bound is met ----------

  /** A sender past its check, alone at the lock, with the cap not reached, sends and is gone. */
  lemma {:induction false} Sends(c: Config, s: State, id: Id) returns (steps: seq<Step>)
    requires id in s.senders && s.senders[id].phase.Unsuppressed? && s.locks == map[]
    requires |s.sent| < c.cap(s.senders[id].mailbox)
    ensures IsRun(c, s, steps)
    ensures var sender := s.senders[id];
      Exec(c, s, steps) == s.(senders := s.senders - {id},
                              sent := s.sent + [SentRow(sender.workspace, sender.mailbox, sender.toEmail, 0)])
  {
    var sender := s.senders[id];
    var s1 := Next(c, s, TryLock(id));
    var s2 := Next(c, s1, ReadClock(id, 0));
    FewSince(s.sent, sender.mailbox, s2.senders[id].phase.dayStart);
    var s3 := Next(c, s2, CountToday(id));
    var s4 := Next(c, s3, StampMessage(id, 0));
    var s5 := Next(c, s4, Deliver(id, true));
    Unroll(c, s5, Commit(id), []);
    Unroll(c, s4, Deliver(id, true), [Commit(id)] + []);
    Unroll(c, s3, StampMessage(id, 0), [Deliver(id, true)] + ([Commit(id)] + []));
    var last := [StampMessage(id, 0)] + ([Deliver(id, true)] + ([Commit(id)] + []));
    Unroll(c, s2, CountToday(id), last);
    Unroll(c, s1, ReadClock(id, 0), [CountToday(id)] + last);
    Unroll(c, s, TryLock(id), [ReadClock(id, 0)] + ([CountToday(id)] + last));
    steps := [TryLock(id)] + ([ReadClock(id, 0)] + ([CountToday(id)] + last));
    var end := Next(c, s5, Commit(id));
    assert end.senders == s.senders - {id};
    assert end.locks == map[];
  }

  /** No more messages count than there are. */
  lemma {:induction false} FewSince(sent: seq<SentRow>, mailbox: Id, since: Time)
    ensures |SentSince(sent, mailbox, since)| <= |sent|
  {
    if sent == [] {
      assert SentSince(sent, mailbox, since) == {};
    } else {
      var last := |sent| - 1;
      FewSince(sent[..last], mailbox, since);
      SubsetIsSmaller(SentSince(sent, mailbox, since), SentSince(sent[..last], mailbox, since) + {last});
    }
  }

  lemma {:induction false} RunThenRun(c: Config, s: State, front: seq<Step>, back: seq<Step>)
    requires IsRun(c, s, front) && IsRun(c, Exec(c, s, front), back)
    ensures IsRun(c, s, front + back) && Exec(c, s, front + back) == Exec(c, Exec(c, s, front), back)
    decreases |front|
  {
    if front == [] {
      assert front + back == back;
    } else {
      assert (front + back)[1..] == front[1..] + back;
      RunThenRun(c, Next(c, s, front[0]), front[1..], back);
    }
  }

  /** The messages these senders could add stay within every cap. */
  ghost predicate RoomFor(c: Config, s: State, ids: set<Id>) {
    && s.locks == map[]
    && forall id :: id in ids ==>
         && id in s.senders && s.senders[id].phase.Unsuppressed?
         && |s.sent| + |ids| <= c.cap(s.senders[id].mailbox)
  }

  /** Any number of racers that find the locks free and the caps wide enough can all still commit. */
  lemma {:induction false} AllRacersCanCommit(c: Config, s: State, ids: set<Id>, workspace: Id, email: string)
    returns (steps: seq<Step>)
    requires IsSuppressed(s, workspace, email) && ids <= Racers(s, workspace, email) && RoomFor(c, s, ids)
    ensures IsRun(c, s, steps)
    ensures |LateRows(s.sent, Exec(c, s, steps).sent, workspace, email)| >= |ids|
    decreases |ids|
  {
    if ids == {} {
      steps := [];
    } else {
      var id :| id in ids;
      var first := Sends(c, s, id);
      var t := Exec(c, s, first);
      var rest := AllRacersCanCommit(c, t, ids - {id}, workspace, email);
      steps := first + rest;
      RunThenRun(c, s, first, rest);
      SentOnlyGrows(c, t, rest);
      var end := Exec(c, t, rest).sent;
      LateRowsAddUp(s.sent, t.sent, end, workspace, email);
      assert |s.sent| in LateRows(s.sent, t.sent, workspace, email);
      SubsetIsSmaller(LateRows(t.sent, end, workspace, email) + {|s.sent|}, LateRows(s.sent, end, workspace, email));
    }
  }

  /** Where every racer finds room, some run sends exactly as many late messages as there are racers. */
  lemma {:induction false} BoundIsMet(c: Config, s: State, workspace: Id, email: string) returns (steps: seq<Step>)
    requires IsSuppressed(s, workspace, email) && RoomFor(c, s, Racers(s, workspace, email))
    ensures IsRun(c, s, steps)
    ensures |LateRows(s.sent, Exec(c, s, steps).sent, workspace, email)| == |Racers(s, workspace, email)|
  {
    steps := AllRacersCanCommit(c, s, Racers(s, workspace, email), workspace, email);
    var who := LateMailIsBounded(c, s, steps, workspace, email);
  }

  // ---------- A concrete run ----------

  /** A cap of ten, and a lock key for each mailbox. */
  function TenADay(): Config {
    Config(_ => 10, mailbox => mailbox)
  }

  /** Two senders pass their checks, and then the address is suppressed. */
  lemma {:induction false} TwoPastTheirChecks(c: Config) returns (start: State, steps: seq<Step>)
    ensures Init(start) && IsRun(c, start, steps)
    ensures Exec(c, start, steps) ==
      State(map[0 := Sender(1, 2, "x", Unsuppressed), 1 := Sender(1, 2, "x", Unsuppressed)],
            map[], [], {(1, Text.NormalizeEmail("x"))})
  {
    start := State(map[], map[], [], {});
    var s1 := Next(c, start, Begin(0, 1, 2, "x"));
    var s2 := Next(c, s1, Begin(1, 1, 2, "x"));
    var s3 := Next(c, s2, CheckSuppression(0));
    var s4 := Next(c, s3, CheckSuppression(1));
    Unroll(c, s4, PollCommits(1, "x"), []);
    var last := [PollCommits(1, "x")] + [];
    Unroll(c, s3, CheckSuppression(1), last);
    Unroll(c, s2, CheckSuppression(0), [CheckSuppression(1)] + last);
    Unroll(c, s1, Begin(1, 1, 2, "x"), [CheckSuppression(0)] + ([CheckSuppression(1)] + last));
    var rest := [Begin(1, 1, 2, "x")] + ([CheckSuppression(0)] + ([CheckSuppression(1)] + last));
    Unroll(c, start, Begin(0, 1, 2, "x"), rest);
    steps := [Begin(0, 1, 2, "x")] + rest;
  }

  /** From empty tables, a run that mails a suppressed address twice: the bound is met by two racers. */
  lemma {:induction false} SuppressedAddressIsMailedTwice() returns (start: State, before: seq<Step>, after: seq<Step>)
    ensures Init(start) && IsRun(TenADay(), start, before)
    ensures var s := Exec(TenADay(), start, before);
      && IsSuppressed(s, 1, "x") && s.sent == []
      && IsRun(TenADay(), s, after)
      && |LateRows(s.sent, Exec(TenADay(), s, after).sent, 1, "x")| == 2 == |Racers(s, 1, "x")|
  {
    var c := TenADay();
    start, before := TwoPastTheirChecks(c);
    var s := Exec(c, start, before);
    assert Racers(s, 1, "x") == {0, 1};
    after := BoundIsMet(c, s, 1, "x");
  }
}
