/** Uninterrupted, the guards at statement grain are the atomic send of the machine. */
module GuardsAgree {
  import opened Base
  import opened Guards
  import opened Sending
  import Tables

  type Messages = map<Id, Tables.Outbound>

  /** The two models see the same caps, the same suppressions and the same counts. */
  ghost predicate Agrees(c: Config, g: State, db: Tables.Db) {
    && (forall workspace :: workspace in db.mailboxes ==>
          c.cap(db.mailboxes[workspace].id) == db.mailboxes[workspace].dailySendCap)
    && (forall workspace, email ::
          Guards.IsSuppressed(g, workspace, email) <==> Tables.IsSuppressed(db.suppressions, workspace, email))
    && (forall mailbox, since ::
          |Guards.SentSince(g.sent, mailbox, since)| == |Tables.SentSince(db.outbounds, mailbox, since)|)
  }

  /** Every statement of one send, in order, by the sender `id`. */
  function Solo(id: Id, workspace: Id, mailbox: Id, toEmail: string, env: SendEnv): seq<Step> {
    [Begin(id, workspace, mailbox, toEmail), CheckSuppression(id), TryLock(id), ReadClock(id, env.checkedAt),
     CountToday(id), StampMessage(id, env.stampedAt), Deliver(id, env.provider.Success?), Commit(id)]
  }

  /** The whole of one send, unrolled: it runs to its commit exactly when no guard stops it. */
  lemma {:induction false} SoloRuns(
    c: Config, g: State, id: Id, workspace: Id, mailbox: Id, toEmail: string, env: SendEnv)
    requires id !in g.senders && env.checkedAt <= env.stampedAt
    ensures IsRun(c, g, Solo(id, workspace, mailbox, toEmail, env)) <==>
      && !Guards.IsSuppressed(g, workspace, toEmail)
      && c.key(mailbox) !in g.locks
      && |Guards.SentSince(g.sent, mailbox, StartOfUtcDay(env.checkedAt))| < c.cap(mailbox)
      && env.provider.Success?
    ensures IsRun(c, g, Solo(id, workspace, mailbox, toEmail, env)) ==>
      var after := Exec(c, g, Solo(id, workspace, mailbox, toEmail, env));
      after.sent == g.sent + [SentRow(workspace, mailbox, toEmail, env.stampedAt)] && after.suppressed == g.suppressed
  {
    var steps := Solo(id, workspace, mailbox, toEmail, env);
    var g1 := Next(c, g, steps[0]);
    Unroll(c, g, steps[0], steps[1..]);
    assert steps == [steps[0]] + steps[1..];
    SoloFromCheck(c, g1, id, steps[1..], env);
  }

  lemma {:induction false} SoloFromCheck(c: Config, g: State, id: Id, steps: seq<Step>, env: SendEnv)
    requires id in g.senders && g.senders[id].phase.Begun? && env.checkedAt <= env.stampedAt
    requires steps == [CheckSuppression(id), TryLock(id)] + FromClock(id, env)
    ensures var sender := g.senders[id];
      && (IsRun(c, g, steps) <==>
            && !Guards.IsSuppressed(g, sender.workspace, sender.toEmail)
            && c.key(sender.mailbox) !in g.locks
            && |Guards.SentSince(g.sent, sender.mailbox, StartOfUtcDay(env.checkedAt))| < c.cap(sender.mailbox)
            && env.provider.Success?)
      && (IsRun(c, g, steps) ==>
            && Exec(c, g, steps).sent ==
              g.sent + [SentRow(sender.workspace, sender.mailbox, sender.toEmail, env.stampedAt)]
            && Exec(c, g, steps).suppressed == g.suppressed)
  {
    var check, lock := CheckSuppression(id), TryLock(id);
    var g1 := Next(c, g, check);
    assert steps == [check] + ([lock] + FromClock(id, env));
    Unroll(c, g, check, [lock] + FromClock(id, env));
    Unroll(c, g1, lock, FromClock(id, env));
    if g1.senders[id].phase.Unsuppressed? {
      var g2 := Next(c, g1, lock);
      if g2.senders[id].phase.Locked? {
        SoloFromClock(c, g2, id, env);
      } else {
        NothingFromAborted(c, g2, id, env);
      }
    }
  }

  function FromClock(id: Id, env: SendEnv): seq<Step> {
    [ReadClock(id, env.checkedAt), CountToday(id), StampMessage(id, env.stampedAt),
     Deliver(id, env.provider.Success?), Commit(id)]
  }

  lemma {:induction false} NothingFromAborted(c: Config, g: State, id: Id, env: SendEnv)
    requires id in g.senders && g.senders[id].phase.Aborted?
    ensures !IsRun(c, g, FromClock(id, env))
  {
  }

  lemma {:induction false} SoloFromClock(c: Config, g: State, id: Id, env: SendEnv)
    requires id in g.senders && g.senders[id].phase.Locked? && env.checkedAt <= env.stampedAt
    ensures var sender := g.senders[id];
      && (IsRun(c, g, FromClock(id, env)) <==>
            && |Guards.SentSince(g.sent, sender.mailbox, StartOfUtcDay(env.checkedAt))| < c.cap(sender.mailbox)
            && env.provider.Success?)
      && (IsRun(c, g, FromClock(id, env)) ==>
            var after := Exec(c, g, FromClock(id, env));
            && after.sent == g.sent + [SentRow(sender.workspace, sender.mailbox, sender.toEmail, env.stampedAt)]
            && after.suppressed == g.suppressed)
  {
    var (read, count, stamp, deliver, commit) := (ReadClock(id, env.checkedAt), CountToday(id),
      StampMessage(id, env.stampedAt), Deliver(id, env.provider.Success?), Commit(id));
    assert FromClock(id, env) == [read] + ([count] + ([stamp] + ([deliver] + ([commit] + []))));
    var g1 := Next(c, g, read);
    var g2 := Next(c, g1, count);
    Unroll(c, g, read, [count] + ([stamp] + ([deliver] + ([commit] + []))));
    Unroll(c, g1, count, [stamp] + ([deliver] + ([commit] + [])));
    Unroll(c, g2, stamp, [deliver] + ([commit] + []));
    if g2.senders[id].phase.Counted? {
      var g3 := Next(c, g2, stamp);
      var g4 := Next(c, g3, deliver);
      Unroll(c, g3, deliver, [commit] + []);
      Unroll(c, g4, commit, []);
    }
  }

  lemma {:induction false} RowCounts(sent: seq<SentRow>, row: SentRow, mailbox: Id, since: Time)
    ensures |Guards.SentSince(sent + [row], mailbox, since)| ==
      |Guards.SentSince(sent, mailbox, since)| + if row.mailbox == mailbox && row.stamp >= since then 1 else 0
  {
    var (a, b) := (Guards.SentSince(sent, mailbox, since), Guards.SentSince(sent + [row], mailbox, since));
    assert b == if row.mailbox == mailbox && row.stamp >= since then a + {|sent|} else a;
  }

  lemma {:induction false} MessageCounts(
    outbounds: Messages, id: Id, message: Tables.Outbound, mailbox: Id, since: Time)
    requires id !in outbounds && message.providerMessageId.Some?
    ensures |Tables.SentSince(outbounds[id := message], mailbox, since)| ==
      |Tables.SentSince(outbounds, mailbox, since)| +
        if message.mailbox == mailbox && message.createdAt >= since then 1 else 0
  {
    var (a, b) :=
      (Tables.SentSince(outbounds, mailbox, since), Tables.SentSince(outbounds[id := message], mailbox, since));
    assert b == if message.mailbox == mailbox && message.createdAt >= since then a + {id} else a;
  }

  /**
   The atomic send succeeds exactly when the uninterrupted statements reach their commit, and the models still agree.
   */
  lemma {:induction false} SoloSendIsAtomicSend(
    c: Config, g: State, db: Tables.Db, id: Id, workspace: Id, toEmail: string, subject: string, body: string,
    env: SendEnv)
    requires Agrees(c, g, db) && id !in g.senders && db.nextId !in db.outbounds
    requires workspace in db.mailboxes && env.checkedAt <= env.stampedAt
    requires env.lockFree <==> c.key(db.mailboxes[workspace].id) !in g.locks
    ensures var steps := Solo(id, workspace, db.mailboxes[workspace].id, toEmail, env);
      var r := SendEmail(db, workspace, toEmail, subject, body, env);
      && (r.Success? <==> IsRun(c, g, steps))
      && (r.Success? ==> Agrees(c, Exec(c, g, steps), r.value.0))
  {
    var mailbox := db.mailboxes[workspace].id;
    var steps := Solo(id, workspace, mailbox, toEmail, env);
    SoloRuns(c, g, id, workspace, mailbox, toEmail, env);
    var r := SendEmail(db, workspace, toEmail, subject, body, env);
    if r.Success? {
      var (after, message) := r.value;
      var row := SentRow(workspace, mailbox, toEmail, env.stampedAt);
      assert Exec(c, g, steps).sent == g.sent + [row];
      assert after.outbounds == db.outbounds[db.nextId := message];
      forall m, since
        ensures |Guards.SentSince(g.sent + [row], m, since)| == |Tables.SentSince(after.outbounds, m, since)|
      {
        RowCounts(g.sent, row, m, since);
        MessageCounts(db.outbounds, db.nextId, message, m, since);
      }
    }
  }
}
