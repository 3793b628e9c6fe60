/** The guarded send, campaign or test: when it succeeds, what it stores, and how replies in its thread find it. */
module SendTheorems {
  import opened Base
  import opened Inbox
  import opened Invariant
  import opened Machine
  import opened MailTheorems
  import opened Matching
  import opened MatchingTheorems
  import opened OutcomeTheorems
  import opened ProcessKeeps
  import opened Reachable
  import opened Sending
  import opened Tables
  import Text

  /** Some spelling of the address has unsubscribed or bounced in this workspace. */
  predicate OnTheList(db: Db, workspace: Id, email: string) {
    exists key :: key in db.suppressions && key.workspace == workspace && key.email == Text.NormalizeEmail(email)
  }

  lemma {:induction false} ListSuppresses(db: Db, workspace: Id, email: string)
    ensures OnTheList(db, workspace, email) <==> IsSuppressed(db.suppressions, workspace, email)
  {
    var address := Text.NormalizeEmail(email);
    if key :| key in db.suppressions && key.workspace == workspace && key.email == address {
      assert key == Suppression(workspace, address, key.reason);
      assert key.reason.UnsubscribeRequest? || key.reason.HardBounce?;
    }
    if Suppression(workspace, address, UnsubscribeRequest) in db.suppressions {
      assert Suppression(workspace, address, UnsubscribeRequest).workspace == workspace;
    }
  }

  /** The messages of a mailbox that have left it since a moment. */
  function LeftSince(db: Db, mailbox: Id, since: Time): set<Id> {
    set o | o in db.outbounds && db.outbounds[o].mailbox == mailbox && db.outbounds[o].providerMessageId.Some?
            && since <= db.outbounds[o].createdAt
  }

  /** The guards, in their order, and what is stored when all let the message through. */
  lemma {:induction false} SendIsDecided(
    db: Db, workspace: Id, toEmail: string, subject: string, body: string, env: SendEnv)
    ensures var r := SendEmail(db, workspace, toEmail, subject, body, env);
      if workspace !in db.mailboxes then r == Failure(MailboxNotConfigured)
      else if OnTheList(db, workspace, toEmail) then r == Failure(RecipientSuppressed)
      else if !env.lockFree then r == Failure(MailboxBusy)
      else
        var (mailbox, today) := (db.mailboxes[workspace], StartOfUtcDay(env.checkedAt));
        if mailbox.dailySendCap <= |LeftSince(db, mailbox.id, today)| then
          r == Failure(DailySendCapReached(today + 86_400 * SECOND))
        else if env.provider.Failure? then r == Failure(ProviderError(env.provider.error))
        else
          var sent := Outbound(db.nextId, workspace, mailbox.id, toEmail, subject, body, env.messageId,
                               Some(env.provider.value.messageId), Some(env.provider.value.threadId), env.stampedAt);
          r == Success((db.(outbounds := db.outbounds[db.nextId := sent], nextId := db.nextId + 1), sent))
  {
    ListSuppresses(db, workspace, toEmail);
    if workspace in db.mailboxes {
      var (mailbox, today) := (db.mailboxes[workspace], StartOfUtcDay(env.checkedAt));
      assert LeftSince(db, mailbox.id, today) == SentSince(db.outbounds, mailbox.id, today);
    }
  }

  /** A send the machine has committed, from either side, with the provider's receipt. */
  ghost predicate Sends(s: Sys, op: Op, receipt: Receipt) {
    && Inv(s) && Enabled(s, op) && s.db.nextId in Apply(s, op).db.outbounds && s.db.nextId !in s.db.outbounds
    && ((op.SendTestEmail? && op.env.provider == Success(receipt))
        || (op.ProcessToken? && op.env.provider == Success(receipt)))
  }

  /** Whoever sends, the stored message carries both of the provider's identifiers. */
  lemma {:induction false} SentUnderTheReceipt(s: Sys, op: Op, receipt: Receipt)
    requires Sends(s, op, receipt)
    ensures var message := Apply(s, op).db.outbounds[s.db.nextId];
      && message.id == s.db.nextId && message.messageId == op.env.messageId
      && message.providerMessageId == Some(receipt.messageId) && message.providerThreadId == Some(receipt.threadId)
  {
    match op
    case SendTestEmail(workspace, toEmail, subject, body, env) =>
      SendIsDecided(s.db, workspace, toEmail, subject, body, env);
    case ProcessToken(job, index, byId, moment, env) =>
      assert JobRowOk(s, job);
      ClaimIsSettling(s, job, index, byId);
      var claim := ClaimInHand(s, job, index, byId);
      if claim.Some? && ProcessClaimed(s.db, claim.value, moment, env).Processed? {
        SettledClaimLeaves(s, job, index, claim.value, moment, env);
        OtherRowsSpared(s, claim.value, moment, env);
      }
  }

  /**
   After a message went out in a thread and after any run, a poll that lists it as unanswered matches a reply in that
   thread that names no candidate: it answers a message of the thread, the last one listed.
   */
  lemma {:induction false} ThreadIsAnswered(
    s: Sys, op: Op, receipt: Receipt, ops: seq<Op>, mailbox: Id, candidates: seq<Outbound>, reply: FetchedMessage)
    returns (k: nat)
    requires Sends(s, op, receipt) && IsRun(Apply(s, op), ops)
    requires IsUnansweredList(Exec(Apply(s, op), ops).db, mailbox, candidates)
    requires exists c :: c in candidates && c.id == s.db.nextId
    requires reply.providerThreadId == receipt.threadId && NamesNone(reply, candidates)
    ensures k < |candidates| && candidates[k].providerThreadId == Some(receipt.threadId)
    ensures MatchReply(reply, candidates) == Some(candidates[k])
    ensures forall j :: k < j < |candidates| ==> candidates[j].providerThreadId != Some(receipt.threadId)
  {
    var (t, u) := (Apply(s, op), Exec(Apply(s, op), ops));
    SentUnderTheReceipt(s, op, receipt);
    ApplyKeeps(s, op);
    ExecMail(t, ops);
    var c :| c in candidates && c.id == s.db.nextId;
    var i :| 0 <= i < |candidates| && candidates[i] == c;
    assert u.db.outbounds[candidates[i].id] == candidates[i];
    k := LastOfThread(candidates, i, receipt.threadId);
    AnswersInThread(reply, candidates, k);
  }

  lemma {:induction false} LastOfThread(candidates: seq<Outbound>, i: nat, thread: string) returns (k: nat)
    requires i < |candidates| && candidates[i].providerThreadId == Some(thread)
    ensures k < |candidates| && candidates[k].providerThreadId == Some(thread)
    ensures forall j :: k < j < |candidates| ==> candidates[j].providerThreadId != Some(thread)
    decreases |candidates| - i
  {
    if j :| i < j < |candidates| && candidates[j].providerThreadId == Some(thread) {
      k := LastOfThread(candidates, j, thread);
    } else {
      k := i;
    }
  }
}
