/** What a run may mail, and what it may forget. */
module MailTheorems {
  import opened Base
  import opened CampaignDomain
  import opened Invariant
  import opened Machine
  import opened PollKeeps
  import opened ProcessKeeps
  import opened Reachable
  import opened SendKeeps
  import opened SendQueue
  import opened Sending
  import opened Tables
  import Inbox
  import Replies
  import Text

  /** Rows of the messaging tables are only added. */
  ghost predicate MailEvolves(db: Db, after: Db) {
    && (forall o :: o in db.outbounds ==> o in after.outbounds && after.outbounds[o] == db.outbounds[o])
    && (forall i :: i in db.inbounds ==> i in after.inbounds && after.inbounds[i] == db.inbounds[i])
    && db.suppressions.Keys <= after.suppressions.Keys
    && db.events <= after.events
    && db.processed <= after.processed
    && (forall w :: w in db.mailboxes ==> w in after.mailboxes && after.mailboxes[w].id == db.mailboxes[w].id)
  }

  /** No message between the two states goes to an address that is suppressed in the first. */
  ghost predicate MailRespects(db: Db, after: Db) {
    forall o :: o in after.outbounds && o !in db.outbounds ==>
      !IsSuppressed(db.suppressions, after.outbounds[o].workspace, after.outbounds[o].toEmail)
  }

  lemma {:induction false} HandleAllLeavesMail(db: Db, batch: seq<OutboxEvent>, moment: Time)
    ensures var after := Replies.HandleAll(db, batch, moment);
      && after.outbounds == db.outbounds && after.inbounds == db.inbounds && after.suppressions == db.suppressions
      && after.events == db.events && after.mailboxes == db.mailboxes && after.campaigns == db.campaigns
      && after.nextId == db.nextId
      && forall id :: id in after.processed <==> id in db.processed || exists i :: 0 <= i < |batch| && batch[i].id == id
  {
    if batch != [] {
      var last := |batch| - 1;
      HandleAllLeavesMail(db, batch[..last], moment);
      var before, after := Replies.HandleAll(db, batch[..last], moment), Replies.HandleAll(db, batch, moment);
      assert after.processed == before.processed + {batch[last].id};
      forall id
        ensures id in after.processed <==> id in db.processed || exists i :: 0 <= i < |batch| && batch[i].id == id
      {
        if i :| 0 <= i < |batch| && batch[i].id == id {
          if i < last { assert batch[..last][i].id == id; }
        }
      }
    }
  }

  lemma {:induction false} SettledMail(s: Sys, claim: ClaimedSendJob, moment: Time, env: SendEnv)
    requires Inv(s) && ProcessClaimed(s.db, claim, moment, env).Processed?
    ensures var after := ProcessClaimed(s.db, claim, moment, env).db;
      MailEvolves(s.db, after) && MailRespects(s.db, after)
  {
    MessageIsNew(s);
    ProcessFrame(s.db, claim, moment, env);
  }

  lemma {:induction false} ProcessMail(s: Sys, j: Id, index: nat, byId: bool, moment: Time, env: SendEnv)
    requires Inv(s) && Enabled(s, ProcessToken(j, index, byId, moment, env))
    ensures var t := Apply(s, ProcessToken(j, index, byId, moment, env));
      MailEvolves(s.db, t.db) && MailRespects(s.db, t.db)
  {
    match ClaimInHand(s, j, index, byId)
    case None =>
    case Some(claim) =>
      if ProcessClaimed(s.db, claim, moment, env).Processed? { SettledMail(s, claim, moment, env); }
  }

  lemma {:induction false} ApplyMail(s: Sys, op: Op)
    requires Inv(s) && Enabled(s, op)
    ensures MailEvolves(s.db, Apply(s, op).db) && MailRespects(s.db, Apply(s, op).db)
  {
    match op
    case ProcessToken(job, index, byId, moment, env) => ProcessMail(s, job, index, byId, moment, env);
    case SendTestEmail(workspace, toEmail, subject, body, env) =>
      MessageIsNew(s);
      SendFrame(s.db, workspace, toEmail, subject, body, env);
    case PollInbox(workspace, candidates, inputs, cursor) =>
      UnansweredAreOk(s.db, s.db.mailboxes[workspace].id, candidates);
      PollAllAdds(Inbox.PollStart(s.db, candidates), workspace, s.db.mailboxes[workspace].id, inputs);
    case HandleReplies(workspace, batch, moment) => HandleAllLeavesMail(s.db, batch, moment);
    case _ => CommandsLeaveMessaging(s, op);
  }

  lemma {:induction false} MailTwice(a: Db, b: Db, c: Db)
    requires MailEvolves(a, b) && MailEvolves(b, c) && MailRespects(a, b) && MailRespects(b, c)
    ensures MailEvolves(a, c) && MailRespects(a, c)
  {
    forall o | o in c.outbounds && o !in a.outbounds
      ensures !IsSuppressed(a.suppressions, c.outbounds[o].workspace, c.outbounds[o].toEmail)
    {
      if o !in b.outbounds && IsSuppressed(a.suppressions, c.outbounds[o].workspace, c.outbounds[o].toEmail) {
        SuppressedStays(a.suppressions, b.suppressions, c.outbounds[o].workspace, c.outbounds[o].toEmail);
      }
    }
  }

  lemma {:induction false} ExecMail(s: Sys, ops: seq<Op>)
    requires Inv(s) && IsRun(s, ops)
    ensures MailEvolves(s.db, Exec(s, ops).db) && MailRespects(s.db, Exec(s, ops).db)
    decreases |ops|
  {
    if ops != [] {
      var t := Apply(s, ops[0]);
      ApplyMail(s, ops[0]);
      ApplyKeeps(s, ops[0]);
      ExecMail(t, ops[1..]);
      MailTwice(s.db, t.db, Exec(s, ops).db);
    }
  }

  /** Suppressing one spelling of an address suppresses every spelling that normalises the same. */
  lemma {:induction false} SuppressionIgnoresSpelling(
    suppressions: map<Suppression, Id>, workspace: Id, a: string, b: string)
    requires Text.NormalizeEmail(a) == Text.NormalizeEmail(b)
    ensures IsSuppressed(suppressions, workspace, a) <==> IsSuppressed(suppressions, workspace, b)
  {
  }

  /**
   Once a poll has stored an unsubscribe or a bounce, no later transaction of any run commits a message in that
   workspace to any spelling of the address, in any campaign, and whether or not the consumer has run.
   */
  lemma {:induction false} SuppressedAddressIsNeverMailed(s: Sys, ops: seq<Op>, i: Id, o: Id)
    requires Inv(s) && IsRun(s, ops)
    requires i in s.db.inbounds && s.db.inbounds[i].matched.Some?
    requires s.db.inbounds[i].intent in {Some(Unsubscribe), Some(Bounce)}
    requires o in Exec(s, ops).db.outbounds && o !in s.db.outbounds
    ensures s.db.inbounds[i].matched.value in s.db.outbounds
    ensures var message, original := Exec(s, ops).db.outbounds[o], s.db.outbounds[s.db.inbounds[i].matched.value];
      message.workspace == s.db.inbounds[i].workspace ==>
        Text.NormalizeEmail(message.toEmail) != Text.NormalizeEmail(original.toEmail)
  {
    ExecMail(s, ops);
    assert InboundRowOk(s.db, i) && SuppressionOk(s.db, i);
    var message, original := Exec(s, ops).db.outbounds[o], s.db.outbounds[s.db.inbounds[i].matched.value];
    if Text.NormalizeEmail(message.toEmail) == Text.NormalizeEmail(original.toEmail) {
      SuppressionIgnoresSpelling(s.db.suppressions, s.db.inbounds[i].workspace, message.toEmail, original.toEmail);
    }
  }

  /** An acknowledged event is never in the feed again. */
  lemma {:induction false} AcknowledgedForever(s: Sys, ops: seq<Op>, workspace: Id, event: OutboxEvent)
    requires Inv(s) && IsRun(s, ops) && event.id in s.db.processed
    ensures !Replies.InFeed(Exec(s, ops).db, workspace, event)
  {
    ExecMail(s, ops);
  }

  // ---------- Replays ----------

  lemma {:induction false} PollStores(
    s: Sys, workspace: Id, candidates: seq<Outbound>, inputs: seq<Inbox.PollInput>, cursor: string)
    requires Inv(s) && Enabled(s, PollInbox(workspace, candidates, inputs, cursor))
    ensures var t := Apply(s, PollInbox(workspace, candidates, inputs, cursor));
      AllKnown(t.db.inbounds, s.db.mailboxes[workspace].id, inputs)
  {
    UnansweredAreOk(s.db, s.db.mailboxes[workspace].id, candidates);
    PollStoresAll(Inbox.PollStart(s.db, candidates), workspace, s.db.mailboxes[workspace].id, inputs);
  }

  /**
   After a poll and any run of operations, polling messages of the first poll again, in any order and with whatever is
   unanswered by then, counts nothing and moves nothing but the cursor.
   */
  lemma {:induction false} ReplayIsInertForever(
    s: Sys, workspace: Id, candidates: seq<Outbound>, inputs: seq<Inbox.PollInput>, cursor: string,
    ops: seq<Op>, again: seq<Outbound>, replayed: seq<Inbox.PollInput>, newCursor: string)
    requires Inv(s) && Enabled(s, PollInbox(workspace, candidates, inputs, cursor))
    requires IsRun(Apply(s, PollInbox(workspace, candidates, inputs, cursor)), ops)
    requires forall i :: 0 <= i < |replayed| ==> Fetched(inputs, replayed[i].fetched.providerMessageId)
    ensures var t := Exec(Apply(s, PollInbox(workspace, candidates, inputs, cursor)), ops);
      && workspace in t.db.mailboxes
      && var (after, result) :=
          Inbox.Poll(t.db, workspace, t.db.mailboxes[workspace].id, again, replayed, newCursor);
        && result == Inbox.PollResult(0, [])
        && var moved := t.db.mailboxes[workspace].(cursor := Some(newCursor));
          after == t.db.(mailboxes := t.db.mailboxes[workspace := moved])
  {
    var op := PollInbox(workspace, candidates, inputs, cursor);
    var once, t := Apply(s, op), Exec(Apply(s, op), ops);
    var mailbox := s.db.mailboxes[workspace].id;
    PollStores(s, workspace, candidates, inputs, cursor);
    ApplyKeeps(s, op);
    ApplyMail(s, op);
    ExecMail(once, ops);
    forall i | 0 <= i < |replayed| ensures Inbox.Known(t.db.inbounds, mailbox, replayed[i].fetched.providerMessageId) {
      FetchedIsKnown(once.db.inbounds, mailbox, inputs, replayed[i].fetched.providerMessageId);
      KnownStays(once.db.inbounds, t.db.inbounds, mailbox, replayed[i].fetched.providerMessageId);
    }
    ReplayChangesNothing(Inbox.PollStart(t.db, again), workspace, mailbox, replayed);
  }

  /** Over any run, replays included: one row per fetched message, one match per sent message, one event per row. */
  lemma {:induction false} PollsCountOnce(s: Sys, ops: seq<Op>)
    requires Inv(s) && IsRun(s, ops)
    ensures var db := Exec(s, ops).db;
      && MatchesUnique(db.inbounds) && MessagesUnique(db.inbounds) && EventsMirrorRows(db)
      && (forall i :: i in db.inbounds ==> (db.inbounds[i].intent.Some? <==> db.inbounds[i].matched.Some?))
      && (forall i :: i in s.db.inbounds ==> i in db.inbounds && db.inbounds[i] == s.db.inbounds[i])
  {
    ExecKeeps(s, ops);
    ExecMail(s, ops);
    forall i | i in Exec(s, ops).db.inbounds
      ensures Exec(s, ops).db.inbounds[i].intent.Some? <==> Exec(s, ops).db.inbounds[i].matched.Some?
    {
      assert InboundRowOk(Exec(s, ops).db, i);
    }
  }
}
