/** The messaging handlers, statement by statement, against the transitions they commit. */
module MessagingHandlers {
  import opened Base
  import opened CampaignDomain
  import opened Repositories
  import opened Sending
  import opened Tables
  import Inbox
  import Matching
  import Text

  class MailboxGateway {
    const session: Session

    constructor (session: Session)
      ensures this.session == session
    {
      this.session := session;
    }

    method GetByWorkspace(workspace: Id) returns (mailbox: Option<Mailbox>)
      ensures mailbox ==
        if workspace in session.tables.mailboxes then Some(session.tables.mailboxes[workspace]) else None
    {
      mailbox := if workspace in session.tables.mailboxes then Some(session.tables.mailboxes[workspace]) else None;
    }

    /** A workspace without a mailbox is an error. */
    method AdvanceCursor(workspace: Id, cursor: string) returns (found: bool)
      modifies session
      ensures found == (workspace in old(session.tables).mailboxes)
      ensures !found ==> session.tables == old(session.tables)
      ensures found ==>
        var before := old(session.tables).mailboxes;
        session.tables ==
          old(session.tables).(mailboxes := before[workspace := before[workspace].(cursor := Some(cursor))])
    {
      found := workspace in session.tables.mailboxes;
      if found {
        var mailbox := session.tables.mailboxes[workspace].(cursor := Some(cursor));
        session.tables := session.tables.(mailboxes := session.tables.mailboxes[workspace := mailbox]);
      }
    }
  }

  // ---------- Sending ----------

  /** The row a failed delivery leaves behind, for the savepoint to take back. */
  function WithUnsent(db: Db, message: Outbound): Db {
    db.(outbounds := db.outbounds[message.id := message], nextId := db.nextId + 1)
  }

  class SendEmailHandler {
    const session: Session
    const gateway: MailboxGateway
    const outbounds: OutboundMessageRepository
    const suppressions: SuppressionRepository

    predicate Valid() {
      gateway.session == session && outbounds.session == session && suppressions.session == session
    }

    constructor (session: Session)
      ensures this.session == session && Valid()
    {
      this.session := session;
      gateway := new MailboxGateway(session);
      outbounds := new OutboundMessageRepository(session);
      suppressions := new SuppressionRepository(session);
    }

    /** The guards in order: mailbox, suppression, lock, cap; then the row, the delivery and its mark. */
    method Execute(workspace: Id, toEmail: string, subject: string, body: string, env: SendEnv)
      returns (r: Result<Outbound, SendError>)
      requires Valid()
      modifies session
      ensures var spec := SendEmail(old(session.tables), workspace, toEmail, subject, body, env);
        match r
        case Success(message) => spec == Success((session.tables, message))
        case Failure(error) => spec == Failure(error)
      ensures r.Success? ==>
        var before := old(session.tables);
        && workspace in before.mailboxes && env.provider.Success?
        && r.value == Outbound(
             before.nextId, workspace, before.mailboxes[workspace].id, toEmail, subject, body, env.messageId,
             Some(env.provider.value.messageId), Some(env.provider.value.threadId), env.stampedAt)
        && session.tables ==
             before.(outbounds := before.outbounds[before.nextId := r.value], nextId := before.nextId + 1)
      ensures r.Failure? && !r.error.ProviderError? ==> session.tables == old(session.tables)
      ensures r.Failure? && r.error.ProviderError? ==>
        var before := old(session.tables);
        && workspace in before.mailboxes
        && session.tables ==
             WithUnsent(
               before,
               NewOutbound(before.nextId, workspace, before.mailboxes[workspace].id, toEmail, subject, body, env))
    {
      var found := gateway.GetByWorkspace(workspace);
      if found.None? { return Failure(MailboxNotConfigured); }
      var mailbox := found.value;
      var suppressed := suppressions.IsSuppressed(workspace, toEmail);
      if suppressed { return Failure(RecipientSuppressed); }
      if !env.lockFree { return Failure(MailboxBusy); }
      var dayStart := StartOfUtcDay(env.checkedAt);
      var sentToday := outbounds.CountSentSince(mailbox.id, dayStart);
      if sentToday >= mailbox.dailySendCap { return Failure(DailySendCapReached(dayStart + DAY)); }

      var message := NewOutbound(session.tables.nextId, workspace, mailbox.id, toEmail, subject, body, env);
      session.tables := session.tables.(nextId := session.tables.nextId + 1);
      outbounds.Add(message);

      if env.provider.Failure? { return Failure(ProviderError(env.provider.error)); }
      var delivered := Delivered(message, env.provider.value);
      outbounds.MarkSent(delivered);
      assert session.tables.outbounds == old(session.tables).outbounds[message.id := delivered];
      return Success(delivered);
    }
  }

  class EmailDispatch {
    const session: Session
    const handler: SendEmailHandler

    predicate Valid() {
      handler.session == session && handler.Valid()
    }

    constructor (session: Session)
      ensures this.session == session && Valid()
    {
      this.session := session;
      handler := new SendEmailHandler(session);
    }

    /** A failed send is rolled back to the savepoint and told apart by its error. */
    method Dispatch(workspace: Id, toEmail: string, subject: string, body: string, env: SendEnv)
      returns (result: DispatchResult)
      requires Valid()
      modifies session
      ensures (session.tables, result) == Sending.Dispatch(old(session.tables), workspace, toEmail, subject, body, env)
    {
      var savepoint := session.tables;
      var sent := handler.Execute(workspace, toEmail, subject, body, env);
      if sent.Failure? { session.tables := savepoint; }
      match sent
      case Success(message) => return DispatchSent(message.id, message.createdAt);
      case Failure(RecipientSuppressed) => return DispatchSuppressed;
      case Failure(MailboxBusy) => return DispatchDeferred(env.checkedAt + BUSY_MAILBOX_RETRY_DELAY, "mailbox busy");
      case Failure(DailySendCapReached(retryAt)) => return DispatchDeferred(retryAt, "daily send cap reached");
      case Failure(MailboxNotConfigured) => return DispatchFailed("mailbox not configured");
      case Failure(ProviderError(error)) => return DispatchFailed(error);
    }
  }

  // ---------- Polling ----------

  class OutboxWriter {
    const session: Session

    constructor (session: Session)
      ensures this.session == session
    {
      this.session := session;
    }

    method Record(kind: EventKind, version: nat, inbound: Inbound, matched: Option<Id>, intent: Intent, at: Time)
      modifies session
      ensures var before := old(session.tables);
        session.tables == before.(
          events := before.events +
            [OutboxEvent(before.nextId, inbound.workspace, kind, inbound.id, version, matched, intent, at)],
          nextId := before.nextId + 1)
    {
      var event :=
        OutboxEvent(session.tables.nextId, inbound.workspace, kind, inbound.id, version, matched, intent, at);
      session.tables := session.tables.(events := session.tables.events + [event], nextId := session.tables.nextId + 1);
    }
  }

  class PollInboxHandler {
    const session: Session
    const gateway: MailboxGateway
    const outbounds: OutboundMessageRepository
    const inbounds: InboundMessageRepository
    const outbox: OutboxWriter
    const suppressions: SuppressionRepository

    predicate Valid() {
      && gateway.session == session && outbounds.session == session && inbounds.session == session
      && outbox.session == session && suppressions.session == session
    }

    constructor (session: Session)
      ensures this.session == session && Valid()
    {
      this.session := session;
      gateway := new MailboxGateway(session);
      outbounds := new OutboundMessageRepository(session);
      inbounds := new InboundMessageRepository(session);
      outbox := new OutboxWriter(session);
      suppressions := new SuppressionRepository(session);
    }

    /** A new message that answers nothing: its row and one event. */
    method Receive(workspace: Id, mailbox: Id, input: Inbox.PollInput) returns (inbound: Inbound)
      requires Valid()
      modifies session
      ensures inbound == Inbox.NewInbound(old(session.tables).nextId, workspace, mailbox, input)
      ensures session.tables == Inbox.StoreUnmatched(old(session.tables), workspace, mailbox, input)
    {
      inbound := Inbox.NewInbound(session.tables.nextId, workspace, mailbox, input);
      session.tables := session.tables.(nextId := session.tables.nextId + 1);
      inbounds.Add(inbound);
      outbox.Record(InboundReceived, 1, inbound, None, Unclear, input.at);
    }

    /** The rest of what a match writes: the match, the intent, the suppression and two events. */
    method Match(
      workspace: Id, mailbox: Id, input: Inbox.PollInput, inbound: Inbound, matched: Outbound, ghost before: Db)
      returns (intent: Intent)
      requires Valid()
      requires inbound == Inbox.NewInbound(before.nextId, workspace, mailbox, input)
      requires session.tables == Inbox.StoreUnmatched(before, workspace, mailbox, input)
      modifies session
      ensures intent == Inbox.IntentOf(input)
      ensures session.tables == Inbox.StoreMatched(before, workspace, mailbox, input, matched)
    {
      outbox.Record(ReplyMatched, 1, inbound, Some(matched.id), Unclear, input.at);
      intent := Inbox.IntentOf(input);
      Classify(workspace, inbound, matched, intent);
      outbox.Record(ReplyClassified, Inbox.REPLY_CLASSIFIED_VERSION, inbound, Some(matched.id), intent, input.at);
      var row := inbound.(matched := Some(matched.id), intent := Some(intent));
      assert session.tables.inbounds == before.inbounds[inbound.id := row];
    }

    /** The row's match and intent, and the suppression an unsubscribe or a bounce calls for. */
    method Classify(workspace: Id, inbound: Inbound, matched: Outbound, intent: Intent)
      requires Valid() && inbound.id in session.tables.inbounds && session.tables.inbounds[inbound.id] == inbound
      modifies session
      ensures var before := old(session.tables);
        session.tables == before.(
          inbounds := before.inbounds[inbound.id := inbound.(matched := Some(matched.id), intent := Some(intent))],
          suppressions := Inbox.Suppress(before.suppressions, workspace, matched.toEmail, intent, inbound.id))
    {
      inbounds.Update(inbound.(matched := Some(matched.id), intent := Some(intent)));
      var reason := Inbox.SuppressionFor(intent);
      if reason.Some? {
        suppressions.Add(Suppression(workspace, Text.NormalizeEmail(matched.toEmail), reason.value), inbound.id);
      }
    }

    /** Without a mailbox the poll raises and is rolled back. */
    method RunOnce(workspace: Id, mailbox: Id, inputs: seq<Inbox.PollInput>, cursor: string)
      returns (r: Option<Inbox.PollResult>, ghost candidates: seq<Outbound>)
      requires Valid() && PrimaryKeys(session.tables)
      modifies session
      ensures r.Some? <==> workspace in old(session.tables).mailboxes
      ensures Inbox.IsUnansweredList(old(session.tables), mailbox, candidates)
      ensures r.Some? ==>
        (session.tables, r.value) == Inbox.Poll(old(session.tables), workspace, mailbox, candidates, inputs, cursor)
      ensures r.Some? ==>
        var before := old(session.tables).mailboxes;
        session.tables.mailboxes == before[workspace := before[workspace].(cursor := Some(cursor))]
    {
      ghost var before := session.tables;
      var listed := outbounds.ListUnanswered(mailbox);
      candidates := listed;
      var processed: nat := 0;
      var classified: seq<Intent> := [];
      for n := 0 to |inputs|
        invariant Inbox.PollState(session.tables, listed, Inbox.PollResult(processed, classified)) ==
          Inbox.PollAll(Inbox.PollStart(before, candidates), workspace, mailbox, inputs[..n])
        invariant session.tables.mailboxes == before.mailboxes
      {
        assert inputs[..n + 1][..n] == inputs[..n];
        var input := inputs[n];
        var known := inbounds.Exists(mailbox, input.fetched.providerMessageId);
        if known { continue; }
        ghost var soFar := session.tables;
        var inbound := Receive(workspace, mailbox, input);
        var matched := Matching.FindMatch(input.fetched, listed);
        if matched.Some? {
          listed := Inbox.Without(listed, matched.value.id);
          var intent := Match(workspace, mailbox, input, inbound, matched.value, soFar);
          classified := classified + [intent];
        }
        processed := processed + 1;
      }
      assert inputs[..|inputs|] == inputs;
      var found := gateway.AdvanceCursor(workspace, cursor);
      r := if found then Some(Inbox.PollResult(processed, classified)) else None;
    }
  }
}
