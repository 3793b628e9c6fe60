/** One inbox poll: deduplicate, match, classify, suppress, and write the outbox, in one transaction. */
module Inbox {
  import opened Base
  import opened CampaignDomain
  import opened Matching
  import opened Tables
  import Text

  const CANDIDATE_LIMIT := 100
  const REPLY_CLASSIFIED_VERSION := 2

  /** A fetched message, what the classifier would say of it, and the time it is handled. */
  datatype PollInput = PollInput(fetched: FetchedMessage, verdict: Intent, at: Time)

  datatype PollResult = PollResult(processed: nat, classified: seq<Intent>)

  /** The loop variables of a poll together with the tables it writes. */
  datatype PollState = PollState(db: Db, candidates: seq<Outbound>, result: PollResult)

  predicate Known(inbounds: map<Id, Inbound>, mailbox: Id, providerMessageId: string) {
    exists id ::
      id in inbounds && inbounds[id].mailbox == mailbox && inbounds[id].providerMessageId == providerMessageId
  }

  ghost predicate Answered(inbounds: map<Id, Inbound>, outbound: Id) {
    exists id :: id in inbounds && inbounds[id].matched == Some(outbound)
  }

  ghost predicate Unanswered(db: Db, mailbox: Id, outbound: Id) {
    && outbound in db.outbounds
    && db.outbounds[outbound].mailbox == mailbox
    && db.outbounds[outbound].providerMessageId.Some?
    && !Answered(db.inbounds, outbound)
  }

  /** The unanswered messages of a mailbox, newest first; only the limit leaves any out, and only older ones. */
  ghost predicate IsUnansweredList(db: Db, mailbox: Id, candidates: seq<Outbound>) {
    && |candidates| <= CANDIDATE_LIMIT
    && (forall i :: 0 <= i < |candidates| ==>
          Unanswered(db, mailbox, candidates[i].id) && db.outbounds[candidates[i].id] == candidates[i])
    && (forall i, j :: 0 <= i < j < |candidates| ==>
          candidates[i].id != candidates[j].id && candidates[i].createdAt >= candidates[j].createdAt)
    && (forall id :: Unanswered(db, mailbox, id) && db.outbounds[id] !in candidates ==>
          && |candidates| == CANDIDATE_LIMIT
          && forall i :: 0 <= i < |candidates| ==> candidates[i].createdAt >= db.outbounds[id].createdAt)
  }

  function Without(candidates: seq<Outbound>, id: Id): seq<Outbound> {
    if candidates == [] then []
    else
      var last := candidates[|candidates| - 1];
      Without(candidates[..|candidates| - 1], id) + if last.id == id then [] else [last]
  }

  function NewInbound(id: Id, workspace: Id, mailbox: Id, input: PollInput): Inbound {
    var f := input.fetched;
    Inbound(id, workspace, mailbox, f.providerMessageId, f.providerThreadId, f.fromEmail, f.subject, f.snippet,
            f.inReplyTo, f.references, None, None, f.receivedAt, input.at)
  }

  function IntentOf(input: PollInput): Intent {
    if input.fetched.isBounce then Bounce else input.verdict
  }

  function SuppressionFor(intent: Intent): Option<SuppressionReason> {
    match intent
    case Unsubscribe => Some(UnsubscribeRequest)
    case Bounce => Some(HardBounce)
    case _ => None
  }

  /** Inserting a suppression row; an existing row is kept. */
  function AddSuppression(suppressions: map<Suppression, Id>, key: Suppression, source: Id): map<Suppression, Id> {
    if key in suppressions then suppressions else suppressions[key := source]
  }

  function Suppress(suppressions: map<Suppression, Id>, workspace: Id, email: string, intent: Intent, source: Id)
    : map<Suppression, Id>
  {
    match SuppressionFor(intent)
    case None => suppressions
    case Some(reason) =>
      AddSuppression(suppressions, Suppression(workspace, Text.NormalizeEmail(email), reason), source)
  }

  function Received(id: Id, inbound: Inbound, at: Time): OutboxEvent {
    OutboxEvent(id, inbound.workspace, InboundReceived, inbound.id, 1, None, Unclear, at)
  }

  function Matched(id: Id, inbound: Inbound, outbound: Id, at: Time): OutboxEvent {
    OutboxEvent(id, inbound.workspace, ReplyMatched, inbound.id, 1, Some(outbound), Unclear, at)
  }

  function Classified(id: Id, inbound: Inbound, outbound: Id, intent: Intent, at: Time): OutboxEvent {
    OutboxEvent(
      id, inbound.workspace, ReplyClassified, inbound.id, REPLY_CLASSIFIED_VERSION, Some(outbound), intent, at)
  }

  /** The tables after a new message that answers nothing. */
  function StoreUnmatched(db: Db, workspace: Id, mailbox: Id, input: PollInput): Db {
    var inbound := NewInbound(db.nextId, workspace, mailbox, input);
    db.(inbounds := db.inbounds[inbound.id := inbound],
        events := db.events + [Received(db.nextId + 1, inbound, input.at)],
        nextId := db.nextId + 2)
  }

  /** The tables after a new message that answers `matched`. */
  function StoreMatched(db: Db, workspace: Id, mailbox: Id, input: PollInput, matched: Outbound): Db {
    var intent := IntentOf(input);
    var received := NewInbound(db.nextId, workspace, mailbox, input);
    var inbound := received.(matched := Some(matched.id), intent := Some(intent));
    db.(inbounds := db.inbounds[inbound.id := inbound],
        suppressions := Suppress(db.suppressions, workspace, matched.toEmail, intent, inbound.id),
        events := db.events + [Received(db.nextId + 1, received, input.at),
                               Matched(db.nextId + 2, received, matched.id, input.at),
                               Classified(db.nextId + 3, received, matched.id, intent, input.at)],
        nextId := db.nextId + 4)
  }

  function PollOne(st: PollState, workspace: Id, mailbox: Id, input: PollInput): PollState {
    if Known(st.db.inbounds, mailbox, input.fetched.providerMessageId) then st
    else
      match MatchReply(input.fetched, st.candidates)
      case None =>
        PollState(StoreUnmatched(st.db, workspace, mailbox, input), st.candidates,
                  PollResult(st.result.processed + 1, st.result.classified))
      case Some(matched) =>
        PollState(StoreMatched(st.db, workspace, mailbox, input, matched), Without(st.candidates, matched.id),
                  PollResult(st.result.processed + 1, st.result.classified + [IntentOf(input)]))
  }

  function PollAll(st: PollState, workspace: Id, mailbox: Id, inputs: seq<PollInput>): PollState {
    if inputs == [] then st
    else
      var last := |inputs| - 1;
      PollOne(PollAll(st, workspace, mailbox, inputs[..last]), workspace, mailbox, inputs[last])
  }

  function PollStart(db: Db, candidates: seq<Outbound>): PollState {
    PollState(db, candidates, PollResult(0, []))
  }

  function AdvanceCursor(mailboxes: map<Id, Mailbox>, workspace: Id, cursor: string): map<Id, Mailbox> {
    if workspace in mailboxes then mailboxes[workspace := mailboxes[workspace].(cursor := Some(cursor))] else mailboxes
  }

  function Poll(db: Db, workspace: Id, mailbox: Id, candidates: seq<Outbound>, inputs: seq<PollInput>, cursor: string)
    : (Db, PollResult)
  {
    var done := PollAll(PollStart(db, candidates), workspace, mailbox, inputs);
    (done.db.(mailboxes := AdvanceCursor(done.db.mailboxes, workspace, cursor)), done.result)
  }
}
