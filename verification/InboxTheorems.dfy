/** What a poll leaves in every table, message by message and as a whole, and the cursor over runs. */
module InboxTheorems {
  import opened Base
  import opened CampaignDomain
  import opened Inbox
  import opened Invariant
  import opened MailTheorems
  import opened Machine
  import opened Matching
  import opened PollKeeps
  import opened ProcessKeeps
  import opened Reachable
  import opened SendKeeps
  import opened Tables
  import Text

  // ---------- One message ----------

  /** A message of this mailbox under this provider identifier is stored already. */
  ghost predicate Seen(inbounds: map<Id, Inbound>, mailbox: Id, id: string) {
    exists i :: i in inbounds && inbounds[i].mailbox == mailbox && inbounds[i].providerMessageId == id
  }

  /** A bounce is one whatever the classifier says. */
  function IntentFor(input: PollInput): Intent {
    if input.fetched.isBounce then Bounce else input.verdict
  }

  /** The row of a fetched message, with what it answers. */
  function RowFor(id: Id, workspace: Id, mailbox: Id, input: PollInput, answered: Option<Id>): Inbound {
    var f := input.fetched;
    Inbound(id, workspace, mailbox, f.providerMessageId, f.providerThreadId, f.fromEmail, f.subject, f.snippet,
            f.inReplyTo, f.references, answered, if answered.None? then None else Some(IntentFor(input)),
            f.receivedAt, input.at)
  }

  /** The events that report it: received, and, if it answers a message, matched and classified. */
  function EventsFor(n: Id, workspace: Id, input: PollInput, answered: Option<Id>): seq<OutboxEvent> {
    [OutboxEvent(n + 1, workspace, InboundReceived, n, 1, None, Unclear, input.at)] +
    if answered.None? then []
    else [OutboxEvent(n + 2, workspace, ReplyMatched, n, 1, answered, Unclear, input.at),
          OutboxEvent(n + 3, workspace, ReplyClassified, n, 2, answered, IntentFor(input), input.at)]
  }

  /** The suppressions afterwards: those there were, and one for the recipient of an unsubscribe or a bounce. */
  ghost predicate SuppressesFor(
    before: map<Suppression, Id>, after: map<Suppression, Id>, workspace: Id, input: PollInput, a: Option<Outbound>,
    source: Id)
  {
    && (forall key :: key in before ==> key in after && after[key] == before[key])
    && (forall key :: key in after && key !in before ==>
          && a.Some? && after[key] == source
          && key.workspace == workspace && key.email == Text.NormalizeEmail(a.value.toEmail)
          && (if key.reason.UnsubscribeRequest? then IntentFor(input) == Unsubscribe else IntentFor(input) == Bounce))
    && (a.Some? && IntentFor(input) == Unsubscribe ==>
          Suppression(workspace, Text.NormalizeEmail(a.value.toEmail), UnsubscribeRequest) in after)
    && (a.Some? && IntentFor(input) == Bounce ==>
          Suppression(workspace, Text.NormalizeEmail(a.value.toEmail), HardBounce) in after)
  }

  function IdOf(a: Option<Outbound>): Option<Id> {
    if a.None? then None else Some(a.value.id)
  }

  /** A new message, in every table it is written to. */
  ghost predicate StoredAs(st: PollState, workspace: Id, mailbox: Id, input: PollInput, after: PollState) {
    var (n, a) := (st.db.nextId, MatchReply(input.fetched, st.candidates));
    && after.db == st.db.(
         inbounds := st.db.inbounds[n := RowFor(n, workspace, mailbox, input, IdOf(a))],
         suppressions := after.db.suppressions,
         events := st.db.events + EventsFor(n, workspace, input, IdOf(a)),
         nextId := n + if a.None? then 2 else 4)
    && SuppressesFor(st.db.suppressions, after.db.suppressions, workspace, input, a, n)
    && after.candidates == (if a.None? then st.candidates else Without(st.candidates, a.value.id))
    && after.result.processed == st.result.processed + 1
    && after.result.classified == st.result.classified + (if a.None? then [] else [IntentFor(input)])
  }

  /** A message that is stored already changes nothing; a new one is stored with all that follows from it. */
  lemma {:induction false} EachMessageIsStoredOnce(st: PollState, workspace: Id, mailbox: Id, input: PollInput)
    ensures var after := PollOne(st, workspace, mailbox, input);
      if Seen(st.db.inbounds, mailbox, input.fetched.providerMessageId) then after == st
      else StoredAs(st, workspace, mailbox, input, after)
  {
    SeenIsKnown(st.db.inbounds, mailbox, input.fetched.providerMessageId);
    if !Seen(st.db.inbounds, mailbox, input.fetched.providerMessageId) {
      match MatchReply(input.fetched, st.candidates)
      case None => UnmatchedIsStored(st, workspace, mailbox, input);
      case Some(a) => MatchedIsStored(st, workspace, mailbox, input, a);
    }
  }

  lemma {:induction false} SeenIsKnown(inbounds: map<Id, Inbound>, mailbox: Id, id: string)
    ensures Seen(inbounds, mailbox, id) <==> Known(inbounds, mailbox, id)
  {
  }

  lemma {:induction false} UnmatchedIsStored(st: PollState, workspace: Id, mailbox: Id, input: PollInput)
    requires !Known(st.db.inbounds, mailbox, input.fetched.providerMessageId)
    requires MatchReply(input.fetched, st.candidates).None?
    ensures StoredAs(st, workspace, mailbox, input, PollOne(st, workspace, mailbox, input))
  {
  }

  lemma {:induction false} MatchedIsStored(st: PollState, workspace: Id, mailbox: Id, input: PollInput, a: Outbound)
    requires !Known(st.db.inbounds, mailbox, input.fetched.providerMessageId)
    requires MatchReply(input.fetched, st.candidates) == Some(a)
    ensures StoredAs(st, workspace, mailbox, input, PollOne(st, workspace, mailbox, input))
  {
    SuppressionsOf(st.db.suppressions, workspace, input, a, st.db.nextId);
  }

  lemma {:induction false} SuppressionsOf(
    suppressions: map<Suppression, Id>, workspace: Id, input: PollInput, a: Outbound, source: Id)
    ensures SuppressesFor(suppressions, Suppress(suppressions, workspace, a.toEmail, IntentOf(input), source),
                          workspace, input, Some(a), source)
  {
  }

  /** A message that has been answered is no candidate any more; the others stay, in their order. */
  lemma {:induction false} AnsweredIsTakenOut(candidates: seq<Outbound>, k: nat)
    requires k < |candidates| && forall i, j :: 0 <= i < j < |candidates| ==> candidates[i].id != candidates[j].id
    ensures Without(candidates, candidates[k].id) == candidates[..k] + candidates[k + 1..]
  {
    var last := |candidates| - 1;
    assert candidates == candidates[..last] + [candidates[last]];
    if k < last {
      AnsweredIsTakenOut(candidates[..last], k);
      assert candidates[..last][..k] + candidates[..last][k + 1..] + [candidates[last]] ==
        candidates[..k] + candidates[k + 1..];
    } else {
      WithoutAbsent(candidates[..last], candidates[k].id);
      assert candidates[..k] + candidates[k + 1..] == candidates[..last];
    }
  }

  lemma {:induction false} WithoutAbsent(candidates: seq<Outbound>, id: Id)
    requires forall i :: 0 <= i < |candidates| ==> candidates[i].id != id
    ensures Without(candidates, id) == candidates
  {
    if candidates != [] {
      var last := |candidates| - 1;
      WithoutAbsent(candidates[..last], id);
      assert candidates == candidates[..last] + [candidates[last]];
    }
  }

  // ---------- A whole poll ----------

  /** The first time a message that is not stored yet is fetched. */
  ghost predicate Fresh(inbounds: map<Id, Inbound>, mailbox: Id, inputs: seq<PollInput>, i: nat)
    requires i < |inputs|
  {
    && !Seen(inbounds, mailbox, inputs[i].fetched.providerMessageId)
    && forall k :: 0 <= k < i ==> inputs[k].fetched.providerMessageId != inputs[i].fetched.providerMessageId
  }

  /** The intents of those rows that answer a message, in order. */
  function IntentsOf(inbounds: map<Id, Inbound>, ids: seq<Id>): seq<Intent>
    requires forall k :: 0 <= k < |ids| ==> ids[k] in inbounds
  {
    if ids == [] then []
    else
      var last := |ids| - 1;
      var row := inbounds[ids[last]];
      IntentsOf(inbounds, ids[..last]) + if row.matched.Some? && row.intent.Some? then [row.intent.value] else []
  }

  /** `places` are where the fresh messages stand, in order. */
  ghost predicate Places(inbounds: map<Id, Inbound>, mailbox: Id, inputs: seq<PollInput>, places: seq<nat>) {
    && (forall k, l :: 0 <= k < l < |places| ==> places[k] < places[l])
    && (forall k :: 0 <= k < |places| ==> places[k] < |inputs| && Fresh(inbounds, mailbox, inputs, places[k]))
    && (forall i :: 0 <= i < |inputs| && Fresh(inbounds, mailbox, inputs, i) ==> i in places)
  }

  /** One new row for each of these places, under growing identifiers; the old rows stay, and there are no others. */
  ghost predicate RowsFor(
    before: map<Id, Inbound>, after: map<Id, Inbound>, first: Id, workspace: Id, mailbox: Id, inputs: seq<PollInput>,
    places: seq<nat>, ids: seq<Id>)
  {
    && |ids| == |places|
    && (forall k, l :: 0 <= k < l < |ids| ==> ids[k] < ids[l])
    && (forall k :: 0 <= k < |ids| ==>
          && first <= ids[k] && places[k] < |inputs| && ids[k] in after
          && after[ids[k]] == RowFor(ids[k], workspace, mailbox, inputs[places[k]], after[ids[k]].matched))
    && (forall i :: i in before ==> i in after && after[i] == before[i])
    && (forall i :: i in after ==> i in before || i in ids)
  }

  ghost predicate Counts(before: PollResult, after: PollResult, inbounds: map<Id, Inbound>, ids: seq<Id>)
    requires forall k :: 0 <= k < |ids| ==> ids[k] in inbounds
  {
    && after.processed == before.processed + |ids|
    && after.classified == before.classified + IntentsOf(inbounds, ids)
  }

  lemma {:induction false} IntentsStay(a: map<Id, Inbound>, b: map<Id, Inbound>, ids: seq<Id>)
    requires forall k :: 0 <= k < |ids| ==> ids[k] in a && ids[k] in b && a[ids[k]] == b[ids[k]]
    ensures IntentsOf(a, ids) == IntentsOf(b, ids)
  {
    if ids != [] { IntentsStay(a, b, ids[..|ids| - 1]); }
  }

  ghost predicate FetchedAmong(inputs: seq<PollInput>, id: string) {
    exists k :: 0 <= k < |inputs| && inputs[k].fetched.providerMessageId == id
  }

  /** What is stored after a poll is what was stored before, and what was fetched. */
  lemma {:induction false} SeenAfterPoll(st: PollState, workspace: Id, mailbox: Id, inputs: seq<PollInput>, id: string)
    requires PollOk(st)
    ensures Seen(PollAll(st, workspace, mailbox, inputs).db.inbounds, mailbox, id) <==>
      Seen(st.db.inbounds, mailbox, id) || FetchedAmong(inputs, id)
  {
    if inputs != [] {
      var last := |inputs| - 1;
      var before := PollAll(st, workspace, mailbox, inputs[..last]);
      PollAllKeeps(st, workspace, mailbox, inputs[..last]);
      SeenAfterPoll(st, workspace, mailbox, inputs[..last], id);
      SeenAfterOne(before, workspace, mailbox, inputs[last], id);
      FetchedSoFar(inputs, id);
    }
  }

  lemma {:induction false} FetchedSoFar(inputs: seq<PollInput>, id: string)
    requires inputs != []
    ensures FetchedAmong(inputs, id) <==>
      FetchedAmong(inputs[..|inputs| - 1], id) || inputs[|inputs| - 1].fetched.providerMessageId == id
  {
    var rest := inputs[..|inputs| - 1];
    if k :| 0 <= k < |rest| && rest[k].fetched.providerMessageId == id {
      assert inputs[k].fetched.providerMessageId == id;
    }
    if k :| 0 <= k < |inputs| && inputs[k].fetched.providerMessageId == id {
      if k < |rest| { assert rest[k].fetched.providerMessageId == id; }
    }
  }

  lemma {:induction false} SeenAfterOne(st: PollState, workspace: Id, mailbox: Id, input: PollInput, id: string)
    requires PollOk(st)
    ensures Seen(PollOne(st, workspace, mailbox, input).db.inbounds, mailbox, id) <==>
      Seen(st.db.inbounds, mailbox, id) || input.fetched.providerMessageId == id
  {
    if Seen(st.db.inbounds, mailbox, id) || input.fetched.providerMessageId == id {
      KnownAfterOne(st, workspace, mailbox, input, id);
    } else if !Known(st.db.inbounds, mailbox, input.fetched.providerMessageId) {
      PollOneInserts(st, workspace, mailbox, input);
      NotSeenInOneMore(st.db.inbounds, st.db.nextId, PollOne(st, workspace, mailbox, input).db.inbounds[st.db.nextId],
                       mailbox, id);
    }
  }

  lemma {:induction false} NotSeenInOneMore(inbounds: map<Id, Inbound>, n: Id, row: Inbound, mailbox: Id, id: string)
    requires !Seen(inbounds, mailbox, id) && row.providerMessageId != id
    ensures !Seen(inbounds[n := row], mailbox, id)
  {
    var after := inbounds[n := row];
    forall i | i in after ensures after[i].mailbox != mailbox || after[i].providerMessageId != id {
      assert i != n ==> i in inbounds;
    }
  }

  lemma {:induction false} OneMorePlace(
    inbounds: map<Id, Inbound>, mailbox: Id, inputs: seq<PollInput>, places: seq<nat>)
    requires inputs != [] && Places(inbounds, mailbox, inputs[..|inputs| - 1], places)
    ensures var last := |inputs| - 1;
      Places(inbounds, mailbox, inputs, if Fresh(inbounds, mailbox, inputs, last) then places + [last] else places)
  {
    var last := |inputs| - 1;
    var now := if Fresh(inbounds, mailbox, inputs, last) then places + [last] else places;
    forall i | 0 <= i < last
      ensures Fresh(inbounds, mailbox, inputs[..last], i) <==> Fresh(inbounds, mailbox, inputs, i)
    {
      assert forall k :: 0 <= k <= i ==> inputs[..last][k] == inputs[k];
    }
    forall i | 0 <= i < |inputs| && Fresh(inbounds, mailbox, inputs, i) ensures i in now {
      if i < last {
        assert i in places;
        var k :| 0 <= k < |places| && places[k] == i;
        assert now[k] == i;
      } else {
        assert now[|places|] == i;
      }
    }
  }

  lemma {:induction false} OneMoreRow(
    before: map<Id, Inbound>, soFar: map<Id, Inbound>, first: Id, n: Id, workspace: Id, mailbox: Id,
    inputs: seq<PollInput>, places: seq<nat>, ids: seq<Id>, row: Inbound)
    requires inputs != [] && RowsFor(before, soFar, first, workspace, mailbox, inputs[..|inputs| - 1], places, ids)
    requires first <= n && (forall i :: i in soFar ==> i < n)
    requires row == RowFor(n, workspace, mailbox, inputs[|inputs| - 1], row.matched)
    ensures RowsFor(before, soFar[n := row], first, workspace, mailbox, inputs, places + [|inputs| - 1], ids + [n])
  {
    var (after, all, now) := (soFar[n := row], places + [|inputs| - 1], ids + [n]);
    forall k | 0 <= k < |now|
      ensures first <= now[k] && all[k] < |inputs| && now[k] in after
      ensures after[now[k]] == RowFor(now[k], workspace, mailbox, inputs[all[k]], after[now[k]].matched)
    {
      if k < |ids| { assert ids[k] in soFar && inputs[..|inputs| - 1][places[k]] == inputs[places[k]]; }
    }
    forall i | i in after ensures i in before || i in now {
      if i == n { assert now[|ids|] == n; }
      if i in ids {
        var k :| 0 <= k < |ids| && ids[k] == i;
        assert now[k] == i;
      }
    }
  }

  lemma {:induction false} OneMoreCount(
    before: PollResult, soFar: PollResult, after: PollResult, rows: map<Id, Inbound>, n: Id, row: Inbound, ids: seq<Id>)
    requires (forall k :: 0 <= k < |ids| ==> ids[k] in rows && ids[k] != n) && Counts(before, soFar, rows, ids)
    requires row.intent.Some? <==> row.matched.Some?
    requires after.processed == soFar.processed + 1
    requires after.classified == soFar.classified + if row.matched.Some? then [row.intent.value] else []
    ensures Counts(before, after, rows[n := row], ids + [n])
  {
    assert (ids + [n])[..|ids|] == ids;
    IntentsStay(rows, rows[n := row], ids);
  }

  /** What has been stored is a row for each fresh message, counted. */
  ghost predicate Stored(
    st: PollState, workspace: Id, mailbox: Id, inputs: seq<PollInput>, after: PollState, places: seq<nat>, ids: seq<Id>)
  {
    && Places(st.db.inbounds, mailbox, inputs, places)
    && RowsFor(st.db.inbounds, after.db.inbounds, st.db.nextId, workspace, mailbox, inputs, places, ids)
    && Counts(st.result, after.result, after.db.inbounds, ids)
  }

  lemma {:induction false} FreshIsUnseen(st: PollState, workspace: Id, mailbox: Id, inputs: seq<PollInput>)
    requires PollOk(st) && inputs != []
    ensures var last := |inputs| - 1;
      Fresh(st.db.inbounds, mailbox, inputs, last) <==>
        !Seen(PollAll(st, workspace, mailbox, inputs[..last]).db.inbounds, mailbox,
              inputs[last].fetched.providerMessageId)
  {
    var last := |inputs| - 1;
    SeenAfterPoll(st, workspace, mailbox, inputs[..last], inputs[last].fetched.providerMessageId);
    var rest := inputs[..last];
    assert forall k :: 0 <= k < last ==> rest[k] == inputs[k];
    if Fresh(st.db.inbounds, mailbox, inputs, last) {
      assert !FetchedAmong(rest, inputs[last].fetched.providerMessageId);
    }
  }

  lemma {:induction false} StoredAgain(
    st: PollState, workspace: Id, mailbox: Id, inputs: seq<PollInput>, before: PollState, places: seq<nat>,
    ids: seq<Id>)
    requires inputs != [] && Stored(st, workspace, mailbox, inputs[..|inputs| - 1], before, places, ids)
    requires !Fresh(st.db.inbounds, mailbox, inputs, |inputs| - 1)
    ensures Stored(st, workspace, mailbox, inputs, before, places, ids)
  {
    OneMorePlace(st.db.inbounds, mailbox, inputs, places);
    var rest := inputs[..|inputs| - 1];
    forall k | 0 <= k < |places| ensures places[k] < |inputs| && rest[places[k]] == inputs[places[k]] {
    }
  }

  lemma {:induction false} StoredNext(
    st: PollState, workspace: Id, mailbox: Id, inputs: seq<PollInput>, before: PollState, after: PollState,
    places: seq<nat>, ids: seq<Id>)
    requires inputs != [] && Stored(st, workspace, mailbox, inputs[..|inputs| - 1], before, places, ids)
    requires Fresh(st.db.inbounds, mailbox, inputs, |inputs| - 1)
    requires st.db.nextId <= before.db.nextId && forall i :: i in before.db.inbounds ==> i < before.db.nextId
    requires StoredAs(before, workspace, mailbox, inputs[|inputs| - 1], after)
    ensures Stored(st, workspace, mailbox, inputs, after, places + [|inputs| - 1], ids + [before.db.nextId])
  {
    var (n, last) := (before.db.nextId, |inputs| - 1);
    var row := after.db.inbounds[n];
    OneMorePlace(st.db.inbounds, mailbox, inputs, places);
    OneMoreRow(st.db.inbounds, before.db.inbounds, st.db.nextId, n, workspace, mailbox, inputs, places, ids, row);
    OneMoreCount(st.result, before.result, after.result, before.db.inbounds, n, row, ids);
  }

  /**
   A poll stores each message it fetches for the first time, once, in the order they were fetched, with every column
   from the message; it counts them, and reports the intents of those that answer a message in that order.
   */
  lemma {:induction false} PollStoresInOrder(st: PollState, workspace: Id, mailbox: Id, inputs: seq<PollInput>)
    returns (places: seq<nat>, ids: seq<Id>)
    requires PollOk(st)
    ensures Stored(st, workspace, mailbox, inputs, PollAll(st, workspace, mailbox, inputs), places, ids)
  {
    if inputs == [] {
      places, ids := [], [];
    } else {
      var last := |inputs| - 1;
      var before := PollAll(st, workspace, mailbox, inputs[..last]);
      places, ids := PollStoresInOrder(st, workspace, mailbox, inputs[..last]);
      PollAllKeeps(st, workspace, mailbox, inputs[..last]);
      PollAllAdds(st, workspace, mailbox, inputs[..last]);
      InboundIdsAreOld(before.db);
      FreshIsUnseen(st, workspace, mailbox, inputs);
      EachMessageIsStoredOnce(before, workspace, mailbox, inputs[last]);
      if Fresh(st.db.inbounds, mailbox, inputs, last) {
        var after := PollOne(before, workspace, mailbox, inputs[last]);
        StoredNext(st, workspace, mailbox, inputs, before, after, places, ids);
        places, ids := places + [last], ids + [before.db.nextId];
      } else {
        StoredAgain(st, workspace, mailbox, inputs, before, places, ids);
      }
    }
  }

  // ---------- The cursor ----------

  /** The mailbox of the workspace with another cursor; every other mailbox as it was. */
  ghost predicate OnlyCursor(before: map<Id, Mailbox>, after: map<Id, Mailbox>, workspace: Id, cursor: string) {
    && after.Keys == before.Keys
    && (forall w :: w in before && w != workspace ==> after[w] == before[w])
    && (workspace in before ==>
          after[workspace] == Mailbox(before[workspace].id, before[workspace].emailAddress, Some(cursor),
                                      before[workspace].dailySendCap))
  }

  /** A poll moves the cursor of its mailbox, and writes no row of the campaign context and no message sent. */
  lemma {:induction false} PollMovesCursor(
    db: Db, workspace: Id, mailbox: Id, candidates: seq<Outbound>, inputs: seq<PollInput>, cursor: string)
    requires MessagingInv(db) && IsUnansweredList(db, mailbox, candidates)
    ensures var after := Poll(db, workspace, mailbox, candidates, inputs, cursor).0;
      && OnlyCursor(db.mailboxes, after.mailboxes, workspace, cursor)
      && after == db.(mailboxes := after.mailboxes, inbounds := after.inbounds, suppressions := after.suppressions,
                      events := after.events, nextId := after.nextId)
  {
    UnansweredAreOk(db, mailbox, candidates);
    PollAllAdds(PollStart(db, candidates), workspace, mailbox, inputs);
  }

  /** The cursor the last poll of the workspace left, or the one there was. */
  function LastCursor(cursor: Option<string>, ops: seq<Op>, workspace: Id): Option<string>
    decreases |ops|
  {
    if ops == [] then cursor
    else
      var polled := ops[0].PollInbox? && ops[0].workspace == workspace;
      LastCursor(if polled then Some(ops[0].cursor) else cursor, ops[1..], workspace)
  }

  /** Nothing but a poll writes a mailbox. */
  lemma {:induction false} OnlyPollsWriteMailboxes(s: Sys, op: Op)
    requires Inv(s) && Enabled(s, op) && !op.PollInbox?
    ensures Apply(s, op).db.mailboxes == s.db.mailboxes
  {
    match op
    case ProcessToken(job, index, byId, moment, env) =>
      var claim := ClaimInHand(s, job, index, byId);
      if claim.Some? {
        MessageIsNew(s);
        ProcessFrame(s.db, claim.value, moment, env);
      }
    case SendTestEmail(workspace, toEmail, subject, body, env) =>
      MessageIsNew(s);
      SendFrame(s.db, workspace, toEmail, subject, body, env);
    case HandleReplies(workspace, batch, moment) => HandleAllLeavesMail(s.db, batch, moment);
    case _ => CommandsLeaveMessaging(s, op);
  }

  lemma {:induction false} PollMovesItsCursor(s: Sys, op: Op, workspace: Id)
    requires Inv(s) && Enabled(s, op) && op.PollInbox? && workspace in s.db.mailboxes
    ensures workspace in Apply(s, op).db.mailboxes
    ensures Apply(s, op).db.mailboxes[workspace] ==
      if op.workspace == workspace then s.db.mailboxes[workspace].(cursor := Some(op.cursor))
      else s.db.mailboxes[workspace]
  {
    PollMovesCursor(s.db, op.workspace, s.db.mailboxes[op.workspace].id, op.candidates, op.inputs, op.cursor);
  }

  /** Over any run the cursor of a mailbox is that of its last poll, and the rest of the mailbox stays. */
  lemma {:induction false} CursorIsTheLastPolls(s: Sys, ops: seq<Op>, workspace: Id)
    requires Inv(s) && IsRun(s, ops) && workspace in s.db.mailboxes
    ensures workspace in Exec(s, ops).db.mailboxes
    ensures Exec(s, ops).db.mailboxes[workspace] ==
      s.db.mailboxes[workspace].(cursor := LastCursor(s.db.mailboxes[workspace].cursor, ops, workspace))
    decreases |ops|
  {
    if ops != [] {
      ApplyKeeps(s, ops[0]);
      if ops[0].PollInbox? {
        PollMovesItsCursor(s, ops[0], workspace);
      } else {
        OnlyPollsWriteMailboxes(s, ops[0]);
      }
      CursorIsTheLastPolls(Apply(s, ops[0]), ops[1..], workspace);
    }
  }
}
