/** A poll keeps the messaging tables sound, and handles each fetched message at most once. */
module PollKeeps {
  import opened Base
  import opened CampaignDomain
  import opened Inbox
  import opened Invariant
  import opened Matching
  import opened Tables

  // ---------- The outbox ----------

  lemma {:induction false} AggregatesAppend(events: seq<OutboxEvent>, event: OutboxEvent, kind: EventKind)
    ensures Aggregates(events + [event], kind) ==
      Aggregates(events, kind) + if event.kind == kind then [event.aggregate] else []
  {
    assert (events + [event])[..|events|] == events;
  }

  lemma {:induction false} ListsOnceAppend(listed: seq<Id>, rows: set<Id>, id: Id)
    requires ListsOnce(listed, rows) && id !in rows
    ensures ListsOnce(listed + [id], rows + {id})
  {
    forall x ensures x in listed + [id] <==> x in rows + {id} {
      assert x in listed <==> x in rows;
    }
  }

  lemma {:induction false} MatchedRowsOfNew(inbounds: map<Id, Inbound>, row: Inbound)
    requires row.id !in inbounds
    ensures MatchedRows(inbounds[row.id := row]) ==
      if row.matched.Some? then MatchedRows(inbounds) + {row.id} else MatchedRows(inbounds)
  {
  }

  /** A new unmatched row and its one event. */
  lemma {:induction false} UnmatchedMirrors(db: Db, workspace: Id, mailbox: Id, input: PollInput)
    requires EventsMirrorRows(db) && db.nextId !in db.inbounds
    ensures EventsMirrorRows(StoreUnmatched(db, workspace, mailbox, input))
  {
    var after, row := StoreUnmatched(db, workspace, mailbox, input), NewInbound(db.nextId, workspace, mailbox, input);
    var event := Received(db.nextId + 1, row, input.at);
    AggregatesAppend(db.events, event, InboundReceived);
    AggregatesAppend(db.events, event, ReplyMatched);
    AggregatesAppend(db.events, event, ReplyClassified);
    ListsOnceAppend(Aggregates(db.events, InboundReceived), db.inbounds.Keys, row.id);
    MatchedRowsOfNew(db.inbounds, row);
    assert after.inbounds.Keys == db.inbounds.Keys + {row.id};
  }

  lemma {:induction false} ThreeEvents(events: seq<OutboxEvent>, a: OutboxEvent, b: OutboxEvent, c: OutboxEvent)
    requires a.kind == InboundReceived && b.kind == ReplyMatched && c.kind == ReplyClassified
    ensures Aggregates(events + [a, b, c], InboundReceived) == Aggregates(events, InboundReceived) + [a.aggregate]
    ensures Aggregates(events + [a, b, c], ReplyMatched) == Aggregates(events, ReplyMatched) + [b.aggregate]
    ensures Aggregates(events + [a, b, c], ReplyClassified) == Aggregates(events, ReplyClassified) + [c.aggregate]
  {
    forall kind: EventKind
      ensures Aggregates(events + [a, b, c], kind) ==
        Aggregates(events, kind) +
          if a.kind == kind then [a.aggregate] else if b.kind == kind then [b.aggregate] else [c.aggregate]
    {
      AggregatesAppend(events, a, kind);
      AggregatesAppend(events + [a], b, kind);
      AggregatesAppend(events + [a] + [b], c, kind);
      assert events + [a] + [b] + [c] == events + [a, b, c];
    }
  }

  /** A new matched row and its three events. */
  lemma {:induction false} StoredRow(db: Db, workspace: Id, mailbox: Id, input: PollInput, matched: Outbound)
    requires db.nextId !in db.inbounds
    ensures var after := StoreMatched(db, workspace, mailbox, input, matched);
      && after.inbounds.Keys == db.inbounds.Keys + {db.nextId}
      && MatchedRows(after.inbounds) == MatchedRows(db.inbounds) + {db.nextId}
  {
    var after := StoreMatched(db, workspace, mailbox, input, matched);
    MatchedRowsOfNew(db.inbounds, after.inbounds[db.nextId]);
  }

  lemma {:induction false} MatchedMirrors(db: Db, workspace: Id, mailbox: Id, input: PollInput, matched: Outbound)
    requires EventsMirrorRows(db) && db.nextId !in db.inbounds
    ensures EventsMirrorRows(StoreMatched(db, workspace, mailbox, input, matched))
  {
    var after, received :=
      StoreMatched(db, workspace, mailbox, input, matched), NewInbound(db.nextId, workspace, mailbox, input);
    ThreeEvents(db.events, Received(db.nextId + 1, received, input.at),
                Matched(db.nextId + 2, received, matched.id, input.at),
                Classified(db.nextId + 3, received, matched.id, IntentOf(input), input.at));
    ListsOnceAppend(Aggregates(db.events, InboundReceived), db.inbounds.Keys, db.nextId);
    ListsOnceAppend(Aggregates(db.events, ReplyMatched), MatchedRows(db.inbounds), db.nextId);
    ListsOnceAppend(Aggregates(db.events, ReplyClassified), MatchedRows(db.inbounds), db.nextId);
    StoredRow(db, workspace, mailbox, input, matched);
  }

  // ---------- Suppressions ----------

  /** Suppressing only adds rows, and after an unsubscribe or a bounce the address is on the list. */
  lemma {:induction false} SuppressAdds(
    suppressions: map<Suppression, Id>, workspace: Id, email: string, intent: Intent, source: Id)
    ensures var after := Suppress(suppressions, workspace, email, intent, source);
      && suppressions.Keys <= after.Keys
      && (forall key :: key in suppressions ==> after[key] == suppressions[key])
      && (intent.Unsubscribe? || intent.Bounce? ==> IsSuppressed(after, workspace, email))
      && (!intent.Unsubscribe? && !intent.Bounce? ==> after == suppressions)
  {
  }

  lemma {:induction false} SuppressedStays(
    before: map<Suppression, Id>, after: map<Suppression, Id>, workspace: Id, email: string)
    requires before.Keys <= after.Keys && IsSuppressed(before, workspace, email)
    ensures IsSuppressed(after, workspace, email)
  {
  }

  // ---------- The candidates ----------

  lemma {:induction false} WithoutLeavesOut(candidates: seq<Outbound>, id: Id, c: Outbound)
    ensures c in Without(candidates, id) <==> c in candidates && c.id != id
  {
    if candidates != [] {
      var last := |candidates| - 1;
      WithoutLeavesOut(candidates[..last], id, c);
      assert candidates == candidates[..last] + [candidates[last]];
    }
  }

  ghost predicate CandidateOk(db: Db, c: Outbound) {
    c.id in db.outbounds && db.outbounds[c.id] == c && !Answered(db.inbounds, c.id)
  }

  /** The candidates still listed are stored and unanswered, and the tables are sound. */
  ghost predicate PollOk(st: PollState) {
    && MessagingInv(st.db)
    && forall c {:trigger CandidateOk(st.db, c)} :: c in st.candidates ==> CandidateOk(st.db, c)
  }

  lemma {:induction false} InboundIdsAreOld(db: Db)
    requires MessagingInv(db)
    ensures db.nextId !in db.inbounds
  {
    forall i | i in db.inbounds ensures i < db.nextId {
      assert InboundRowOk(db, i);
    }
  }

  lemma {:induction false} OldRowOk(db: Db, after: Db, i: Id)
    requires InboundRowOk(db, i) && SuppressionOk(db, i) && i in after.inbounds && after.inbounds[i] == db.inbounds[i]
    requires after.outbounds == db.outbounds && db.nextId <= after.nextId
    requires db.suppressions.Keys <= after.suppressions.Keys
    ensures InboundRowOk(after, i) && SuppressionOk(after, i)
  {
    if db.inbounds[i].matched.Some? && db.inbounds[i].intent in {Some(Unsubscribe), Some(Bounce)} {
      SuppressedStays(db.suppressions, after.suppressions, db.inbounds[i].workspace,
                      db.outbounds[db.inbounds[i].matched.value].toEmail);
    }
  }

  lemma {:induction false} StoreUnmatchedKeeps(db: Db, workspace: Id, mailbox: Id, input: PollInput)
    requires MessagingInv(db) && !Known(db.inbounds, mailbox, input.fetched.providerMessageId)
    ensures MessagingInv(StoreUnmatched(db, workspace, mailbox, input))
  {
    var after := StoreUnmatched(db, workspace, mailbox, input);
    InboundIdsAreOld(db);
    forall i | i in after.inbounds ensures InboundRowOk(after, i) && SuppressionOk(after, i) {
      if i != db.nextId { OldRowOk(db, after, i); }
    }
    UnmatchedMirrors(db, workspace, mailbox, input);
    UniqueAfter(db.inbounds, after.inbounds[db.nextId]);
    OldEventsOk(db, after);
  }

  lemma {:induction false} StoreMatchedKeeps(db: Db, workspace: Id, mailbox: Id, input: PollInput, matched: Outbound)
    requires MessagingInv(db) && !Known(db.inbounds, mailbox, input.fetched.providerMessageId)
    requires CandidateOk(db, matched)
    ensures MessagingInv(StoreMatched(db, workspace, mailbox, input, matched))
  {
    var after := StoreMatched(db, workspace, mailbox, input, matched);
    InboundIdsAreOld(db);
    SuppressAdds(db.suppressions, workspace, matched.toEmail, IntentOf(input), db.nextId);
    forall i | i in after.inbounds ensures InboundRowOk(after, i) && SuppressionOk(after, i) {
      if i != db.nextId { OldRowOk(db, after, i); }
    }
    MatchedMirrors(db, workspace, mailbox, input, matched);
    UniqueAfter(db.inbounds, after.inbounds[db.nextId]);
    OldEventsOk(db, after);
  }

  /** Events already written still agree with their rows; the new ones are checked against the new row. */
  lemma {:induction false} OldEventsOk(db: Db, after: Db)
    requires EventsAgree(db) && db.events <= after.events && db.nextId !in db.inbounds && db.nextId in after.inbounds
    requires forall i :: i in db.inbounds ==> i in after.inbounds && after.inbounds[i] == db.inbounds[i]
    requires forall k :: |db.events| <= k < |after.events| ==> EventOk(after, k)
    ensures EventsAgree(after)
  {
    forall k | 0 <= k < |after.events| ensures EventOk(after, k) {
      if k < |db.events| { assert EventOk(db, k); }
    }
  }

  /** A row for a new message that answers an unanswered one keeps both uniqueness properties. */
  lemma {:induction false} UniqueAfter(inbounds: map<Id, Inbound>, row: Inbound)
    requires MatchesUnique(inbounds) && MessagesUnique(inbounds) && row.id !in inbounds
    requires !Known(inbounds, row.mailbox, row.providerMessageId)
    requires row.matched.Some? ==> !Answered(inbounds, row.matched.value)
    ensures MatchesUnique(inbounds[row.id := row]) && MessagesUnique(inbounds[row.id := row])
  {
  }

  lemma {:induction false} UnmatchedKeeps(st: PollState, workspace: Id, mailbox: Id, input: PollInput)
    requires PollOk(st) && !Known(st.db.inbounds, mailbox, input.fetched.providerMessageId)
    requires MatchReply(input.fetched, st.candidates).None?
    ensures PollOk(PollOne(st, workspace, mailbox, input))
  {
    var after := PollOne(st, workspace, mailbox, input);
    InboundIdsAreOld(st.db);
    StoreUnmatchedKeeps(st.db, workspace, mailbox, input);
    forall c | c in after.candidates ensures CandidateOk(after.db, c) {
      assert CandidateOk(st.db, c);
    }
  }

  lemma {:induction false} MatchedKeeps(st: PollState, workspace: Id, mailbox: Id, input: PollInput, matched: Outbound)
    requires PollOk(st) && !Known(st.db.inbounds, mailbox, input.fetched.providerMessageId)
    requires MatchReply(input.fetched, st.candidates) == Some(matched) && matched in st.candidates
    ensures PollOk(PollOne(st, workspace, mailbox, input))
  {
    var after := PollOne(st, workspace, mailbox, input);
    assert CandidateOk(st.db, matched);
    InboundIdsAreOld(st.db);
    StoreMatchedKeeps(st.db, workspace, mailbox, input, matched);
    forall c | c in after.candidates ensures CandidateOk(after.db, c) {
      WithoutLeavesOut(st.candidates, matched.id, c);
      assert CandidateOk(st.db, c);
    }
  }

  lemma {:induction false} PollOneKeeps(st: PollState, workspace: Id, mailbox: Id, input: PollInput)
    requires PollOk(st)
    ensures PollOk(PollOne(st, workspace, mailbox, input))
  {
    if !Known(st.db.inbounds, mailbox, input.fetched.providerMessageId) {
      MatchReplyIsTiered(input.fetched, st.candidates);
      match MatchReply(input.fetched, st.candidates)
      case None => UnmatchedKeeps(st, workspace, mailbox, input);
      case Some(matched) => MatchedKeeps(st, workspace, mailbox, input, matched);
    }
  }

  lemma {:induction false} PollAllKeeps(st: PollState, workspace: Id, mailbox: Id, inputs: seq<PollInput>)
    requires PollOk(st)
    ensures PollOk(PollAll(st, workspace, mailbox, inputs))
  {
    if inputs != [] {
      var last := |inputs| - 1;
      PollAllKeeps(st, workspace, mailbox, inputs[..last]);
      PollOneKeeps(PollAll(st, workspace, mailbox, inputs[..last]), workspace, mailbox, inputs[last]);
    }
  }

  lemma {:induction false} UnansweredAreOk(db: Db, mailbox: Id, candidates: seq<Outbound>)
    requires MessagingInv(db) && IsUnansweredList(db, mailbox, candidates)
    ensures PollOk(PollStart(db, candidates))
  {
    forall c | c in candidates ensures CandidateOk(db, c) {
      var i :| 0 <= i < |candidates| && candidates[i] == c;
      assert Unanswered(db, mailbox, candidates[i].id);
    }
  }

  /**
   A poll keeps: one match per sent message, one row per message, an intent on exactly the matched rows, and the outbox.
   */
  lemma {:induction false} PollKeepsMessaging(
    db: Db, workspace: Id, mailbox: Id, candidates: seq<Outbound>, inputs: seq<PollInput>, cursor: string)
    requires MessagingInv(db) && IsUnansweredList(db, mailbox, candidates)
    ensures MessagingInv(Poll(db, workspace, mailbox, candidates, inputs, cursor).0)
  {
    UnansweredAreOk(db, mailbox, candidates);
    PollAllKeeps(PollStart(db, candidates), workspace, mailbox, inputs);
    var done := PollAll(PollStart(db, candidates), workspace, mailbox, inputs).db;
    var after := Poll(db, workspace, mailbox, candidates, inputs, cursor).0;
    forall i | i in after.inbounds ensures InboundRowOk(after, i) && SuppressionOk(after, i) {
      assert InboundRowOk(done, i) && SuppressionOk(done, i);
    }
    forall k | 0 <= k < |after.events| ensures EventOk(after, k) {
      assert EventOk(done, k);
    }
  }

  // ---------- What a poll leaves alone, and what it only adds to ----------

  ghost predicate OnlyAdds(db: Db, after: Db) {
    && after.mailboxes == db.mailboxes && after.campaigns == db.campaigns && after.leads == db.leads
    && after.jobs == db.jobs && after.processed == db.processed && after.outbounds == db.outbounds
    && db.nextId <= after.nextId
    && db.suppressions.Keys <= after.suppressions.Keys
    && db.events <= after.events
    && (forall i :: i in db.inbounds ==> i in after.inbounds && after.inbounds[i] == db.inbounds[i])
  }

  lemma {:induction false} PollAllAdds(st: PollState, workspace: Id, mailbox: Id, inputs: seq<PollInput>)
    requires PollOk(st)
    ensures OnlyAdds(st.db, PollAll(st, workspace, mailbox, inputs).db)
  {
    if inputs != [] {
      var last := |inputs| - 1;
      var before := PollAll(st, workspace, mailbox, inputs[..last]);
      PollAllAdds(st, workspace, mailbox, inputs[..last]);
      PollAllKeeps(st, workspace, mailbox, inputs[..last]);
      PollOneAdds(before, workspace, mailbox, inputs[last]);
    }
  }

  lemma {:induction false} PollOneAdds(st: PollState, workspace: Id, mailbox: Id, input: PollInput)
    requires PollOk(st)
    ensures OnlyAdds(st.db, PollOne(st, workspace, mailbox, input).db)
  {
    InboundIdsAreOld(st.db);
    match MatchReply(input.fetched, st.candidates)
    case None =>
    case Some(matched) =>
      SuppressAdds(st.db.suppressions, workspace, matched.toEmail, IntentOf(input), st.db.nextId);
  }

  // ---------- Replays ----------

  ghost predicate AllKnown(inbounds: map<Id, Inbound>, mailbox: Id, inputs: seq<PollInput>) {
    forall i :: 0 <= i < |inputs| ==> Known(inbounds, mailbox, inputs[i].fetched.providerMessageId)
  }

  lemma {:induction false} KnownStays(
    before: map<Id, Inbound>, after: map<Id, Inbound>, mailbox: Id, providerMessageId: string)
    requires Known(before, mailbox, providerMessageId)
    requires forall i :: i in before ==> i in after && after[i] == before[i]
    ensures Known(after, mailbox, providerMessageId)
  {
    var i :| i in before && before[i].mailbox == mailbox && before[i].providerMessageId == providerMessageId;
    assert i in after;
  }

  /** Messages that are already stored change nothing. */
  lemma {:induction false} ReplayChangesNothing(st: PollState, workspace: Id, mailbox: Id, inputs: seq<PollInput>)
    requires AllKnown(st.db.inbounds, mailbox, inputs)
    ensures PollAll(st, workspace, mailbox, inputs) == st
  {
    if inputs != [] {
      ReplayChangesNothing(st, workspace, mailbox, inputs[..|inputs| - 1]);
    }
  }

  /** A message not stored yet gets one row, and counts once. */
  lemma {:induction false} PollOneInserts(st: PollState, workspace: Id, mailbox: Id, input: PollInput)
    requires !Known(st.db.inbounds, mailbox, input.fetched.providerMessageId)
    ensures var after := PollOne(st, workspace, mailbox, input);
      && st.db.nextId in after.db.inbounds
      && var row := after.db.inbounds[st.db.nextId];
        && row.id == st.db.nextId && row.mailbox == mailbox && row.providerMessageId == input.fetched.providerMessageId
        && after.db.inbounds == st.db.inbounds[st.db.nextId := row]
        && after.result.processed == st.result.processed + 1
        && |after.result.classified| == |st.result.classified| + if row.matched.Some? then 1 else 0
  {
    match MatchReply(input.fetched, st.candidates)
    case None =>
    case Some(matched) =>
  }

  lemma {:induction false} PollOneStores(st: PollState, workspace: Id, mailbox: Id, input: PollInput)
    ensures Known(PollOne(st, workspace, mailbox, input).db.inbounds, mailbox, input.fetched.providerMessageId)
  {
    if !Known(st.db.inbounds, mailbox, input.fetched.providerMessageId) {
      PollOneInserts(st, workspace, mailbox, input);
    }
  }

  lemma {:induction false} KnownAfterOne(
    st: PollState, workspace: Id, mailbox: Id, input: PollInput, providerMessageId: string)
    requires PollOk(st)
    requires Known(st.db.inbounds, mailbox, providerMessageId) || input.fetched.providerMessageId == providerMessageId
    ensures Known(PollOne(st, workspace, mailbox, input).db.inbounds, mailbox, providerMessageId)
  {
    if Known(st.db.inbounds, mailbox, providerMessageId) {
      PollOneAdds(st, workspace, mailbox, input);
      KnownStays(st.db.inbounds, PollOne(st, workspace, mailbox, input).db.inbounds, mailbox, providerMessageId);
    } else {
      PollOneStores(st, workspace, mailbox, input);
    }
  }

  /** After a poll every fetched message is stored. */
  lemma {:induction false} PollStoresAll(st: PollState, workspace: Id, mailbox: Id, inputs: seq<PollInput>)
    requires PollOk(st)
    ensures AllKnown(PollAll(st, workspace, mailbox, inputs).db.inbounds, mailbox, inputs)
  {
    if inputs != [] {
      var last := |inputs| - 1;
      var before, after := PollAll(st, workspace, mailbox, inputs[..last]), PollAll(st, workspace, mailbox, inputs);
      PollStoresAll(st, workspace, mailbox, inputs[..last]);
      PollAllKeeps(st, workspace, mailbox, inputs[..last]);
      forall i | 0 <= i < |inputs| ensures Known(after.db.inbounds, mailbox, inputs[i].fetched.providerMessageId) {
        assert i < last ==> inputs[..last][i] == inputs[i];
        KnownAfterOne(before, workspace, mailbox, inputs[last], inputs[i].fetched.providerMessageId);
      }
    }
  }

  ghost predicate Fetched(inputs: seq<PollInput>, providerMessageId: string) {
    exists k :: 0 <= k < |inputs| && inputs[k].fetched.providerMessageId == providerMessageId
  }

  lemma {:induction false} FetchedIsKnown(
    inbounds: map<Id, Inbound>, mailbox: Id, inputs: seq<PollInput>, providerMessageId: string)
    requires AllKnown(inbounds, mailbox, inputs) && Fetched(inputs, providerMessageId)
    ensures Known(inbounds, mailbox, providerMessageId)
  {
    var k :| 0 <= k < |inputs| && inputs[k].fetched.providerMessageId == providerMessageId;
    assert Known(inbounds, mailbox, inputs[k].fetched.providerMessageId);
  }

  /** The counters of a poll: new rows, and new matched rows. */
  lemma {:induction false} PollCounts(st: PollState, workspace: Id, mailbox: Id, inputs: seq<PollInput>)
    requires PollOk(st)
    ensures var after := PollAll(st, workspace, mailbox, inputs);
      && after.result.processed - st.result.processed == |after.db.inbounds.Keys| - |st.db.inbounds.Keys|
      && |after.result.classified| - |st.result.classified| ==
        |MatchedRows(after.db.inbounds)| - |MatchedRows(st.db.inbounds)|
  {
    if inputs != [] {
      var last := |inputs| - 1;
      var before, after := PollAll(st, workspace, mailbox, inputs[..last]), PollAll(st, workspace, mailbox, inputs);
      PollCounts(st, workspace, mailbox, inputs[..last]);
      PollAllKeeps(st, workspace, mailbox, inputs[..last]);
      InboundIdsAreOld(before.db);
      if !Known(before.db.inbounds, mailbox, inputs[last].fetched.providerMessageId) {
        PollOneInserts(before, workspace, mailbox, inputs[last]);
        assert after.db.inbounds.Keys == before.db.inbounds.Keys + {before.db.nextId};
        MatchedRowsOfNew(before.db.inbounds, after.db.inbounds[before.db.nextId]);
      }
    }
  }
}
