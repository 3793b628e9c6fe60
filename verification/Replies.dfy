/** The consumer of classified replies: stop the lead, cancel its pending jobs, acknowledge the event. */
module Replies {
  import opened Base
  import opened CampaignDomain
  import opened SendQueue
  import opened Tables

  datatype ClassifiedReply = ClassifiedReply(eventId: Id, workspace: Id, matched: Option<Id>, intent: Intent)

  /** Version 1 events do not name the message they answer. */
  function ToReply(event: OutboxEvent): ClassifiedReply {
    ClassifiedReply(event.id, event.workspace, if event.version >= 2 then event.matched else None, event.intent)
  }

  /** Stopping the lead a reply belongs to; `None` means there was nothing to stop. */
  ghost function StopLead(db: Db, reply: ClassifiedReply, moment: Time): (Db, Option<Lead>) {
    if reply.matched.None? then (db, None)
    else
      match FindLead(db.jobs, reply.matched.value)
      case None => (db, None)
      case Some(id) => StopFoundLead(db, id, reply.intent, moment)
  }

  function StopFoundLead(db: Db, id: Id, intent: Intent, moment: Time): (Db, Option<Lead>) {
    if id !in db.leads || db.leads[id].campaign !in db.campaigns then (db, None)
    else
      var lead := db.leads[id];
      match db.campaigns[lead.campaign].StopOnReply(lead, intent, moment)
      case Failure(_) => (db, None)
      case Success(stopped) =>
        if lead.IsStopped() then (db, None)
        else
          (db.(leads := db.leads[id := stopped], jobs := CancelPendingForLead(db.jobs, id, moment)), Some(stopped))
  }

  function Acknowledge(db: Db, reply: ClassifiedReply): Db {
    db.(processed := db.processed + {reply.eventId})
  }

  ghost function HandleEvent(db: Db, event: OutboxEvent, moment: Time): Db {
    Acknowledge(StopLead(db, ToReply(event), moment).0, ToReply(event))
  }

  ghost function HandleAll(db: Db, batch: seq<OutboxEvent>, moment: Time): Db {
    if batch == [] then db
    else
      var last := |batch| - 1;
      HandleEvent(HandleAll(db, batch[..last], moment), batch[last], moment)
  }

  /** The `WHERE` of the feed: a classified reply of the workspace with no processed row. */
  predicate InFeed(db: Db, workspace: Id, event: OutboxEvent) {
    event in db.events && event.workspace == workspace && event.kind.ReplyClassified? && event.id !in db.processed
  }

  /** The order of the feed. */
  predicate Before(a: OutboxEvent, b: OutboxEvent) {
    a.createdAt < b.createdAt || (a.createdAt == b.createdAt && a.id < b.id)
  }

  /** A batch another consumer's locks may have thinned out: feed events, each at most once, in feed order. */
  ghost predicate IsBatch(db: Db, workspace: Id, batch: seq<OutboxEvent>) {
    && (forall i :: 0 <= i < |batch| ==> InFeed(db, workspace, batch[i]))
    && (forall i, j :: 0 <= i < j < |batch| ==> Before(batch[i], batch[j]))
  }

  /** What a claim may return: the first events of the feed that no other consumer holds, up to the limit. */
  ghost predicate IsFeedClaim(db: Db, workspace: Id, limit: nat, locked: set<Id>, batch: seq<OutboxEvent>) {
    && IsBatch(db, workspace, batch) && |batch| <= limit
    && (forall e :: e in batch ==> e.id !in locked)
    && (forall e :: InFeed(db, workspace, e) && e.id !in locked && e !in batch ==>
          |batch| == limit && forall b :: b in batch ==> Before(b, e))
  }

  /** An identifier names one event. */
  ghost predicate DistinctIds(events: seq<OutboxEvent>) {
    forall a, b :: a in events && b in events && a.id == b.id ==> a == b
  }

  /** The leads a batch stops, in order. */
  ghost function StoppedIn(db: Db, batch: seq<OutboxEvent>, moment: Time): seq<Lead> {
    if batch == [] then []
    else
      var last := |batch| - 1;
      var before := HandleAll(db, batch[..last], moment);
      match StopLead(before, ToReply(batch[last]), moment).1
      case None => StoppedIn(db, batch[..last], moment)
      case Some(lead) => StoppedIn(db, batch[..last], moment) + [lead]
  }

  /** A batch of one more event. */
  lemma {:induction false} OneMoreHandled(db: Db, batch: seq<OutboxEvent>, n: nat, moment: Time)
    requires n < |batch|
    ensures var before := HandleAll(db, batch[..n], moment);
      && HandleAll(db, batch[..n + 1], moment) == HandleEvent(before, batch[n], moment)
      && StoppedIn(db, batch[..n + 1], moment) ==
           match StopLead(before, ToReply(batch[n]), moment).1
           case None => StoppedIn(db, batch[..n], moment)
           case Some(lead) => StoppedIn(db, batch[..n], moment) + [lead]
  {
    assert batch[..n + 1][..n] == batch[..n];
  }
}
