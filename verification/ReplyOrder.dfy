/** What a sequence of replies does, in closed form: the first reply to each lead decides. */
module ReplyOrder {
  import opened Base
  import opened Batches
  import opened CampaignDomain
  import opened Replies
  import opened SendQueue
  import opened Tables

  /** The lead an event is about, if it is about any. */
  ghost function LeadOf(jobs: JobTable, event: OutboxEvent): Option<Id> {
    var reply := ToReply(event);
    if reply.matched.None? then None else FindLead(jobs, reply.matched.value)
  }

  /** The intent of the first of these events that is about this lead. */
  ghost function FirstIntent(jobs: JobTable, events: seq<OutboxEvent>, l: Id): Option<Intent> {
    if events == [] then None
    else
      var last := |events| - 1;
      var before := FirstIntent(jobs, events[..last], l);
      if before.Some? then before
      else if LeadOf(jobs, events[last]) == Some(l) then Some(events[last].intent)
      else None
  }

  /** A lead stopped by a reply of this intent. */
  function StoppedBy(lead: Lead, intent: Intent): Lead {
    lead.(state := if intent.Bounce? then LeadState.Failed else LeadState.Paused,
          stopReason := Some(if intent.Bounce? then Bounced else if intent.Unsubscribe? then Unsubscribed else Replied),
          replyIntent := Some(intent))
  }

  /** A lead and its job after the first reply, if there was one; a stopped lead keeps what it has. */
  function LeadAfter(lead: Lead, first: Option<Intent>): Lead {
    if lead.IsStopped() || first.None? then lead else StoppedBy(lead, first.value)
  }

  function JobAfter(job: SendJob, leads: map<Id, Lead>, first: Option<Intent>): SendJob {
    if job.lead in leads && !leads[job.lead].IsStopped() && first.Some? && job.status.Pending?
      then job.(status := JobStatus.Cancelled) else job
  }

  /** Every lead behind a linked message can be stopped, or is already. */
  ghost predicate Stoppable(db: Db) {
    forall j {:trigger db.jobs[j]} :: j in db.jobs && db.jobs[j].outbound.Some? ==> LeadStoppable(db, db.jobs[j].lead)
  }

  predicate LeadStoppable(db: Db, l: Id) {
    && l in db.leads && db.leads[l].campaign in db.campaigns
    && db.campaigns[db.leads[l].campaign].id == db.leads[l].campaign
    && (db.leads[l].IsStopped() || db.leads[l].IsReplyable())
  }

  /** Links are where they were, so every message leads where it led. */
  ghost predicate SameLinks(before: JobTable, after: JobTable) {
    && after.Keys == before.Keys
    && forall j :: j in before ==> after[j].lead == before[j].lead && after[j].outbound == before[j].outbound
  }

  lemma {:induction false} SameLinksSameLead(before: JobTable, after: JobTable, event: OutboxEvent)
    requires LinksUnique(before) && SameLinks(before, after)
    ensures LinksUnique(after) && LeadOf(after, event) == LeadOf(before, event)
  {
    var reply := ToReply(event);
    if reply.matched.Some? {
      var o := reply.matched.value;
      forall j ensures LinksTo(after, j, o) <==> LinksTo(before, j, o) {
      }
      if j :| LinksTo(before, j, o) {
        FindLeadOfLink(before, j, o);
        FindLeadOfLink(after, j, o);
      }
    }
  }

  // ---------- One event ----------

  /** The row of lead `l` and of job `j` after a sequence of events, timestamps aside. */
  ghost predicate RowsAfter(db: Db, events: seq<OutboxEvent>, after: Db, l: Id, j: Id) {
    && (l in db.leads ==>
          l in after.leads && SameLeadButTime(after.leads[l], LeadAfter(db.leads[l], FirstIntent(db.jobs, events, l))))
    && (j in db.jobs ==>
          && j in after.jobs
          && var first := FirstIntent(db.jobs, events, db.jobs[j].lead);
            SameJobButTime(after.jobs[j], JobAfter(db.jobs[j], db.leads, first)))
  }

  /** Everything but leads, jobs and acknowledgements is as it was. */
  ghost predicate Around(db: Db, after: Db) {
    && after == db.(leads := after.leads, jobs := after.jobs, processed := after.processed)
    && after.leads.Keys == db.leads.Keys && SameLinks(db.jobs, after.jobs)
    && forall l :: l in db.leads ==> after.leads[l].campaign == db.leads[l].campaign
  }

  lemma {:induction false} StopIsStoppedBy(db: Db, l: Id, intent: Intent, moment: Time)
    requires LeadStoppable(db, l) && !db.leads[l].IsStopped()
    ensures var after := StopFoundLead(db, l, intent, moment).0;
      && after == db.(leads := db.leads[l := after.leads[l]], jobs := CancelPendingForLead(db.jobs, l, moment))
      && SameLeadButTime(after.leads[l], StoppedBy(db.leads[l], intent))
  {
  }

  lemma {:induction false} HandleEventAround(db: Db, event: OutboxEvent, moment: Time)
    ensures Around(db, HandleEvent(db, event, moment))
    ensures HandleEvent(db, event, moment).processed == db.processed + {event.id}
  {
  }

  lemma {:induction false} HandleAllAround(db: Db, events: seq<OutboxEvent>, moment: Time)
    ensures Around(db, HandleAll(db, events, moment))
  {
    if events != [] {
      var last := |events| - 1;
      HandleAllAround(db, events[..last], moment);
      HandleEventAround(HandleAll(db, events[..last], moment), events[last], moment);
    }
  }

  lemma {:induction false} LinkedLeadIsStoppable(db: Db, event: OutboxEvent)
    requires Stoppable(db) && LeadOf(db.jobs, event).Some?
    ensures LeadStoppable(db, LeadOf(db.jobs, event).value)
  {
    var o := ToReply(event).matched.value;
    var j :| LinksTo(db.jobs, j, o) && db.jobs[j].lead == FindLead(db.jobs, o).value;
  }

  /** An event about nobody, or about a lead that is stopped by now, only gets acknowledged. */
  lemma {:induction false} IdleEvent(db: Db, event: OutboxEvent, moment: Time)
    requires LeadOf(db.jobs, event).Some? ==>
      LeadStoppable(db, LeadOf(db.jobs, event).value) && db.leads[LeadOf(db.jobs, event).value].IsStopped()
    ensures HandleEvent(db, event, moment) == db.(processed := db.processed + {event.id})
  {
  }

  /** An event about a lead that can be stopped stops it. */
  lemma {:induction false} StoppingEvent(db: Db, event: OutboxEvent, moment: Time, x: Id)
    requires LeadOf(db.jobs, event) == Some(x) && LeadStoppable(db, x) && !db.leads[x].IsStopped()
    ensures var after := HandleEvent(db, event, moment);
      && x in after.leads && SameLeadButTime(after.leads[x], StoppedBy(db.leads[x], event.intent))
      && after.leads == db.leads[x := after.leads[x]]
      && after.jobs == CancelPendingForLead(db.jobs, x, moment)
  {
    StopIsStoppedBy(db, x, event.intent, moment);
  }

  lemma {:induction false} OneMoreFirst(jobs: JobTable, events: seq<OutboxEvent>, event: OutboxEvent, l: Id)
    ensures FirstIntent(jobs, events + [event], l) ==
      if FirstIntent(jobs, events, l).Some? then FirstIntent(jobs, events, l)
      else if LeadOf(jobs, event) == Some(l) then Some(event.intent) else None
  {
    assert (events + [event])[..|events|] == events;
  }

  /** The events before this one have left what they should. */
  ghost predicate SoFar(db: Db, events: seq<OutboxEvent>, before: Db) {
    && LinksUnique(db.jobs) && Stoppable(db) && Around(db, before)
    && forall x: Id, k: Id {:trigger RowsAfter(db, events, before, x, k)} :: RowsAfter(db, events, before, x, k)
  }

  lemma {:induction false} OneMoreIdle(
    db: Db, events: seq<OutboxEvent>, before: Db, event: OutboxEvent, moment: Time, l: Id, j: Id)
    requires SoFar(db, events, before)
    requires LeadOf(db.jobs, event).Some? ==> before.leads[LeadOf(db.jobs, event).value].IsStopped()
    requires LeadOf(db.jobs, event).Some? ==> LeadStoppable(db, LeadOf(db.jobs, event).value)
    ensures RowsAfter(db, events + [event], HandleEvent(before, event, moment), l, j)
  {
    SameLinksSameLead(db.jobs, before.jobs, event);
    IdleEvent(before, event, moment);
    OneMoreFirst(db.jobs, events, event, l);
    assert RowsAfter(db, events, before, l, j);
    if j in db.jobs { OneMoreFirst(db.jobs, events, event, db.jobs[j].lead); }
    if LeadOf(db.jobs, event).Some? { assert RowsAfter(db, events, before, LeadOf(db.jobs, event).value, j); }
  }

  lemma {:induction false} OneMoreStop(
    db: Db, events: seq<OutboxEvent>, before: Db, event: OutboxEvent, moment: Time, x: Id, l: Id, j: Id)
    requires SoFar(db, events, before) && LeadOf(db.jobs, event) == Some(x) && LeadStoppable(db, x)
    requires !before.leads[x].IsStopped()
    ensures RowsAfter(db, events + [event], HandleEvent(before, event, moment), l, j)
  {
    SameLinksSameLead(db.jobs, before.jobs, event);
    assert RowsAfter(db, events, before, x, j);
    StoppingEvent(before, event, moment, x);
    OneMoreFirst(db.jobs, events, event, l);
    assert RowsAfter(db, events, before, l, j);
    if j in db.jobs { OneMoreFirst(db.jobs, events, event, db.jobs[j].lead); }
  }

  lemma {:induction false} OneMoreEvent(
    db: Db, events: seq<OutboxEvent>, before: Db, event: OutboxEvent, moment: Time, l: Id, j: Id)
    requires SoFar(db, events, before)
    ensures RowsAfter(db, events + [event], HandleEvent(before, event, moment), l, j)
  {
    var x := LeadOf(db.jobs, event);
    if x.Some? { LinkedLeadIsStoppable(db, event); }
    if x.Some? && !before.leads[x.value].IsStopped() {
      OneMoreStop(db, events, before, event, moment, x.value, l, j);
    } else {
      OneMoreIdle(db, events, before, event, moment, l, j);
    }
  }

  /** Handling events, in closed form: of the replies to one lead the first decides, and the others change nothing. */
  lemma {:induction false} FirstReplyDecides(db: Db, events: seq<OutboxEvent>, moment: Time, l: Id, j: Id)
    requires LinksUnique(db.jobs) && Stoppable(db)
    ensures RowsAfter(db, events, HandleAll(db, events, moment), l, j)
  {
    if events != [] {
      var last := |events| - 1;
      var before := HandleAll(db, events[..last], moment);
      HandleAllAround(db, events[..last], moment);
      forall x: Id, k: Id ensures RowsAfter(db, events[..last], before, x, k) {
        FirstReplyDecides(db, events[..last], moment, x, k);
      }
      OneMoreEvent(db, events[..last], before, events[last], moment, l, j);
      assert events == events[..last] + [events[last]];
    }
  }

  // ---------- Two orders ----------

  ghost predicate SameEvents(xs: seq<OutboxEvent>, ys: seq<OutboxEvent>) {
    forall e :: e in xs <==> e in ys
  }

  /** Both orders answer every lead that can still be stopped with the same intent first. */
  ghost predicate SameFirst(db: Db, xs: seq<OutboxEvent>, ys: seq<OutboxEvent>) {
    forall l :: l in db.leads && !db.leads[l].IsStopped() ==> FirstIntent(db.jobs, xs, l) == FirstIntent(db.jobs, ys, l)
  }

  /** Whether there is a first reply depends on the events only; it is the intent of one of them. */
  lemma {:induction false} FirstIntentIsOne(jobs: JobTable, events: seq<OutboxEvent>, l: Id)
    ensures FirstIntent(jobs, events, l).Some? <==> exists e :: e in events && LeadOf(jobs, e) == Some(l)
    ensures FirstIntent(jobs, events, l).Some? ==>
      exists e :: e in events && LeadOf(jobs, e) == Some(l) && FirstIntent(jobs, events, l) == Some(e.intent)
  {
    if events != [] {
      var last := |events| - 1;
      FirstIntentIsOne(jobs, events[..last], l);
      assert events == events[..last] + [events[last]];
    }
  }

  lemma {:induction false} SameFirstSameTables(db: Db, xs: seq<OutboxEvent>, ys: seq<OutboxEvent>, m: Time, n: Time)
    requires LinksUnique(db.jobs) && Stoppable(db) && SameEvents(xs, ys) && SameFirst(db, xs, ys)
    ensures SameButTimes(HandleAll(db, xs, m), HandleAll(db, ys, n))
  {
    var a, b := HandleAll(db, xs, m), HandleAll(db, ys, n);
    HandleAllAround(db, xs, m);
    HandleAllAround(db, ys, n);
    HandleAllProcesses(db, xs, m);
    HandleAllProcesses(db, ys, n);
    assert a.processed == b.processed;
    forall l | l in db.leads ensures SameLeadButTime(a.leads[l], b.leads[l]) {
      FirstReplyDecides(db, xs, m, l, 0);
      FirstReplyDecides(db, ys, n, l, 0);
    }
    forall j | j in db.jobs ensures SameJobButTime(a.jobs[j], b.jobs[j]) {
      FirstReplyDecides(db, xs, m, 0, j);
      FirstReplyDecides(db, ys, n, 0, j);
    }
  }

  lemma {:induction false} SameTablesSameFirst(db: Db, xs: seq<OutboxEvent>, ys: seq<OutboxEvent>, m: Time, n: Time)
    requires LinksUnique(db.jobs) && Stoppable(db) && SameEvents(xs, ys)
    requires SameButTimes(HandleAll(db, xs, m), HandleAll(db, ys, n))
    ensures SameFirst(db, xs, ys)
  {
    forall l | l in db.leads && !db.leads[l].IsStopped()
      ensures FirstIntent(db.jobs, xs, l) == FirstIntent(db.jobs, ys, l)
    {
      FirstReplyDecides(db, xs, m, l, 0);
      FirstReplyDecides(db, ys, n, l, 0);
      FirstIntentIsOne(db.jobs, xs, l);
      FirstIntentIsOne(db.jobs, ys, l);
    }
  }

  /** Two orders of the same events leave the same tables if and only if each lead's first reply has the same intent. */
  lemma {:induction false} OrderMattersExactly(db: Db, xs: seq<OutboxEvent>, ys: seq<OutboxEvent>, m: Time, n: Time)
    requires LinksUnique(db.jobs) && Stoppable(db) && SameEvents(xs, ys)
    ensures SameButTimes(HandleAll(db, xs, m), HandleAll(db, ys, n)) <==> SameFirst(db, xs, ys)
  {
    if SameFirst(db, xs, ys) {
      SameFirstSameTables(db, xs, ys, m, n);
    }
    if SameButTimes(HandleAll(db, xs, m), HandleAll(db, ys, n)) {
      SameTablesSameFirst(db, xs, ys, m, n);
    }
  }
}
