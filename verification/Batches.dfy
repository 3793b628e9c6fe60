/** However the feed is cut into batches, consuming it is one fold over its events in order. */
module Batches {
  import opened Base
  import opened CampaignDomain
  import opened Replies
  import opened SendQueue
  import opened Tables

  // ---------- Tables that differ in timestamps only ----------

  predicate SameLeadButTime(a: Lead, b: Lead) {
    a.(updatedAt := b.updatedAt) == b
  }

  predicate SameJobButTime(a: SendJob, b: SendJob) {
    a.(updatedAt := b.updatedAt) == b
  }

  /** The same tables, but for the time each lead and job was last written. */
  ghost predicate SameButTimes(a: Db, b: Db) {
    && a.(leads := b.leads, jobs := b.jobs) == b
    && a.leads.Keys == b.leads.Keys && a.jobs.Keys == b.jobs.Keys
    && (forall l :: l in a.leads ==> SameLeadButTime(a.leads[l], b.leads[l]))
    && (forall j :: j in a.jobs ==> SameJobButTime(a.jobs[j], b.jobs[j]))
  }

  lemma {:induction false} SameFindLead(a: Db, b: Db, outbound: Id)
    requires SameButTimes(a, b) && LinksUnique(a.jobs)
    ensures LinksUnique(b.jobs) && FindLead(a.jobs, outbound) == FindLead(b.jobs, outbound)
  {
    forall j ensures LinksTo(a.jobs, j, outbound) <==> LinksTo(b.jobs, j, outbound) {
    }
    if j :| LinksTo(a.jobs, j, outbound) {
      FindLeadOfLink(a.jobs, j, outbound);
      FindLeadOfLink(b.jobs, j, outbound);
    }
  }

  lemma {:induction false} SameStopOnReply(campaign: Campaign, a: Lead, b: Lead, intent: Intent, m: Time, n: Time)
    requires SameLeadButTime(a, b)
    ensures var (x, y) := (campaign.StopOnReply(a, intent, m), campaign.StopOnReply(b, intent, n));
      (x.Success? <==> y.Success?) && (x.Success? ==> SameLeadButTime(x.value, y.value))
  {
  }

  lemma {:induction false} SameStopped(a: Db, b: Db, l: Id, x: Lead, y: Lead, m: Time, n: Time)
    requires SameButTimes(a, b) && SameLeadButTime(x, y)
    ensures SameButTimes(a.(leads := a.leads[l := x], jobs := CancelPendingForLead(a.jobs, l, m)),
                         b.(leads := b.leads[l := y], jobs := CancelPendingForLead(b.jobs, l, n)))
  {
    var after, other := CancelPendingForLead(a.jobs, l, m), CancelPendingForLead(b.jobs, l, n);
    forall j | j in after ensures SameJobButTime(after[j], other[j]) {
      assert SameJobButTime(a.jobs[j], b.jobs[j]);
    }
  }

  lemma {:induction false} SameStopFound(a: Db, b: Db, l: Id, intent: Intent, m: Time, n: Time)
    requires SameButTimes(a, b)
    ensures SameButTimes(StopFoundLead(a, l, intent, m).0, StopFoundLead(b, l, intent, n).0)
  {
    if l in a.leads && a.leads[l].campaign in a.campaigns {
      var (lead, other, campaign) := (a.leads[l], b.leads[l], a.campaigns[a.leads[l].campaign]);
      assert SameLeadButTime(lead, other);
      SameStopOnReply(campaign, lead, other, intent, m, n);
      var (x, y) := (campaign.StopOnReply(lead, intent, m), campaign.StopOnReply(other, intent, n));
      if x.Success? { SameStopped(a, b, l, x.value, y.value, m, n); }
    }
  }

  /** Handling one event moves equal tables to equal tables, whenever it happens. */
  lemma {:induction false} SameHandleEvent(a: Db, b: Db, event: OutboxEvent, m: Time, n: Time)
    requires SameButTimes(a, b) && LinksUnique(a.jobs)
    ensures SameButTimes(HandleEvent(a, event, m), HandleEvent(b, event, n))
  {
    var reply := ToReply(event);
    if reply.matched.Some? {
      SameFindLead(a, b, reply.matched.value);
      var lead := FindLead(a.jobs, reply.matched.value);
      if lead.Some? { SameStopFound(a, b, lead.value, reply.intent, m, n); }
    }
  }

  lemma {:induction false} HandleEventKeepsLinks(db: Db, event: OutboxEvent, moment: Time)
    requires LinksUnique(db.jobs)
    ensures LinksUnique(HandleEvent(db, event, moment).jobs)
  {
    var after := HandleEvent(db, event, moment).jobs;
    assert after.Keys == db.jobs.Keys;
    forall j | j in after ensures after[j].outbound == db.jobs[j].outbound {
    }
  }

  lemma {:induction false} HandleAllKeepsLinks(db: Db, batch: seq<OutboxEvent>, moment: Time)
    requires LinksUnique(db.jobs)
    ensures LinksUnique(HandleAll(db, batch, moment).jobs)
  {
    if batch != [] {
      var last := |batch| - 1;
      HandleAllKeepsLinks(db, batch[..last], moment);
      HandleEventKeepsLinks(HandleAll(db, batch[..last], moment), batch[last], moment);
    }
  }

  lemma {:induction false} SameHandleAll(a: Db, b: Db, batch: seq<OutboxEvent>, m: Time, n: Time)
    requires SameButTimes(a, b) && LinksUnique(a.jobs)
    ensures SameButTimes(HandleAll(a, batch, m), HandleAll(b, batch, n))
  {
    if batch != [] {
      var last := |batch| - 1;
      SameHandleAll(a, b, batch[..last], m, n);
      HandleAllKeepsLinks(a, batch[..last], m);
      SameHandleEvent(HandleAll(a, batch[..last], m), HandleAll(b, batch[..last], n), batch[last], m, n);
    }
  }

  lemma {:induction false} HandleAllAppend(db: Db, front: seq<OutboxEvent>, back: seq<OutboxEvent>, moment: Time)
    ensures HandleAll(db, front + back, moment) == HandleAll(HandleAll(db, front, moment), back, moment)
  {
    if back == [] {
      assert front + back == front;
    } else {
      var last := |back| - 1;
      assert (front + back)[..|front + back| - 1] == front + back[..last];
      HandleAllAppend(db, front, back[..last], moment);
    }
  }

  // ---------- Batches are prefixes of the feed ----------

  ghost predicate Sorted(events: seq<OutboxEvent>) {
    forall i, j :: 0 <= i < j < |events| ==> Before(events[i], events[j])
  }

  /** All the feed has to offer, in its order. */
  ghost predicate IsFeed(db: Db, workspace: Id, pending: seq<OutboxEvent>) {
    Sorted(pending) && forall e :: e in pending <==> InFeed(db, workspace, e)
  }

  lemma {:induction false} SortedPrefix(batch: seq<OutboxEvent>, pending: seq<OutboxEvent>)
    requires Sorted(batch) && Sorted(pending)
    requires forall b :: b in batch ==> b in pending
    requires forall e, b :: e in pending && e !in batch && b in batch ==> Before(b, e)
    ensures batch <= pending
  {
    if batch != [] {
      assert batch[0] in pending;
      assert pending[0] == batch[0] by {
        var p :| 0 <= p < |pending| && pending[p] == batch[0];
        if p > 0 {
          forall q | 0 <= q < |batch| ensures batch[q] != pending[0] {
          }
        }
        assert pending[0] in pending && batch[0] in batch;
      }
      forall b | b in batch[1..] ensures b in pending[1..] {
        assert Before(batch[0], b);
        assert b in pending;
        assert b != pending[0];
        assert pending == [pending[0]] + pending[1..];
      }
      forall e, b | e in pending[1..] && e !in batch[1..] && b in batch[1..] ensures Before(b, e) {
        assert Before(pending[0], e);
        assert e != batch[0];
        assert batch == [batch[0]] + batch[1..];
        assert e in pending && e !in batch && b in batch;
      }
      SortedPrefix(batch[1..], pending[1..]);
      assert batch == [batch[0]] + batch[1..];
    }
  }

  function Min(a: nat, b: nat): nat {
    if a <= b then a else b
  }

  lemma {:induction false} FullBatchIsPrefix(
    db: Db, workspace: Id, limit: nat, batch: seq<OutboxEvent>, pending: seq<OutboxEvent>)
    requires IsFeed(db, workspace, pending) && IsFeedClaim(db, workspace, limit, {}, batch)
    ensures |batch| == Min(limit, |pending|) && batch == pending[..|batch|]
  {
    assert forall b :: b in batch ==> InFeed(db, workspace, b);
    SortedPrefix(batch, pending);
    if |batch| < |pending| {
      var e := pending[|batch|];
      forall q | 0 <= q < |batch| ensures batch[q] != e {
        assert Before(pending[q], pending[|batch|]);
      }
      assert e in pending;
      assert InFeed(db, workspace, e);
    }
  }

  lemma {:induction false} HandleAllProcesses(db: Db, batch: seq<OutboxEvent>, moment: Time)
    ensures var after := HandleAll(db, batch, moment);
      && after.events == db.events
      && forall id :: id in after.processed <==> id in db.processed || exists e :: e in batch && e.id == id
  {
    if batch != [] {
      var last := |batch| - 1;
      HandleAllProcesses(db, batch[..last], moment);
      assert batch == batch[..last] + [batch[last]];
    }
  }

  /** After a batch, the feed offers the rest. */
  lemma {:induction false} RestOfFeed(db: Db, workspace: Id, pending: seq<OutboxEvent>, n: nat, moment: Time)
    requires IsFeed(db, workspace, pending) && DistinctIds(db.events) && n <= |pending|
    ensures IsFeed(HandleAll(db, pending[..n], moment), workspace, pending[n..])
  {
    var after := HandleAll(db, pending[..n], moment);
    HandleAllProcesses(db, pending[..n], moment);
    forall e ensures e in pending[n..] <==> InFeed(after, workspace, e) {
      assert pending == pending[..n] + pending[n..];
      assert e in pending <==> InFeed(db, workspace, e);
      if e in pending[n..] {
        var p :| n <= p < |pending| && pending[p] == e;
        forall d | d in pending[..n] ensures d.id != e.id {
          var q :| 0 <= q < n && pending[q] == d;
          assert Before(pending[q], pending[p]);
          assert d in pending;
          assert InFeed(db, workspace, d);
        }
      }
    }
  }

  // ---------- Any number of runs ----------

  /** One run of the consumer: its limit, the events others hold, what it got, and when it ran. */
  datatype ConsumerRun = ConsumerRun(limit: nat, locked: set<Id>, batch: seq<OutboxEvent>, moment: Time)

  ghost function AfterRuns(db: Db, runs: seq<ConsumerRun>): Db
    decreases |runs|
  {
    if runs == [] then db else AfterRuns(HandleAll(db, runs[0].batch, runs[0].moment), runs[1..])
  }

  ghost predicate AreRuns(db: Db, workspace: Id, runs: seq<ConsumerRun>)
    decreases |runs|
  {
    runs == []
    || (IsFeedClaim(db, workspace, runs[0].limit, runs[0].locked, runs[0].batch)
        && AreRuns(HandleAll(db, runs[0].batch, runs[0].moment), workspace, runs[1..]))
  }

  /** No other consumer holds anything in any of the runs. */
  predicate LockFree(runs: seq<ConsumerRun>) {
    forall i :: 0 <= i < |runs| ==> runs[i].locked == {}
  }

  function Limits(runs: seq<ConsumerRun>): nat {
    if runs == [] then 0 else runs[0].limit + Limits(runs[1..])
  }

  function Handled(runs: seq<ConsumerRun>): seq<OutboxEvent> {
    if runs == [] then [] else runs[0].batch + Handled(runs[1..])
  }

  // ---------- Runs of a lone consumer ----------

  lemma {:induction false} FirstRun(db: Db, workspace: Id, pending: seq<OutboxEvent>, run: ConsumerRun)
    requires LinksUnique(db.jobs) && DistinctIds(db.events) && IsFeed(db, workspace, pending)
    requires IsFeedClaim(db, workspace, run.limit, {}, run.batch)
    ensures var (after, k) := (HandleAll(db, run.batch, run.moment), |run.batch|);
      && k == Min(run.limit, |pending|) && run.batch == pending[..k]
      && IsFeed(after, workspace, pending[k..]) && LinksUnique(after.jobs) && DistinctIds(after.events)
  {
    FullBatchIsPrefix(db, workspace, run.limit, run.batch, pending);
    RestOfFeed(db, workspace, pending, |run.batch|, run.moment);
    HandleAllKeepsLinks(db, run.batch, run.moment);
    HandleAllProcesses(db, run.batch, run.moment);
  }

  /** Alone, runs with any limits, any number of them, handle the first events of the feed, each once and in order. */
  lemma {:induction false} RunsHandleAPrefix(db: Db, workspace: Id, pending: seq<OutboxEvent>, runs: seq<ConsumerRun>)
    requires LinksUnique(db.jobs) && DistinctIds(db.events)
    requires IsFeed(db, workspace, pending) && AreRuns(db, workspace, runs) && LockFree(runs)
    ensures var n := Min(Limits(runs), |pending|);
      Handled(runs) == pending[..n] && IsFeed(AfterRuns(db, runs), workspace, pending[n..])
    decreases |runs|
  {
    if runs == [] {
      assert pending[..0] == [] && pending[0..] == pending;
    } else {
      var after, k := HandleAll(db, runs[0].batch, runs[0].moment), |runs[0].batch|;
      assert runs[0].locked == {};
      FirstRun(db, workspace, pending, runs[0]);
      RunsHandleAPrefix(after, workspace, pending[k..], runs[1..]);
      PrefixThenPrefix(AfterRuns(after, runs[1..]), workspace, pending, runs[0].batch, Handled(runs[1..]),
                       runs[0].limit, Limits(runs[1..]));
    }
  }

  /** A first batch up to one limit, and then as many events as another limit allows, are a prefix up to both. */
  lemma {:induction false} PrefixThenPrefix(
    end: Db, workspace: Id, pending: seq<OutboxEvent>, batch: seq<OutboxEvent>, tail: seq<OutboxEvent>,
    limit: nat, limits: nat)
    requires var k := Min(limit, |pending|);
      && batch == pending[..k] && tail == pending[k..][..Min(limits, |pending[k..]|)]
      && IsFeed(end, workspace, pending[k..][Min(limits, |pending[k..]|)..])
    ensures var n := Min(limit + limits, |pending|);
      batch + tail == pending[..n] && IsFeed(end, workspace, pending[n..])
  {
    var k := Min(limit, |pending|);
    var m := Min(limits, |pending[k..]|);
    TakeTwice(pending, k, m);
    assert Min(limit + limits, |pending|) == k + m;
  }

  // ---------- Runs among other consumers ----------

  /** The tables any runs leave are those of one fold over the events they handled, timestamps aside. */
  lemma {:induction false} RunsAreOneFold(db: Db, workspace: Id, runs: seq<ConsumerRun>, moment: Time)
    requires LinksUnique(db.jobs) && AreRuns(db, workspace, runs)
    ensures SameButTimes(AfterRuns(db, runs), HandleAll(db, Handled(runs), moment))
    decreases |runs|
  {
    if runs == [] {
      SameButTimesReflexive(db);
    } else {
      var batch, at := runs[0].batch, runs[0].moment;
      var after := HandleAll(db, batch, at);
      HandleAllKeepsLinks(db, batch, at);
      RunsAreOneFold(after, workspace, runs[1..], moment);
      FirstRunThenRest(db, batch, Handled(runs[1..]), at, moment, AfterRuns(after, runs[1..]));
    }
  }

  ghost predicate Repeats(events: seq<OutboxEvent>) {
    exists i, j :: 0 <= i < j < |events| && events[i] == events[j]
  }

  /** A batch takes its events out of the feed, and leaves the others in. */
  lemma {:induction false} BatchLeavesFeed(db: Db, workspace: Id, batch: seq<OutboxEvent>, moment: Time, e: OutboxEvent)
    requires DistinctIds(db.events) && IsBatch(db, workspace, batch)
    ensures InFeed(HandleAll(db, batch, moment), workspace, e) <==> InFeed(db, workspace, e) && e !in batch
    ensures HandleAll(db, batch, moment).events == db.events
  {
    HandleAllProcesses(db, batch, moment);
    if InFeed(db, workspace, e) && e.id in HandleAll(db, batch, moment).processed {
      var d :| d in batch && d.id == e.id;
      assert InFeed(db, workspace, d);
    }
  }

  /** Any runs handle events of the feed, each once, and the feed is left with the others. */
  lemma {:induction false} RunsHandleOnce(db: Db, workspace: Id, runs: seq<ConsumerRun>, e: OutboxEvent)
    requires DistinctIds(db.events) && AreRuns(db, workspace, runs)
    ensures e in Handled(runs) ==> InFeed(db, workspace, e)
    ensures InFeed(AfterRuns(db, runs), workspace, e) <==> InFeed(db, workspace, e) && e !in Handled(runs)
    decreases |runs|
  {
    if runs != [] {
      var after := HandleAll(db, runs[0].batch, runs[0].moment);
      BatchLeavesFeed(db, workspace, runs[0].batch, runs[0].moment, e);
      RunsHandleOnce(after, workspace, runs[1..], e);
      if e in runs[0].batch {
        var i :| 0 <= i < |runs[0].batch| && runs[0].batch[i] == e;
        assert InFeed(db, workspace, runs[0].batch[i]);
      }
    }
  }

  lemma {:induction false} RunsRepeatNothing(db: Db, workspace: Id, runs: seq<ConsumerRun>)
    requires DistinctIds(db.events) && AreRuns(db, workspace, runs)
    ensures !Repeats(Handled(runs))
    decreases |runs|
  {
    if runs != [] {
      var batch := runs[0].batch;
      var after, rest := HandleAll(db, batch, runs[0].moment), Handled(runs[1..]);
      HandleAllProcesses(db, batch, runs[0].moment);
      RunsRepeatNothing(after, workspace, runs[1..]);
      forall i, j | 0 <= i < j < |batch + rest| ensures (batch + rest)[i] != (batch + rest)[j] {
        if j < |batch| {
          assert Before(batch[i], batch[j]);
        } else if i < |batch| {
          BatchLeavesFeed(db, workspace, batch, runs[0].moment, batch[i]);
          RunsHandleOnce(after, workspace, runs[1..], batch[i]);
          assert batch[i] in batch && rest[j - |batch|] in rest;
        } else {
          assert rest[i - |batch|] != rest[j - |batch|];
        }
      }
    }
  }

  /** Every event of the feed is handled in some run. */
  ghost predicate Drains(db: Db, workspace: Id, runs: seq<ConsumerRun>) {
    AreRuns(db, workspace, runs) && forall e :: InFeed(db, workspace, e) ==> e in Handled(runs)
  }

  /** A run that meets no lock and gets fewer events than it may leaves nothing behind. */
  lemma {:induction false} ShortRunDrains(db: Db, workspace: Id, runs: seq<ConsumerRun>)
    requires DistinctIds(db.events) && AreRuns(db, workspace, runs) && runs != []
    requires runs[|runs| - 1].locked == {} && |runs[|runs| - 1].batch| < runs[|runs| - 1].limit
    ensures Drains(db, workspace, runs)
    decreases |runs|
  {
    var batch := runs[0].batch;
    var after := HandleAll(db, batch, runs[0].moment);
    HandleAllProcesses(db, batch, runs[0].moment);
    if |runs| > 1 {
      assert runs[1..][|runs[1..]| - 1] == runs[|runs| - 1];
      ShortRunDrains(after, workspace, runs[1..]);
    }
    forall e | InFeed(db, workspace, e) ensures e in Handled(runs) {
      BatchLeavesFeed(db, workspace, batch, runs[0].moment, e);
    }
  }

  lemma {:induction false} TakeTwice(events: seq<OutboxEvent>, k: nat, m: nat)
    requires k + m <= |events|
    ensures events[..k + m] == events[..k] + events[k..][..m] && events[k..][m..] == events[k + m..]
  {
  }

  lemma {:induction false} FirstRunThenRest(
    db: Db, batch: seq<OutboxEvent>, tail: seq<OutboxEvent>, at: Time, moment: Time, end: Db)
    requires LinksUnique(db.jobs)
    requires SameButTimes(end, HandleAll(HandleAll(db, batch, at), tail, moment))
    ensures SameButTimes(end, HandleAll(db, batch + tail, moment))
  {
    SameButTimesReflexive(db);
    SameHandleAll(db, db, batch, at, moment);
    HandleAllKeepsLinks(db, batch, at);
    SameHandleAll(HandleAll(db, batch, at), HandleAll(db, batch, moment), tail, moment, moment);
    HandleAllAppend(db, batch, tail, moment);
    SameTwice(end, HandleAll(HandleAll(db, batch, at), tail, moment), HandleAll(db, batch + tail, moment));
  }

  lemma {:induction false} SameButTimesReflexive(db: Db)
    ensures SameButTimes(db, db)
  {
  }

  lemma {:induction false} SameTwice(a: Db, b: Db, c: Db)
    requires SameButTimes(a, b) && SameButTimes(b, c)
    ensures SameButTimes(a, c)
  {
  }
}
