/** The consumer, from any reachable state: how the feed is cut and shared out, and when that can matter. */
module ConsumerTheorems {
  import opened Base
  import opened Batches
  import opened Invariant
  import opened Machine
  import opened QueueKeeps
  import opened Replies
  import opened ReplyOrder
  import opened SendQueue
  import opened Tables

  function Insert(list: seq<OutboxEvent>, e: OutboxEvent): seq<OutboxEvent> {
    if list == [] then [e]
    else if Before(e, list[0]) then [e] + list
    else [list[0]] + Insert(list[1..], e)
  }

  lemma {:induction false} InsertSorts(list: seq<OutboxEvent>, e: OutboxEvent)
    requires Sorted(list) && forall i :: 0 <= i < |list| ==> list[i].id != e.id
    ensures Sorted(Insert(list, e))
    ensures forall d :: d in Insert(list, e) <==> d == e || d in list
  {
    if list != [] && !Before(e, list[0]) {
      InsertSorts(list[1..], e);
      var tail := Insert(list[1..], e);
      assert list == [list[0]] + list[1..];
      forall j | 0 <= j < |tail| ensures Before(list[0], tail[j]) {
        assert tail[j] in tail;
      }
    }
  }

  /** Any set of events with different identifiers can be listed in feed order. */
  lemma {:induction false} Listing(events: set<OutboxEvent>) returns (list: seq<OutboxEvent>)
    requires forall a, b :: a in events && b in events && a.id == b.id ==> a == b
    ensures Sorted(list) && forall e :: e in list <==> e in events
    decreases |events|
  {
    if events == {} {
      list := [];
    } else {
      var e :| e in events;
      var rest := Listing(events - {e});
      forall i | 0 <= i < |rest| ensures rest[i].id != e.id {
        assert rest[i] in rest;
      }
      InsertSorts(rest, e);
      list := Insert(rest, e);
    }
  }

  /** The outbox of a reachable state names each event once, and no message is linked twice. */
  lemma {:induction false} ReachableFeed(s: Sys)
    requires Inv(s)
    ensures LinksUnique(s.db.jobs) && DistinctIds(s.db.events)
  {
    forall a, b | a in s.db.events && b in s.db.events && a.id == b.id ensures a == b {
      var i :| 0 <= i < |s.db.events| && s.db.events[i] == a;
      var k :| 0 <= k < |s.db.events| && s.db.events[k] == b;
      assert i == k;
    }
  }

  /** In a reachable state every lead behind a message can be stopped, or is already. */
  lemma {:induction false} ReachableStoppable(s: Sys)
    requires Inv(s)
    ensures Stoppable(s.db)
  {
    forall j | j in s.db.jobs && s.db.jobs[j].outbound.Some? ensures LeadStoppable(s.db, s.db.jobs[j].lead) {
      FindLeadOfLink(s.db.jobs, j, s.db.jobs[j].outbound.value);
      LinkedLeadWasSentTo(s, s.db.jobs[j].outbound.value);
    }
  }

  /** The feed of a reachable state, in its order. */
  lemma {:induction false} FeedOf(s: Sys, workspace: Id) returns (pending: seq<OutboxEvent>)
    requires Inv(s)
    ensures IsFeed(s.db, workspace, pending)
  {
    ReachableFeed(s);
    pending := Listing(set e | e in s.db.events && InFeed(s.db, workspace, e));
  }

  // ---------- Any runs ----------

  /**
   From any reachable state, runs with any limits, whatever events other consumers hold, handle events of the feed, each
   once, acknowledge them, leave the rest of the feed, and leave the tables of one fold over what they handled.
   */
  lemma {:induction false} BatchesDoNotMatter(s: Sys, workspace: Id, runs: seq<ConsumerRun>, moment: Time)
    requires Inv(s) && AreRuns(s.db, workspace, runs)
    ensures !Repeats(Handled(runs)) && forall e :: e in Handled(runs) ==> InFeed(s.db, workspace, e)
    ensures forall e :: InFeed(AfterRuns(s.db, runs), workspace, e) <==>
      InFeed(s.db, workspace, e) && e !in Handled(runs)
    ensures SameButTimes(AfterRuns(s.db, runs), HandleAll(s.db, Handled(runs), moment))
  {
    ReachableFeed(s);
    RunsRepeatNothing(s.db, workspace, runs);
    RunsAreOneFold(s.db, workspace, runs, moment);
    forall e
      ensures e in Handled(runs) ==> InFeed(s.db, workspace, e)
      ensures InFeed(AfterRuns(s.db, runs), workspace, e) <==> InFeed(s.db, workspace, e) && e !in Handled(runs)
    {
      RunsHandleOnce(s.db, workspace, runs, e);
    }
  }

  /** A lone consumer's runs, with any limits, handle the first events of the feed, in order. */
  lemma {:induction false} LoneConsumerKeepsOrder(s: Sys, workspace: Id, runs: seq<ConsumerRun>)
    returns (pending: seq<OutboxEvent>)
    requires Inv(s) && AreRuns(s.db, workspace, runs) && LockFree(runs)
    ensures IsFeed(s.db, workspace, pending)
    ensures Handled(runs) == pending[..Min(Limits(runs), |pending|)]
  {
    ReachableFeed(s);
    pending := FeedOf(s, workspace);
    RunsHandleAPrefix(s.db, workspace, pending, runs);
  }

  /** So two ways of cutting the feed that reach equally far agree, when nobody holds an event. */
  lemma {:induction false} AnyTwoCutsAgree(s: Sys, workspace: Id, runs: seq<ConsumerRun>, others: seq<ConsumerRun>)
    requires Inv(s) && AreRuns(s.db, workspace, runs) && AreRuns(s.db, workspace, others)
    requires LockFree(runs) && LockFree(others) && Limits(runs) == Limits(others)
    ensures Handled(runs) == Handled(others)
    ensures SameButTimes(AfterRuns(s.db, runs), AfterRuns(s.db, others))
  {
    var pending := LoneConsumerKeepsOrder(s, workspace, runs);
    ReachableFeed(s);
    RunsHandleAPrefix(s.db, workspace, pending, others);
    SameHandledEndAlike(s, workspace, runs, others);
  }

  lemma {:induction false} SameHandledEndAlike(
    s: Sys, workspace: Id, runs: seq<ConsumerRun>, others: seq<ConsumerRun>)
    requires Inv(s) && AreRuns(s.db, workspace, runs) && AreRuns(s.db, workspace, others)
    requires Handled(runs) == Handled(others)
    ensures SameButTimes(AfterRuns(s.db, runs), AfterRuns(s.db, others))
  {
    RunsEndAsFold(s, workspace, runs, others);
    SameAsItself(HandleAll(s.db, Handled(runs), 0));
  }

  lemma {:induction false} SameAsItself(db: Db)
    ensures SameButTimes(db, db)
  {
  }

  /** Runs end alike if and only if the folds over what they handled do. */
  lemma {:induction false} RunsEndAsFold(s: Sys, workspace: Id, runs: seq<ConsumerRun>, others: seq<ConsumerRun>)
    requires Inv(s) && AreRuns(s.db, workspace, runs) && AreRuns(s.db, workspace, others)
    ensures SameButTimes(AfterRuns(s.db, runs), AfterRuns(s.db, others)) <==>
      SameButTimes(HandleAll(s.db, Handled(runs), 0), HandleAll(s.db, Handled(others), 0))
  {
    ReachableFeed(s);
    var (a, b) := (AfterRuns(s.db, runs), AfterRuns(s.db, others));
    var (x, y) := (HandleAll(s.db, Handled(runs), 0), HandleAll(s.db, Handled(others), 0));
    RunsAreOneFold(s.db, workspace, runs, 0);
    RunsAreOneFold(s.db, workspace, others, 0);
    SameReversed(a, x);
    SameReversed(b, y);
    if SameButTimes(a, b) {
      SameTwice(x, a, b);
      SameTwice(x, b, y);
    }
    if SameButTimes(x, y) {
      SameTwice(a, x, y);
      SameTwice(a, y, b);
    }
  }

  /**
   Runs that handled the same events, in whatever order locks let them, leave the same tables if and only if the first
   reply they handled to each lead that could still be stopped has the same intent.
   */
  lemma {:induction false} SkippedEventsMatterExactly(
    s: Sys, workspace: Id, runs: seq<ConsumerRun>, others: seq<ConsumerRun>)
    requires Inv(s) && AreRuns(s.db, workspace, runs) && AreRuns(s.db, workspace, others)
    requires SameEvents(Handled(runs), Handled(others))
    ensures SameButTimes(AfterRuns(s.db, runs), AfterRuns(s.db, others)) <==>
      SameFirst(s.db, Handled(runs), Handled(others))
  {
    ReachableFeed(s);
    ReachableStoppable(s);
    RunsEndAsFold(s, workspace, runs, others);
    OrderMattersExactly(s.db, Handled(runs), Handled(others), 0, 0);
  }

  // ---------- Feeds whose order cannot matter ----------

  /** Two replies that wait for the same lead, and would stop it for different intents. */
  ghost predicate Disagree(db: Db, workspace: Id, a: OutboxEvent, b: OutboxEvent) {
    && InFeed(db, workspace, a) && InFeed(db, workspace, b) && a.intent != b.intent
    && LeadOf(db.jobs, a).Some? && LeadOf(db.jobs, a) == LeadOf(db.jobs, b)
    && LeadOf(db.jobs, a).value in db.leads && !db.leads[LeadOf(db.jobs, a).value].IsStopped()
  }

  lemma {:induction false} AgreeingFeedsSameFirst(s: Sys, workspace: Id, xs: seq<OutboxEvent>, ys: seq<OutboxEvent>)
    requires forall a, b :: !Disagree(s.db, workspace, a, b)
    requires SameEvents(xs, ys) && forall e :: e in xs ==> InFeed(s.db, workspace, e)
    ensures SameFirst(s.db, xs, ys)
  {
    forall l | l in s.db.leads && !s.db.leads[l].IsStopped()
      ensures FirstIntent(s.db.jobs, xs, l) == FirstIntent(s.db.jobs, ys, l)
    {
      FirstIntentIsOne(s.db.jobs, xs, l);
      FirstIntentIsOne(s.db.jobs, ys, l);
      if FirstIntent(s.db.jobs, xs, l).Some? {
        var a :| a in xs && LeadOf(s.db.jobs, a) == Some(l) && FirstIntent(s.db.jobs, xs, l) == Some(a.intent);
        assert a in ys;
        var b :| b in ys && LeadOf(s.db.jobs, b) == Some(l) && FirstIntent(s.db.jobs, ys, l) == Some(b.intent);
        assert b in xs;
        assert !Disagree(s.db, workspace, a, b);
      }
    }
  }

  /** A run that finds every other event held takes just this one. */
  lemma {:induction false} OneEventRun(db: Db, workspace: Id, e: OutboxEvent)
    requires DistinctIds(db.events) && InFeed(db, workspace, e)
    ensures IsFeedClaim(db, workspace, 1, set d | d in db.events && d != e :: d.id, [e])
  {
  }

  /** The rest of the feed, in one run nobody disturbs. */
  lemma {:induction false} RestInOneRun(db: Db, workspace: Id) returns (run: ConsumerRun)
    requires DistinctIds(db.events)
    ensures run.locked == {} && IsFeedClaim(db, workspace, run.limit, {}, run.batch)
    ensures forall e :: e in run.batch <==> InFeed(db, workspace, e)
  {
    var batch := Listing(set e | e in db.events && InFeed(db, workspace, e));
    run := ConsumerRun(|batch|, {}, batch, 0);
    forall i | 0 <= i < |batch| ensures InFeed(db, workspace, batch[i]) {
      assert batch[i] in batch;
    }
  }

  /** Any event of the feed can be the first to be handled, on the way to draining it. */
  lemma {:induction false} AnyEventCanComeFirst(db: Db, workspace: Id, e: OutboxEvent) returns (runs: seq<ConsumerRun>)
    requires DistinctIds(db.events) && InFeed(db, workspace, e)
    ensures Drains(db, workspace, runs) && Handled(runs) != [] && Handled(runs)[0] == e
  {
    OneEventRun(db, workspace, e);
    var first := ConsumerRun(1, set d | d in db.events && d != e :: d.id, [e], 0);
    var after := HandleAll(db, [e], 0);
    HandleAllProcesses(db, [e], 0);
    var rest := RestInOneRun(after, workspace);
    runs := [first, rest];
    assert runs[1..] == [rest] && [rest][1..] == [];
    assert Handled([]) == [] && Handled([rest]) == rest.batch && Handled(runs) == [e] + rest.batch;
    assert AreRuns(HandleAll(after, rest.batch, rest.moment), workspace, []);
    assert AreRuns(after, workspace, [rest]);
    forall d | InFeed(db, workspace, d) ensures d in Handled(runs) {
      BatchLeavesFeed(db, workspace, [e], 0, d);
    }
  }

  lemma {:induction false} FirstOfFirst(jobs: JobTable, events: seq<OutboxEvent>, l: Id)
    requires events != [] && LeadOf(jobs, events[0]) == Some(l)
    ensures FirstIntent(jobs, events, l) == Some(events[0].intent)
  {
    if |events| == 1 {
      assert events[..0] == [];
    } else {
      FirstOfFirst(jobs, events[..|events| - 1], l);
    }
  }

  /**
   However consumers share out the feed of a reachable state, draining it leaves the same tables, if and only if no two
   waiting replies would stop one lead for different intents.
   */
  lemma {:induction false} SharingMattersExactly(s: Sys, workspace: Id)
    requires Inv(s)
    ensures (forall a, b :: !Disagree(s.db, workspace, a, b)) <==>
      (forall runs, others :: Drains(s.db, workspace, runs) && Drains(s.db, workspace, others) ==>
         SameButTimes(AfterRuns(s.db, runs), AfterRuns(s.db, others)))
  {
    if forall a, b :: !Disagree(s.db, workspace, a, b) {
      forall runs, others | Drains(s.db, workspace, runs) && Drains(s.db, workspace, others)
        ensures SameButTimes(AfterRuns(s.db, runs), AfterRuns(s.db, others))
      {
        DrainsOfAgreeingFeed(s, workspace, runs, others);
      }
    } else {
      var a, b :| Disagree(s.db, workspace, a, b);
      var runs, others := DisagreeingDrains(s, workspace, a, b);
    }
  }

  lemma {:induction false} DrainedAlike(s: Sys, workspace: Id, runs: seq<ConsumerRun>, others: seq<ConsumerRun>)
    requires Inv(s) && Drains(s.db, workspace, runs) && Drains(s.db, workspace, others)
    ensures SameEvents(Handled(runs), Handled(others))
    ensures forall e :: e in Handled(runs) ==> InFeed(s.db, workspace, e)
  {
    BatchesDoNotMatter(s, workspace, runs, 0);
    BatchesDoNotMatter(s, workspace, others, 0);
  }

  lemma {:induction false} DrainsOfAgreeingFeed(s: Sys, workspace: Id, runs: seq<ConsumerRun>, others: seq<ConsumerRun>)
    requires Inv(s) && Drains(s.db, workspace, runs) && Drains(s.db, workspace, others)
    requires forall a, b :: !Disagree(s.db, workspace, a, b)
    ensures SameButTimes(AfterRuns(s.db, runs), AfterRuns(s.db, others))
  {
    DrainedAlike(s, workspace, runs, others);
    AgreeingFeedsSameFirst(s, workspace, Handled(runs), Handled(others));
    SkippedEventsMatterExactly(s, workspace, runs, others);
  }

  lemma {:induction false} DisagreeingDrains(s: Sys, workspace: Id, a: OutboxEvent, b: OutboxEvent)
    returns (runs: seq<ConsumerRun>, others: seq<ConsumerRun>)
    requires Inv(s) && Disagree(s.db, workspace, a, b)
    ensures Drains(s.db, workspace, runs) && Drains(s.db, workspace, others)
    ensures !SameButTimes(AfterRuns(s.db, runs), AfterRuns(s.db, others))
  {
    ReachableFeed(s);
    runs := AnyEventCanComeFirst(s.db, workspace, a);
    others := AnyEventCanComeFirst(s.db, workspace, b);
    DrainedAlike(s, workspace, runs, others);
    var l := LeadOf(s.db.jobs, a).value;
    FirstOfFirst(s.db.jobs, Handled(runs), l);
    FirstOfFirst(s.db.jobs, Handled(others), l);
    assert FirstIntent(s.db.jobs, Handled(runs), l) != FirstIntent(s.db.jobs, Handled(others), l);
    SkippedEventsMatterExactly(s, workspace, runs, others);
  }

  lemma {:induction false} SameReversed(a: Db, b: Db)
    requires SameButTimes(a, b)
    ensures SameButTimes(b, a)
  {
    forall l | l in b.leads ensures SameLeadButTime(b.leads[l], a.leads[l]) {
      assert SameLeadButTime(a.leads[l], b.leads[l]);
    }
    forall j | j in b.jobs ensures SameJobButTime(b.jobs[j], a.jobs[j]) {
      assert SameJobButTime(a.jobs[j], b.jobs[j]);
    }
  }
}
