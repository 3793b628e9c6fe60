/** One tick of the Python worker: poll the inbox, consume classified replies, drain the queue. */
module Worker {
  import opened Base
  import opened CampaignHandlers
  import opened ConsumerTheorems
  import opened Drivers
  import opened Invariant
  import opened Machine
  import opened MessagingHandlers
  import opened Reachable
  import opened Repositories
  import opened SendQueue
  import opened Sending
  import opened Tables
  import Inbox
  import Replies

  const SEND_BATCH_SIZE := 10
  const REPLY_BATCH_SIZE := 50

  /** A stage that raises is rolled back, and the tick goes on with the next one. */
  datatype TickInput = TickInput(
    pollRaises: bool,
    inputs: seq<Inbox.PollInput>,
    cursor: string,
    repliesRaise: bool,
    lockedEvents: set<Id>,
    repliesAt: Time,
    drains: bool,
    lockedJobs: set<Id>,
    claimAt: Time,
    calls: seq<Call>)

  /** The run so far led from `s` to the committed tables. */
  ghost predicate Ran(s: Sys, t: Sys, ops: seq<Op>, committed: Db) {
    IsRun(s, ops) && t == Exec(s, ops) && t.db == committed
  }

  /** One more operation at the end of a run. */
  lemma {:induction false} RanOne(s: Sys, t: Sys, ops: seq<Op>, op: Op)
    requires Inv(s) && Ran(s, t, ops, t.db) && Enabled(t, op)
    ensures Ran(s, Apply(t, op), ops + [op], Apply(t, op).db)
  {
    RunCons(t, op, []);
    assert [op] + [] == [op];
    RunAppend(s, ops, [op]);
  }

  /** Without a mailbox there is nothing to poll. */
  method PollInbox(store: Database, workspace: Id, tick: TickInput, ghost s: Sys)
    returns (polled: bool, ghost t: Sys, ghost ops: seq<Op>)
    requires s.db == store.committed && Inv(s)
    modifies store
    ensures Ran(s, t, ops, store.committed) && t.clock == s.clock
    ensures polled <==> workspace in s.db.mailboxes && !tick.pollRaises
    ensures !polled ==> ops == []
    ensures polled ==> |ops| == 1 && ops[0].PollInbox? && ops[0].workspace == workspace
    ensures polled ==> ops[0].inputs == tick.inputs && ops[0].cursor == tick.cursor
  {
    polled, t, ops := false, s, [];
    var session := new Session(store.committed);
    var gateway := new MailboxGateway(session);
    var mailbox := gateway.GetByWorkspace(workspace);
    if mailbox.None? || tick.pollRaises { return; }
    InvHasKeys(s);
    var handler := new PollInboxHandler(session);
    ghost var candidates;
    var result;
    result, candidates := handler.RunOnce(workspace, mailbox.value.id, tick.inputs, tick.cursor);
    store.committed := session.tables;
    ghost var op := Op.PollInbox(workspace, candidates, tick.inputs, tick.cursor);
    RanOne(s, s, [], op);
    polled, t, ops := true, Apply(s, op), [] + [op];
  }

  method DispatchClassifiedReplies(store: Database, workspace: Id, tick: TickInput, ghost s: Sys)
    returns (stopped: seq<Id>, ghost t: Sys, ghost ops: seq<Op>)
    requires s.db == store.committed && Inv(s) && s.clock <= tick.repliesAt
    modifies store
    ensures Ran(s, t, ops, store.committed) && t.clock <= tick.repliesAt
    ensures tick.repliesRaise ==> ops == []
    ensures !tick.repliesRaise ==>
      && |ops| == 1 && ops[0].HandleReplies? && ops[0].workspace == workspace && ops[0].moment == tick.repliesAt
      && Replies.IsFeedClaim(s.db, workspace, 50, tick.lockedEvents, ops[0].batch)
  {
    stopped, t, ops := [], s, [];
    if tick.repliesRaise { return; }
    InvHasKeys(s);
    ReachableFeed(s);
    var session := new Session(store.committed);
    var handler := new HandleClassifiedRepliesHandler(session);
    ghost var batch;
    var leads;
    leads, batch := handler.RunOnce(workspace, REPLY_BATCH_SIZE, tick.lockedEvents, tick.repliesAt);
    store.committed := session.tables;
    ghost var op := HandleReplies(workspace, batch, tick.repliesAt);
    RanOne(s, s, [], op);
    stopped := seq(|leads|, i requires 0 <= i < |leads| => leads[i].id);
    t, ops := Apply(s, op), [] + [op];
  }

  /** The states between the stages of a tick, and the run of each stage. `others` and `more` are what others commit. */
  datatype Stages = Stages(
    polls: seq<Op>, polled: Sys, others: seq<Op>, first: Sys, replies: seq<Op>, replied: Sys,
    more: seq<Op>, second: Sys, sends: seq<Op>)
  {
    function Ops(): seq<Op> {
      polls + others + replies + more + sends
    }

    ghost predicate Lead(s: Sys, t: Sys) {
      && Leads(s, polls, polled) && Leads(polled, others, first) && Leads(first, replies, replied)
      && Leads(replied, more, second) && Leads(second, sends, t)
    }
  }

  ghost predicate Leads(s: Sys, ops: seq<Op>, t: Sys) {
    IsRun(s, ops) && t == Exec(s, ops)
  }

  lemma {:induction false} LeadsOn(s: Sys, a: seq<Op>, t: Sys, b: seq<Op>, u: Sys)
    requires Leads(s, a, t) && Leads(t, b, u)
    ensures Leads(s, a + b, u)
  {
    RunAppend(s, a, b);
  }

  lemma {:induction false} StagesAreARun(s: Sys, stages: Stages, t: Sys)
    requires stages.Lead(s, t)
    ensures Leads(s, stages.Ops(), t)
  {
    var Stages(polls, polled, others, first, replies, replied, more, second, sends) := stages;
    LeadsOn(s, polls, polled, others, first);
    LeadsOn(s, polls + others, first, replies, replied);
    LeadsOn(s, polls + others + replies, replied, more, second);
    LeadsOn(s, polls + others + replies + more, second, sends, t);
  }

  /** The poll stage: one poll of this mailbox, or none. */
  ghost predicate PollStage(workspace: Id, tick: TickInput, polled: bool, ops: seq<Op>) {
    if !polled then ops == []
    else |ops| == 1 && ops[0].PollInbox? && ops[0].workspace == workspace && ops[0].inputs == tick.inputs
         && ops[0].cursor == tick.cursor
  }

  /** The reply stage: the first fifty events that nobody holds, in one run, or none. */
  ghost predicate ReplyStage(workspace: Id, tick: TickInput, s: Sys, ops: seq<Op>) {
    if tick.repliesRaise then ops == []
    else |ops| == 1 && ops[0].HandleReplies? && ops[0].workspace == workspace && ops[0].moment == tick.repliesAt
         && Replies.IsFeedClaim(s.db, workspace, 50, tick.lockedEvents, ops[0].batch)
  }

  /** The send stage: ten due jobs claimed, and each processed in turn until a call is lost. */
  ghost predicate SendStage(
    workspace: Id, worker: Id, tick: TickInput, s: Sys, t: Sys, ops: seq<Op>, claims: seq<ClaimedSendJob>,
    outcomes: seq<Outcome>)
  {
    && IsClaim(s.db.jobs, workspace, 10, tick.claimAt, tick.lockedJobs, ClaimedIds(claims))
    && [ClaimJobs(workspace, worker, IdSet(ClaimedIds(claims)), tick.claimAt)] <= ops
    && Drained(s, t, ops, claims, seq(|outcomes|, k requires 0 <= k < |outcomes| => Some(Settled(outcomes[k]))))
    && (|outcomes| < |claims| ==>
          |outcomes| == |tick.calls| || (|outcomes| < |tick.calls| && tick.calls[|outcomes|].lost))
  }

  method SendDue(store: Database, workspace: Id, worker: Id, tick: TickInput, ghost s: Sys)
    returns (claims: seq<ClaimedSendJob>, outcomes: seq<Outcome>, ghost t: Sys, ghost ops: seq<Op>)
    requires s.db == store.committed && Inv(s) && s.clock <= tick.claimAt && Ordered(tick.claimAt, tick.calls)
    modifies store
    ensures Leads(s, ops, t) && t.db == store.committed && Inv(t)
    ensures SendStage(workspace, worker, tick, s, t, ops, claims, outcomes)
  {
    ghost var fates;
    claims, outcomes, t, ops, fates :=
      DrainSendJobs(store, workspace, worker, SEND_BATCH_SIZE, tick.claimAt, tick.lockedJobs, tick.calls, s);
    ExecKeeps(s, ops);
    assert fates == seq(|outcomes|, k requires 0 <= k < |outcomes| => Some(Settled(outcomes[k])));
  }

  /**
   A tick is a run of the machine: the poll, the replies and the sends in turn, whichever of them raise, and whatever
   others commit between them.
   */
  method Tick(store: Database, workspace: Id, worker: Id, tick: TickInput, ghost s: Sys)
    returns (polled: bool, claims: seq<ClaimedSendJob>, outcomes: seq<Outcome>, ghost t: Sys, ghost stages: Stages)
    requires s.db == store.committed && Inv(s)
    requires s.clock <= tick.repliesAt <= tick.claimAt && Ordered(tick.claimAt, tick.calls)
    modifies store
    ensures stages.Lead(s, t) && Ran(s, t, stages.Ops(), store.committed) && Inv(t)
    ensures polled <==> workspace in old(store.committed).mailboxes && !tick.pollRaises
    ensures PollStage(workspace, tick, polled, stages.polls)
    ensures ReplyStage(workspace, tick, stages.first, stages.replies)
    ensures tick.drains ==> SendStage(workspace, worker, tick, stages.second, t, stages.sends, claims, outcomes)
    ensures !tick.drains ==> stages.more == [] && stages.sends == [] && claims == []
  {
    ghost var polls, others, first, replies, replied, more, second, sends;
    claims, outcomes := [], [];
    polled, t, polls := PollInbox(store, workspace, tick, s);
    ghost var afterPoll := t;
    ExecKeeps(s, polls);
    first, others := OthersCommit(store, t, {}, tick.repliesAt);
    var stopped;
    stopped, replied, replies := DispatchClassifiedReplies(store, workspace, tick, first);
    ExecKeeps(first, replies);
    t, second, more, sends := replied, replied, [], [];
    if tick.drains {
      second, more := OthersCommit(store, replied, {}, tick.claimAt);
      claims, outcomes, t, sends := SendDue(store, workspace, worker, tick, second);
    }
    stages := Stages(polls, afterPoll, others, first, replies, replied, more, second, sends);
    StagesAreARun(s, stages, t);
  }
}
