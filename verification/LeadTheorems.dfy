/** What holds of a lead, its jobs and its sends in every reachable state. */
module LeadTheorems {
  import opened Base
  import opened CampaignDomain
  import opened Evolution
  import opened Invariant
  import opened Machine
  import opened ProcessKeeps
  import opened ProcessingKeeps
  import opened QueueKeeps
  import opened Reachable
  import opened SendQueue
  import opened Sending
  import opened Tables
  import Replies
  import Text

  // ---------- The coupling of leads and jobs ----------

  function LiveJobs(s: Sys, l: Id): set<Id> {
    set j | j in s.db.jobs && s.db.jobs[j].lead == l && s.db.jobs[j].IsLive()
  }

  /** A live job always stands at the step after the last one sent. */
  lemma {:induction false} LiveJobIsNext(s: Sys, l: Id, j: Id)
    requires Inv(s) && l in s.db.leads && j in LiveJobs(s, l)
    ensures s.db.jobs[j].payload.stepPosition == s.db.leads[l].stepsSent + 1
    ensures l in s.leadLogs && s.db.leads[l].stepsSent < |s.leadLogs[l].jobs|
    ensures j == s.leadLogs[l].jobs[s.db.leads[l].stepsSent]
    ensures s.db.leads[l].IsStopped() ==> s.db.jobs[j].status.Running?
    ensures s.db.leads[l].IsStopped() || s.db.leads[l].IsSendable()
  {
    assert JobRowOk(s, j);
    assert LeadRowOk(s, l);
  }

  /** A scheduled or sent lead has exactly one live job, at its next step; a pending or done lead has none. */
  lemma {:induction false} LeadJobCoupling(s: Sys, l: Id)
    requires Inv(s) && l in s.db.leads
    ensures var lead, live := s.db.leads[l], LiveJobs(s, l);
      && (lead.IsSendable() ==> exists j :: live == {j} && s.db.jobs[j].payload.stepPosition == lead.stepsSent + 1)
      && (lead.state.Pending? || lead.state.Done? ==> live == {})
      && (lead.IsStopped() ==> |live| <= 1 && forall j :: j in live ==> s.db.jobs[j].status.Running?)
  {
    var lead, live := s.db.leads[l], LiveJobs(s, l);
    assert LeadRowOk(s, l);
    forall j | j in live
      ensures s.db.jobs[j].payload.stepPosition == lead.stepsSent + 1
      ensures lead.stepsSent < |s.leadLogs[l].jobs| && j == s.leadLogs[l].jobs[lead.stepsSent]
      ensures lead.IsStopped() ==> s.db.jobs[j].status.Running?
      ensures lead.IsStopped() || lead.IsSendable()
    {
      LiveJobIsNext(s, l, j);
    }
    if lead.IsSendable() {
      assert SlotOk(s, l, lead.stepsSent);
      var j := s.leadLogs[l].jobs[lead.stepsSent];
      assert JobRowOk(s, j);
      assert live == {j};
    } else if live != {} {
      var j :| j in live;
      assert live == {j};
    }
  }

  /** Processing a claim of a stopped lead's job refuses it or cancels it. */
  lemma {:induction false} StoppedJobProcessed(s: Sys, j: Id, index: nat, byId: bool, moment: Time, env: SendEnv)
    requires Inv(s) && Enabled(s, ProcessToken(j, index, byId, moment, env))
    requires j in s.db.jobs && s.db.jobs[j].lead in s.db.leads && s.db.leads[s.db.jobs[j].lead].IsStopped()
    ensures var after := Process(s, j, index, byId, moment, env).db.jobs;
      j in after && (after[j].status == s.db.jobs[j].status || after[j].status.Cancelled?)
  {
    ClaimIsSettling(s, j, index, byId);
    assert JobRowOk(s, j);
    if ClaimInHand(s, j, index, byId).Some? {
      var claim := ClaimInHand(s, j, index, byId).value;
      AcceptedJobIsLive(s, j, claim);
      ProcessedJobs(s.db, claim, moment, env, j);
    }
  }

  /** One operation takes a running job of a stopped lead nowhere but to cancelled. */
  lemma {:induction false} StoppedJobStep(s: Sys, op: Op, j: Id)
    requires Inv(s) && Enabled(s, op) && j in s.db.jobs && s.db.jobs[j].lead in s.db.leads
    requires s.db.leads[s.db.jobs[j].lead].IsStopped()
    requires s.db.jobs[j].status in {JobStatus.Running, JobStatus.Cancelled}
    ensures j in Apply(s, op).db.jobs && Apply(s, op).db.jobs[j].status in {JobStatus.Running, JobStatus.Cancelled}
  {
    if op.ProcessToken? && op.job == j {
      StoppedJobProcessed(s, j, op.index, op.byId, op.moment, op.env);
    } else {
      ApplyRows(s, op, j);
    }
  }

  /** Over a whole run, a running job of a stopped lead can only end cancelled. */
  lemma {:induction false} StoppedJobEndsCancelled(s: Sys, ops: seq<Op>, j: Id)
    requires Inv(s) && IsRun(s, ops) && j in s.db.jobs && s.db.jobs[j].lead in s.db.leads
    requires s.db.leads[s.db.jobs[j].lead].IsStopped()
    requires s.db.jobs[j].status in {JobStatus.Running, JobStatus.Cancelled}
    ensures j in Exec(s, ops).db.jobs && Exec(s, ops).db.jobs[j].status in {JobStatus.Running, JobStatus.Cancelled}
    decreases |ops|
  {
    if ops != [] {
      var l := s.db.jobs[j].lead;
      StoppedJobStep(s, ops[0], j);
      ApplyRowsEvolve(s, ops[0]);
      assert JobEvolves(s, Apply(s, ops[0]), j) && LeadEvolves(s, Apply(s, ops[0]), l);
      ApplyKeeps(s, ops[0]);
      StoppedJobEndsCancelled(Apply(s, ops[0]), ops[1..], j);
    }
  }

  // ---------- Sends ----------

  /** The sends of a lead are steps 1, 2, ..., once each and in order, each from the job of that step. */
  lemma {:induction false} SendsAreStepsInOrder(s: Sys, l: Id, k: nat)
    requires Inv(s) && l in s.db.leads
    ensures l in s.leadLogs && |s.leadLogs[l].sends| == s.db.leads[l].stepsSent
    ensures k < |s.leadLogs[l].sends| ==>
      var record := s.leadLogs[l].sends[k];
      && record.position == k + 1
      && record.job in s.db.jobs && s.db.jobs[record.job].lead == l
      && s.db.jobs[record.job].payload.stepPosition == k + 1
      && s.db.jobs[record.job].outbound == Some(record.outbound)
      && record.outbound in s.db.outbounds
      && s.db.outbounds[record.outbound].createdAt == record.stamp
      && s.db.outbounds[record.outbound].toEmail == s.db.leads[l].email
  {
    assert LeadRowOk(s, l);
    if k < |s.leadLogs[l].sends| {
      var campaign := s.db.campaigns[s.db.leads[l].campaign];
      assert SendOk(campaign, s.leadLogs[l], s.clock, k);
      assert SlotOk(s, l, k);
      assert JobRowOk(s, s.leadLogs[l].sends[k].job);
      assert StampOk(s.leadLogs, s.db.outbounds, l, k);
      assert LinkOk(s.db.jobs, s.db.outbounds, s.leadLogs[l].sends[k].job);
    }
  }

  /** Consecutive steps to one lead are stamped at least the later step's delay apart. */
  lemma {:induction false} StepsAreSpaced(s: Sys, l: Id, k: nat)
    requires Inv(s) && l in s.db.leads && l in s.leadLogs && 0 < k < |s.leadLogs[l].sends|
    ensures s.db.leads[l].campaign in s.db.campaigns
    ensures var campaign, sends := s.db.campaigns[s.db.leads[l].campaign], s.leadLogs[l].sends;
      && k < |campaign.steps|
      && sends[k - 1].stamp + campaign.steps[k].delaySeconds * SECOND <= sends[k].stamp
  {
    assert LeadRowOk(s, l);
    assert SendOk(s.db.campaigns[s.db.leads[l].campaign], s.leadLogs[l], s.clock, k);
  }

  /** Recorded sends stay recorded: a run only appends to them. */
  lemma {:induction false} SendsOnlyGrow(s: Sys, ops: seq<Op>, l: Id)
    requires Inv(s) && IsRun(s, ops) && l in s.db.leads
    ensures var t := Exec(s, ops);
      l in s.leadLogs && l in t.leadLogs && s.leadLogs[l].sends <= t.leadLogs[l].sends
  {
    ExecRowsEvolve(s, ops);
    assert LeadEvolves(s, Exec(s, ops), l);
  }

  // ---------- Links ----------

  function Linked(jobs: JobTable, leads: set<Id>): set<Id> {
    set j | j in jobs && jobs[j].outbound.Some? && jobs[j].lead in leads
  }

  ghost function StepsSent(leads: map<Id, Lead>, some: set<Id>): nat
    requires some <= leads.Keys
    decreases |some|
  {
    if some == {} then 0
    else
      var l :| l in some;
      leads[l].stepsSent + StepsSent(leads, some - {l})
  }

  /** The first `n` jobs of a lead, as a set. */
  function FirstJobs(log: LeadLog, n: nat): set<Id>
    requires n <= |log.jobs|
  {
    set k | 0 <= k < n :: log.jobs[k]
  }

  lemma {:induction false} FirstJobsAreDistinct(s: Sys, l: Id, n: nat)
    requires Inv(s) && l in s.db.leads && l in s.leadLogs && n <= |s.leadLogs[l].jobs|
    ensures |FirstJobs(s.leadLogs[l], n)| == n
  {
    var log := s.leadLogs[l];
    if n > 0 {
      FirstJobsAreDistinct(s, l, n - 1);
      assert LeadRowOk(s, l);
      assert FirstJobs(log, n) == FirstJobs(log, n - 1) + {log.jobs[n - 1]};
      forall k | 0 <= k < n - 1 ensures log.jobs[k] != log.jobs[n - 1] {
        assert SlotOk(s, l, k) && SlotOk(s, l, n - 1);
      }
    }
  }

  /** A lead's linked jobs are those of the steps it was sent. */
  lemma {:induction false} LinkedOfLead(s: Sys, l: Id)
    requires Inv(s) && l in s.db.leads
    ensures |Linked(s.db.jobs, {l})| == s.db.leads[l].stepsSent
  {
    assert LeadRowOk(s, l);
    var log, n := s.leadLogs[l], s.db.leads[l].stepsSent;
    forall j ensures j in Linked(s.db.jobs, {l}) <==> j in FirstJobs(log, n) {
      if j in Linked(s.db.jobs, {l}) {
        assert JobRowOk(s, j);
        assert log.jobs[s.db.jobs[j].payload.stepPosition - 1] == j;
      }
      if j in FirstJobs(log, n) {
        var k :| 0 <= k < n && log.jobs[k] == j;
        assert SlotOk(s, l, k);
        assert JobRowOk(s, j);
      }
    }
    assert Linked(s.db.jobs, {l}) == FirstJobs(log, n);
    FirstJobsAreDistinct(s, l, n);
  }

  lemma {:induction false} LinkedAddsUp(jobs: JobTable, l: Id, some: set<Id>)
    requires l in some
    ensures |Linked(jobs, some)| == |Linked(jobs, {l})| + |Linked(jobs, some - {l})|
  {
    assert Linked(jobs, some) == Linked(jobs, {l}) + Linked(jobs, some - {l});
    assert Linked(jobs, {l}) * Linked(jobs, some - {l}) == {};
  }

  lemma {:induction false} LinkedOfLeads(s: Sys, some: set<Id>)
    requires Inv(s) && some <= s.db.leads.Keys
    ensures |Linked(s.db.jobs, some)| == StepsSent(s.db.leads, some)
    decreases |some|
  {
    if some != {} {
      var l :| l in some && StepsSent(s.db.leads, some) == s.db.leads[l].stepsSent + StepsSent(s.db.leads, some - {l});
      LinkedOfLead(s, l);
      LinkedOfLeads(s, some - {l});
      LinkedAddsUp(s.db.jobs, l, some);
    }
  }

  /** Conservation: the steps sent, over all leads, are the jobs linked to a message, and no message is shared. */
  lemma {:induction false} StepsSentAreLinks(s: Sys)
    requires Inv(s)
    ensures |(set j | j in s.db.jobs && s.db.jobs[j].outbound.Some?)| == StepsSent(s.db.leads, s.db.leads.Keys)
    ensures LinksUnique(s.db.jobs)
  {
    LinkedOfLeads(s, s.db.leads.Keys);
    forall j | j in s.db.jobs ensures s.db.jobs[j].lead in s.db.leads {
      assert JobRowOk(s, j);
    }
    assert Linked(s.db.jobs, s.db.leads.Keys) == set j | j in s.db.jobs && s.db.jobs[j].outbound.Some?;
  }

  // ---------- Replies ----------

  /** The consumer's error branch is unreachable: a reply to a linked message finds a lead it can stop. */
  lemma {:induction false} StopOnReplyNeverFails(s: Sys, j: Id, intent: Intent, moment: Time)
    requires Inv(s) && j in s.db.jobs && s.db.jobs[j].outbound.Some?
    ensures var l := s.db.jobs[j].lead;
      && l in s.db.leads && s.db.leads[l].campaign in s.db.campaigns
      && s.db.campaigns[s.db.leads[l].campaign].StopOnReply(s.db.leads[l], intent, moment).Success?
  {
    assert JobRowOk(s, j);
    assert LeadRowOk(s, s.db.jobs[j].lead);
  }

  /** After a version 2 event matched to a campaign email is handled, the lead behind it is stopped. */
  lemma {:induction false} HandledEventStops(s: Sys, event: OutboxEvent, moment: Time, j: Id)
    requires Inv(s) && event.version >= 2 && event.matched.Some? && LinksTo(s.db.jobs, j, event.matched.value)
    ensures var after := Replies.HandleEvent(s.db, event, moment);
      && event.id in after.processed
      && s.db.jobs[j].lead in after.leads && after.leads[s.db.jobs[j].lead].IsStopped()
  {
    FindLeadOfLink(s.db.jobs, j, event.matched.value);
    LinkedLeadWasSentTo(s, event.matched.value);
  }

  /** A batch but for its last event leaves the link where it was. */
  lemma {:induction false} LinkStays(s: Sys, batch: seq<OutboxEvent>, moment: Time, j: Id, outbound: Id)
    requires Inv(s) && LinksTo(s.db.jobs, j, outbound)
    ensures var t := WithDb(s, Replies.HandleAll(s.db, batch, moment));
      && Inv(t) && LinksTo(t.db.jobs, j, outbound) && t.db.jobs[j].lead == s.db.jobs[j].lead
  {
    HandleAllKeeps(s, batch, moment);
    assert JobRowOk(s, j);
    HandleAllRows(s, batch, moment, j);
  }

  lemma {:induction false} EventKeepsStop(s: Sys, event: OutboxEvent, moment: Time, l: Id)
    requires Inv(s) && l in s.db.leads && s.db.leads[l].IsStopped()
    ensures var after := Replies.HandleEvent(s.db, event, moment);
      && l in after.leads && after.leads[l].IsStopped() && s.db.processed <= after.processed
  {
    HandleEventRows(s, event, moment, l);
  }

  lemma {:induction false} HandledBatchStops(s: Sys, batch: seq<OutboxEvent>, moment: Time, i: nat, j: Id)
    requires Inv(s) && i < |batch| && batch[i].version >= 2 && batch[i].matched.Some?
    requires LinksTo(s.db.jobs, j, batch[i].matched.value)
    ensures var after := Replies.HandleAll(s.db, batch, moment);
      && batch[i].id in after.processed
      && s.db.jobs[j].lead in after.leads && after.leads[s.db.jobs[j].lead].IsStopped()
  {
    var last := |batch| - 1;
    var t := WithDb(s, Replies.HandleAll(s.db, batch[..last], moment));
    LinkStays(s, batch[..last], moment, j, batch[i].matched.value);
    if i < last {
      HandledBatchStops(s, batch[..last], moment, i, j);
      EventKeepsStop(t, batch[last], moment, s.db.jobs[j].lead);
    } else {
      HandledEventStops(t, batch[last], moment, j);
    }
  }

  /** A stopped lead is frozen: no run dispatches to it, counts a step for it or changes why it stopped. */
  lemma {:induction false} StoppedForever(s: Sys, ops: seq<Op>, l: Id)
    requires Inv(s) && IsRun(s, ops) && l in s.db.leads && s.db.leads[l].IsStopped()
    ensures var t := Exec(s, ops);
      && l in t.db.leads && t.db.leads[l] == s.db.leads[l]
      && l in s.leadLogs && l in t.leadLogs && t.leadLogs[l] == s.leadLogs[l]
  {
    ExecRowsEvolve(s, ops);
    assert LeadEvolves(s, Exec(s, ops), l);
  }

  /** Together: once the consumer has handled a reply, its lead stays stopped and is never sent to again. */
  lemma {:induction false} RepliedLeadIsNeverSentTo(
    s: Sys, workspace: Id, batch: seq<OutboxEvent>, moment: Time, i: nat, j: Id, ops: seq<Op>)
    requires Inv(s) && Enabled(s, HandleReplies(workspace, batch, moment))
    requires i < |batch| && batch[i].version >= 2 && batch[i].matched.Some?
    requires LinksTo(s.db.jobs, j, batch[i].matched.value)
    requires IsRun(Apply(s, HandleReplies(workspace, batch, moment)), ops)
    ensures var (t, l) := (Apply(s, HandleReplies(workspace, batch, moment)), s.db.jobs[j].lead);
      var u := Exec(t, ops);
      && l in t.db.leads && l in u.db.leads && l in t.leadLogs && l in u.leadLogs
      && u.db.leads[l].IsStopped() && u.db.leads[l] == t.db.leads[l] && u.leadLogs[l].sends == t.leadLogs[l].sends
  {
    var op := HandleReplies(workspace, batch, moment);
    ApplyKeeps(s, op);
    HandledBatchStops(s, batch, moment, i, j);
    StoppedForever(Apply(s, op), ops, s.db.jobs[j].lead);
  }

  /**
   In every reachable state the recorded intent tells how and why a lead stopped, and none is recorded without a send.
   */
  lemma {:induction false} IntentTellsTheStop(s: Sys, l: Id)
    requires Inv(s) && l in s.db.leads
    ensures var (lead, intent) := (s.db.leads[l], s.db.leads[l].replyIntent);
      && (intent == Some(Bounce) <==> lead.state.Failed? && lead.stopReason == Some(Bounced))
      && (intent == Some(Unsubscribe) <==> lead.state.Paused? && lead.stopReason == Some(Unsubscribed))
      && (intent.Some? && !intent.value.Bounce? && !intent.value.Unsubscribe? <==>
            lead.state.Paused? && lead.stopReason == Some(Replied))
      && (intent.Some? ==> 1 <= lead.stepsSent)
      && (lead.IsStopped() && intent.None? <==> lead.stopReason in {Some(StopReason.Suppressed), Some(SendFailed)})
  {
    assert LeadRowOk(s, l);
    if s.db.leads[l].stopReason.Some? {
      match s.db.leads[l].stopReason.value {
        case Replied =>
        case Unsubscribed =>
        case Bounced =>
        case Suppressed =>
        case SendFailed =>
      }
    }
  }

  // ---------- Campaigns ----------

  /** Addresses in a campaign are normalised and distinct; drafts have no jobs, active campaigns no pending lead. */
  lemma {:induction false} CampaignShape(s: Sys, c: Id)
    requires Inv(s) && c in s.db.campaigns
    ensures forall l :: l in s.db.leads && s.db.leads[l].campaign == c ==>
      && s.db.leads[l].email != "" && Text.NormalizeEmail(s.db.leads[l].email) == s.db.leads[l].email
      && (s.db.campaigns[c].status.Draft? <==> s.db.leads[l].state.Pending?)
    ensures forall a, b ::
      (a in s.db.leads && b in s.db.leads && a != b && s.db.leads[a].campaign == c == s.db.leads[b].campaign) ==>
      s.db.leads[a].email != s.db.leads[b].email
    ensures s.db.campaigns[c].status.Draft? ==> forall j :: j in s.db.jobs ==> s.db.jobs[j].payload.campaign != c
  {
    forall l | l in s.db.leads && s.db.leads[l].campaign == c
      ensures s.db.leads[l].email != "" && Text.NormalizeEmail(s.db.leads[l].email) == s.db.leads[l].email
      ensures s.db.campaigns[c].status.Draft? <==> s.db.leads[l].state.Pending?
    {
      assert LeadRowOk(s, l);
    }
    forall a, b | a in s.db.leads && b in s.db.leads && a != b && s.db.leads[a].campaign == c == s.db.leads[b].campaign
      ensures s.db.leads[a].email != s.db.leads[b].email
    {
      assert EmailPairOk(s.db.leads, a, b);
    }
    if s.db.campaigns[c].status.Draft? {
      forall j | j in s.db.jobs ensures s.db.jobs[j].payload.campaign != c {
        assert JobRowOk(s, j);
        assert LeadRowOk(s, s.db.jobs[j].lead);
      }
    }
  }
}
