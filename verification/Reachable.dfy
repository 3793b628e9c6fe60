/** The invariant holds in every state of every run. */
module Reachable {
  import opened AddLeadsKeeps
  import opened Base
  import opened CampaignDomain
  import opened CommandKeeps
  import opened Invariant
  import opened Machine
  import opened PollKeeps
  import opened ProcessKeeps
  import opened ProcessingKeeps
  import opened QueueKeeps
  import opened SendKeeps
  import opened StartKeeps
  import opened Tables
  import Inbox

  lemma {:induction false} InitHolds(s: Sys)
    requires Init(s)
    ensures Inv(s)
  {
    assert Aggregates(s.db.events, InboundReceived) == [];
  }

  // ---------- The campaign tables ----------

  lemma {:induction false} PollGrows(
    s: Sys, workspace: Id, candidates: seq<Outbound>, inputs: seq<Inbox.PollInput>, cursor: string)
    requires Inv(s) && Enabled(s, PollInbox(workspace, candidates, inputs, cursor))
    ensures Grows(s, Apply(s, PollInbox(workspace, candidates, inputs, cursor)))
  {
    UnansweredAreOk(s.db, s.db.mailboxes[workspace].id, candidates);
    PollAllAdds(Inbox.PollStart(s.db, candidates), workspace, s.db.mailboxes[workspace].id, inputs);
  }

  lemma {:induction false} PollKeepsCampaign(
    s: Sys, workspace: Id, candidates: seq<Outbound>, inputs: seq<Inbox.PollInput>, cursor: string)
    requires Inv(s) && Enabled(s, PollInbox(workspace, candidates, inputs, cursor))
    ensures CampaignInv(Apply(s, PollInbox(workspace, candidates, inputs, cursor)))
  {
    PollGrows(s, workspace, candidates, inputs, cursor);
    GrowthKeeps(s, Apply(s, PollInbox(workspace, candidates, inputs, cursor)));
  }

  lemma {:induction false} HandleKeepsCampaign(s: Sys, workspace: Id, batch: seq<OutboxEvent>, moment: Time)
    requires Inv(s) && Enabled(s, HandleReplies(workspace, batch, moment))
    ensures Inv(Apply(s, HandleReplies(workspace, batch, moment)))
  {
    HandleAllKeeps(s, batch, moment);
    LaterClock(WithDb(s, Apply(s, HandleReplies(workspace, batch, moment)).db), moment);
  }

  lemma {:induction false} ApplyKeepsCampaign(s: Sys, op: Op)
    requires Inv(s) && Enabled(s, op)
    ensures CampaignInv(Apply(s, op))
  {
    match op
    case CreateCampaign(workspace, mailbox, name, drafts, moment) =>
      CreateKeeps(s, workspace, mailbox, name, drafts, moment);
    case AddLeads(campaign, emails, moment) => AddLeadsKeepsCampaign(s, campaign, emails, moment);
    case StartCampaign(campaign, pending, moment) => StartKeepsCampaign(s, campaign, pending, moment);
    case ClaimJobs(workspace, worker, chosen, moment) => ClaimKeeps(s, workspace, worker, chosen, moment);
    case ProcessToken(job, index, byId, moment, env) => ProcessKeepsCampaign(s, job, index, byId, moment, env);
    case SendTestEmail(workspace, toEmail, subject, body, env) =>
      TestEmailKeeps(s, workspace, toEmail, subject, body, env);
    case PollInbox(workspace, candidates, inputs, cursor) =>
      PollKeepsCampaign(s, workspace, candidates, inputs, cursor);
    case HandleReplies(workspace, batch, moment) => HandleKeepsCampaign(s, workspace, batch, moment);
  }

  // ---------- The messaging tables ----------

  ghost predicate SameMessaging(before: Db, after: Db) {
    && after.inbounds == before.inbounds && after.events == before.events
    && after.suppressions == before.suppressions && after.outbounds == before.outbounds
    && after.mailboxes == before.mailboxes && after.processed == before.processed
    && before.nextId <= after.nextId
  }

  lemma {:induction false} StartLeavesMessaging(s: Sys, campaign: Id, pending: seq<Lead>, moment: Time)
    ensures SameMessaging(s.db, ApplyStart(s, campaign, pending, moment).db)
  {
  }

  lemma {:induction false} CreateLeavesMessaging(
    s: Sys, workspace: Id, mailbox: Id, name: string, drafts: seq<StepDraft>, moment: Time)
    requires Enabled(s, CreateCampaign(workspace, mailbox, name, drafts, moment))
    ensures SameMessaging(s.db, Apply(s, CreateCampaign(workspace, mailbox, name, drafts, moment)).db)
  {
  }

  /** The operator's commands and claims do not write the messaging tables. */
  lemma {:induction false} CommandsLeaveMessaging(s: Sys, op: Op)
    requires CampaignInv(s) && Enabled(s, op)
    requires op.CreateCampaign? || op.AddLeads? || op.StartCampaign? || op.ClaimJobs?
    ensures SameMessaging(s.db, Apply(s, op).db)
  {
    match op
    case CreateCampaign(workspace, mailbox, name, drafts, moment) =>
      CreateLeavesMessaging(s, workspace, mailbox, name, drafts, moment);
    case AddLeads(campaign, emails, moment) => AddLeadsInserts(s, campaign, emails, moment);
    case StartCampaign(campaign, pending, moment) => StartLeavesMessaging(s, campaign, pending, moment);
    case _ =>
  }

  lemma {:induction false} ApplyKeepsMessaging(s: Sys, op: Op)
    requires Inv(s) && Enabled(s, op)
    ensures MessagingInv(Apply(s, op).db)
  {
    match op
    case ProcessToken(job, index, byId, moment, env) => ProcessKeepsMessaging(s, job, index, byId, moment, env);
    case SendTestEmail(workspace, toEmail, subject, body, env) =>
      MessageIsNew(s);
      MessagingFrame(s.db, Apply(s, op).db);
    case PollInbox(workspace, candidates, inputs, cursor) =>
      PollKeepsMessaging(s.db, workspace, s.db.mailboxes[workspace].id, candidates, inputs, cursor);
    case HandleReplies(workspace, batch, moment) => HandleKeepsCampaign(s, workspace, batch, moment);
    case _ =>
      CommandsLeaveMessaging(s, op);
      MessagingFrame(s.db, Apply(s, op).db);
  }

  /** Every operation keeps the invariant. */
  lemma {:induction false} ApplyKeeps(s: Sys, op: Op)
    requires Inv(s) && Enabled(s, op)
    ensures Inv(Apply(s, op))
  {
    ApplyKeepsCampaign(s, op);
    ApplyKeepsMessaging(s, op);
  }

  /** So it holds after every run. */
  lemma {:induction false} ExecKeeps(s: Sys, ops: seq<Op>)
    requires Inv(s) && IsRun(s, ops)
    ensures Inv(Exec(s, ops))
    decreases |ops|
  {
    if ops != [] {
      ApplyKeeps(s, ops[0]);
      ExecKeeps(Apply(s, ops[0]), ops[1..]);
    }
  }

  /** Every state of every run from empty tables satisfies the invariant. */
  lemma {:induction false} ReachableStatesAreSound(s: Sys, ops: seq<Op>)
    requires Init(s) && IsRun(s, ops)
    ensures Inv(Exec(s, ops))
  {
    InitHolds(s);
    ExecKeeps(s, ops);
  }

  // ---------- Runs, put together ----------

  lemma {:induction false} RunCons(s: Sys, op: Op, rest: seq<Op>)
    requires Enabled(s, op) && IsRun(Apply(s, op), rest)
    ensures IsRun(s, [op] + rest) && Exec(s, [op] + rest) == Exec(Apply(s, op), rest)
  {
    assert ([op] + rest)[1..] == rest;
  }

  lemma {:induction false} RunAppend(s: Sys, front: seq<Op>, back: seq<Op>)
    requires IsRun(s, front) && IsRun(Exec(s, front), back)
    ensures IsRun(s, front + back) && Exec(s, front + back) == Exec(Exec(s, front), back)
    decreases |front|
  {
    if front == [] {
      assert front + back == back;
    } else {
      assert (front + back)[1..] == front[1..] + back;
      RunAppend(Apply(s, front[0]), front[1..], back);
    }
  }
}
