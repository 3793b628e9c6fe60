/** A run whose feed holds two replies to one lead that disagree, so who reads the feed first decides why it stopped. */
module DisagreeingFeed {
  import opened Base
  import opened Batches
  import opened CampaignDomain
  import opened ConsumerTheorems
  import opened Evolution
  import opened Inbox
  import opened Invariant
  import opened LeadTheorems
  import opened Machine
  import opened Matching
  import opened OutcomeTheorems
  import opened PollKeeps
  import opened ProcessKeeps
  import opened Reachable
  import opened Scenario
  import opened SendQueue
  import opened Sending
  import opened StaleTokens
  import opened Tables
  import Text

  // ---------- Claim and send ----------

  lemma {:induction false} RunningJobLeaves(s: Sys, j: Id, index: nat, moment: Time, env: SendEnv)
    requires Inv(s) && j in s.db.jobs && s.db.jobs[j].status.Running? && s.db.jobs[j].lead in s.db.leads
    requires !s.db.leads[s.db.jobs[j].lead].IsStopped()
    requires Enabled(s, ProcessToken(j, index, false, moment, env)) && GuardsPass(s.db, s.db.jobs[j], env)
    ensures var claim := s.jobLogs[j].tokens[index].claim;
      var t := Apply(s, ProcessToken(j, index, false, moment, env));
      && claim.id == j && claim.lead == s.db.jobs[j].lead && claim.workspace == s.db.jobs[j].workspace
      && claim.payload == s.db.jobs[j].payload
      && SentLeaves(s, claim, moment, env, t.db)
      && Spared(s, claim, Outcome.Sent, t.db) && t.clock == env.stampedAt
  {
    var claim := s.jobLogs[j].tokens[index].claim;
    assert JobRowOk(s, j);
    ClaimIsSettling(s, j, index, false);
    LiveJobIsNext(s, s.db.jobs[j].lead, j);
    OutcomeIsDecided(s, j, index, false, moment, env);
    SentCallLeaves(s, j, index, claim, moment, env);
    OtherRowsSpared(s, claim, moment, env);
  }

  /** A due job whose lead is not stopped and whose message the guards let through, with no time to pass. */
  ghost predicate Ready(s: Sys, j: Id, env: SendEnv) {
    && Inv(s) && j in s.db.jobs && Claimable(s.db.jobs[j], s.db.jobs[j].workspace, s.clock)
    && s.db.jobs[j].lead in s.db.leads && !s.db.leads[s.db.jobs[j].lead].IsStopped()
    && GuardsPass(s.db, s.db.jobs[j], env) && env.checkedAt == s.clock && env.stampedAt == s.clock
  }

  /** The job is linked to the message it has just sent, its lead is one step on, and no other job has changed. */
  ghost predicate WentOut(s: Sys, j: Id, env: SendEnv, t: Sys)
    requires j in s.db.jobs
  {
    var job := s.db.jobs[j];
    && Inv(t) && t.clock == s.clock && job.workspace in s.db.mailboxes && env.provider.Success?
    && t.db == s.db.(leads := t.db.leads, jobs := t.db.jobs, outbounds := t.db.outbounds, nextId := t.db.nextId)
    && t.db.outbounds ==
         s.db.outbounds[s.db.nextId := Outbound(
           s.db.nextId, job.workspace, s.db.mailboxes[job.workspace].id, job.payload.toEmail, job.payload.subject,
           job.payload.body, env.messageId, Some(env.provider.value.messageId), Some(env.provider.value.threadId),
           env.stampedAt)]
    && j in t.db.jobs && t.db.jobs[j].outbound == Some(s.db.nextId) && t.db.jobs[j].lead == job.lead
    && (forall k :: k in s.db.jobs && k != j ==> k in t.db.jobs && t.db.jobs[k] == s.db.jobs[k])
    && job.lead in s.db.leads && job.lead in t.db.leads && job.payload.campaign in s.db.campaigns
    && var (campaign, lead, position) :=
      (s.db.campaigns[job.payload.campaign], t.db.leads[job.lead], job.payload.stepPosition);
      && position <= |campaign.steps| && t.db.nextId == s.db.nextId + (if position < |campaign.steps| then 2 else 1)
      && lead.state == (if position == |campaign.steps| then LeadState.Done else LeadState.Sent)
      && (position < |campaign.steps| ==>
            && s.db.nextId + 1 in t.db.jobs
            && t.db.jobs[s.db.nextId + 1] ==
                 FollowUp(s.db.nextId + 1, campaign, s.db.leads[job.lead], position, s.clock))
  }

  /** Claiming one job leaves every other job alone. */
  ghost predicate OnlyClaimed(s: Sys, j: Id, u: Sys) {
    && u.db == s.db.(jobs := u.db.jobs) && u.clock == s.clock && u.db.jobs.Keys == s.db.jobs.Keys
    && (forall k :: k in s.db.jobs && k != j ==> k in u.db.jobs && u.db.jobs[k] == s.db.jobs[k])
  }

  lemma {:induction false} ClaimedThenSent(s: Sys, j: Id, claim: ClaimedSendJob, env: SendEnv, u: Sys, t: Sys)
    requires j in s.db.jobs && OnlyClaimed(s, j, u) && Inv(t) && t.clock == s.clock == env.stampedAt
    requires claim.id == j && claim.lead == s.db.jobs[j].lead && claim.payload == s.db.jobs[j].payload
    requires claim.workspace == s.db.jobs[j].workspace
    requires SentLeaves(u, claim, s.clock, env, t.db) && Spared(u, claim, Outcome.Sent, t.db)
    requires j in t.db.jobs && t.db.jobs[j].lead == s.db.jobs[j].lead
    ensures WentOut(s, j, env, t)
  {
  }

  lemma {:induction false} ClaimsOnly(s: Sys, j: Id, worker: Id)
    requires Inv(s) && j in s.db.jobs && Claimable(s.db.jobs[j], s.db.jobs[j].workspace, s.clock)
    ensures OnlyClaimed(s, j, Apply(s, Claim(s, j, worker, s.clock)))
  {
  }

  lemma {:induction false} SendKeepsLead(s: Sys, j: Id, send: Op)
    requires Inv(s) && j in s.db.jobs && Enabled(s, send) && send.ProcessToken?
    ensures Inv(Apply(s, send)) && j in Apply(s, send).db.jobs && Apply(s, send).db.jobs[j].lead == s.db.jobs[j].lead
  {
    ApplyKeeps(s, send);
    ApplyRowsEvolve(s, send);
    assert JobEvolves(s, Apply(s, send), j);
  }

  lemma {:induction false} TwoSteps(s: Sys, a: Op, b: Op)
    requires Enabled(s, a) && Enabled(Apply(s, a), b)
    ensures IsRun(s, [a, b]) && Exec(s, [a, b]) == Apply(Apply(s, a), b)
  {
    RunCons(Apply(s, a), b, []);
    assert [b] + [] == [b] && [a] + [b] == [a, b];
    RunCons(s, a, [b]);
  }

  lemma {:induction false} ClaimAndSend(s: Sys, j: Id, worker: Id, env: SendEnv) returns (ops: seq<Op>)
    requires Ready(s, j, env)
    ensures IsRun(s, ops) && WentOut(s, j, env, Exec(s, ops))
  {
    var u := ClaimedOnce(s, j, worker, s.clock);
    var n := |s.jobLogs[j].tokens|;
    var send := ProcessToken(j, n, false, s.clock, env);
    assert u.jobLogs[j].tokens[n].fate.Outstanding?;
    ClaimsOnly(s, j, worker);
    RunningJobLeaves(u, j, n, s.clock, env);
    SendKeepsLead(u, j, send);
    ClaimedThenSent(s, j, u.jobLogs[j].tokens[n].claim, env, u, Apply(u, send));
    ops := [Claim(s, j, worker, s.clock), send];
    TwoSteps(s, Claim(s, j, worker, s.clock), send);
  }

  // ---------- Two replies in one poll ----------

  /** Two new messages, the first of which answers `a` and the second `b`. */
  ghost predicate TwoReplies(
    s: Sys, workspace: Id, candidates: seq<Outbound>, first: PollInput, second: PollInput, a: Outbound, b: Outbound)
  {
    && workspace in s.db.mailboxes
    && !Known(s.db.inbounds, s.db.mailboxes[workspace].id, first.fetched.providerMessageId)
    && !Known(s.db.inbounds, s.db.mailboxes[workspace].id, second.fetched.providerMessageId)
    && first.fetched.providerMessageId != second.fetched.providerMessageId
    && MatchReply(first.fetched, candidates) == Some(a)
    && MatchReply(second.fetched, Without(candidates, a.id)) == Some(b)
  }

  /** The events a poll of the two replies classifies. */
  function Reports(s: Sys, workspace: Id, first: PollInput, second: PollInput, a: Outbound, b: Outbound)
    : (OutboxEvent, OutboxEvent)
    requires workspace in s.db.mailboxes
  {
    var (n, mailbox) := (s.db.nextId, s.db.mailboxes[workspace].id);
    (Classified(n + 3, NewInbound(n, workspace, mailbox, first), a.id, IntentOf(first), first.at),
     Classified(n + 7, NewInbound(n + 4, workspace, mailbox, second), b.id, IntentOf(second), second.at))
  }

  /** What is left when a new message that answers `a` has been polled. */
  ghost predicate Stored(st: PollState, workspace: Id, mailbox: Id, input: PollInput, a: Outbound, after: PollState) {
    var (n, inbound) := (st.db.nextId, NewInbound(st.db.nextId, workspace, mailbox, input));
    && after.candidates == Without(st.candidates, a.id) && after.db.nextId == n + 4
    && after.db.jobs == st.db.jobs && after.db.leads == st.db.leads && after.db.processed == st.db.processed
    && |after.db.events| == |st.db.events| + 3
    && (forall k :: 0 <= k < |st.db.events| ==> after.db.events[k] == st.db.events[k])
    && after.db.events[|st.db.events| + 2] == Classified(n + 3, inbound, a.id, IntentOf(input), input.at)
  }

  lemma {:induction false} ReplyPolled(st: PollState, workspace: Id, mailbox: Id, input: PollInput, a: Outbound)
    requires !Known(st.db.inbounds, mailbox, input.fetched.providerMessageId)
    requires MatchReply(input.fetched, st.candidates) == Some(a)
    ensures Stored(st, workspace, mailbox, input, a, PollOne(st, workspace, mailbox, input))
  {
  }

  lemma {:induction false} OthersStayNew(st: PollState, workspace: Id, mailbox: Id, input: PollInput, id: string)
    requires !Known(st.db.inbounds, mailbox, input.fetched.providerMessageId)
    requires !Known(st.db.inbounds, mailbox, id) && id != input.fetched.providerMessageId
    ensures !Known(PollOne(st, workspace, mailbox, input).db.inbounds, mailbox, id)
  {
    PollOneInserts(st, workspace, mailbox, input);
    var row := PollOne(st, workspace, mailbox, input).db.inbounds[st.db.nextId];
    OneRowMore(st.db.inbounds, st.db.nextId, row, mailbox, id);
  }

  lemma {:induction false} OneRowMore(inbounds: map<Id, Inbound>, n: Id, row: Inbound, mailbox: Id, id: string)
    requires !Known(inbounds, mailbox, id) && row.providerMessageId != id
    ensures !Known(inbounds[n := row], mailbox, id)
  {
    var after := inbounds[n := row];
    forall i | i in after ensures after[i].mailbox != mailbox || after[i].providerMessageId != id {
      assert i != n ==> i in inbounds;
    }
  }

  lemma {:induction false} TwoPolled(st: PollState, workspace: Id, mailbox: Id, first: PollInput, second: PollInput)
    ensures PollAll(st, workspace, mailbox, [first, second]) ==
      PollOne(PollOne(st, workspace, mailbox, first), workspace, mailbox, second)
  {
    assert [first, second][..1] == [first] && [first][..0] == [];
    assert PollAll(st, workspace, mailbox, [first]) == PollOne(st, workspace, mailbox, first);
  }

  lemma {:induction false} TwoStored(
    s: Sys, workspace: Id, candidates: seq<Outbound>, first: PollInput, second: PollInput, a: Outbound, b: Outbound,
    once: PollState, after: PollState)
    requires workspace in s.db.mailboxes
    requires Stored(PollStart(s.db, candidates), workspace, s.db.mailboxes[workspace].id, first, a, once)
    requires Stored(once, workspace, s.db.mailboxes[workspace].id, second, b, after)
    ensures var (x, y) := Reports(s, workspace, first, second, a, b);
      && after.db.jobs == s.db.jobs && after.db.leads == s.db.leads && after.db.processed == s.db.processed
      && x in after.db.events && y in after.db.events
  {
    assert after.db.events[|s.db.events| + 2] == once.db.events[|s.db.events| + 2];
  }

  lemma {:induction false} TwoRepliesPolled(
    s: Sys, workspace: Id, candidates: seq<Outbound>, first: PollInput, second: PollInput, a: Outbound, b: Outbound)
    requires TwoReplies(s, workspace, candidates, first, second, a, b)
    ensures var after :=
      PollAll(PollStart(s.db, candidates), workspace, s.db.mailboxes[workspace].id, [first, second]).db;
      var (x, y) := Reports(s, workspace, first, second, a, b);
      && after.jobs == s.db.jobs && after.leads == s.db.leads && after.processed == s.db.processed
      && x in after.events && y in after.events
  {
    var (mailbox, st) := (s.db.mailboxes[workspace].id, PollStart(s.db, candidates));
    var once := PollOne(st, workspace, mailbox, first);
    TwoPolled(st, workspace, mailbox, first, second);
    ReplyPolled(st, workspace, mailbox, first, a);
    OthersStayNew(st, workspace, mailbox, first, second.fetched.providerMessageId);
    ReplyPolled(once, workspace, mailbox, second, b);
    TwoStored(s, workspace, candidates, first, second, a, b, once, PollOne(once, workspace, mailbox, second));
  }

  /**
   From any state, two replies of different intent to messages of one lead that is not stopped disagree, once
   a poll has stored them.
   */
  lemma {:induction false} TwoRepliesDisagree(
    s: Sys, workspace: Id, candidates: seq<Outbound>, first: PollInput, second: PollInput, a: Outbound, b: Outbound,
    cursor: string, l: Id)
    requires Enabled(s, PollInbox(workspace, candidates, [first, second], cursor))
    requires TwoReplies(s, workspace, candidates, first, second, a, b) && IntentOf(first) != IntentOf(second)
    requires FindLead(s.db.jobs, a.id) == Some(l) && FindLead(s.db.jobs, b.id) == Some(l)
    requires l in s.db.leads && !s.db.leads[l].IsStopped()
    requires forall id :: id in s.db.processed ==> id < s.db.nextId
    ensures var (x, y) := Reports(s, workspace, first, second, a, b);
      Disagree(Apply(s, PollInbox(workspace, candidates, [first, second], cursor)).db, workspace, x, y)
  {
    TwoRepliesPolled(s, workspace, candidates, first, second, a, b);
  }

  // ---------- A concrete run ----------

  function Answers(messageId: string): SendEnv {
    SendEnv(true, 0, 0, messageId, Success(Receipt("p", "t")))
  }

  function ReplyTo(messageId: string, providerMessageId: string, verdict: Intent): PollInput {
    PollInput(FetchedMessage(providerMessageId, "t", "x", "", "", Some(messageId), None, 0, false), verdict, 0)
  }

  const YES := ReplyTo("a", "q", Positive)
  const STOP := ReplyTo("b", "r", Unsubscribe)

  /** The lead has been sent its first step, and its second is due. */
  ghost predicate OneSent(s: Sys) {
    && Inv(s) && s.clock == 0 && s.db.campaigns == StartedDb().campaigns && s.db.mailboxes == StartedDb().mailboxes
    && s.db.suppressions == map[] && s.db.inbounds == map[] && s.db.processed == {} && s.db.nextId == 17
    && s.db.outbounds.Keys == {15} && FromMailbox(s.db, 15, "a")
    && 14 in s.db.jobs && s.db.jobs[14].outbound == Some(15) && s.db.jobs[14].lead == 13
    && 16 in s.db.jobs && s.db.jobs[16].lead == 13 && s.db.jobs[16].workspace == 1 && s.db.jobs[16].status.Pending?
    && s.db.jobs[16].scheduledAt == 0 && s.db.jobs[16].payload.campaign == 10 && s.db.jobs[16].payload.stepPosition == 2
    && 13 in s.db.leads && s.db.leads[13].state == LeadState.Sent
  }

  /** A sent message of the mailbox, under its own identifier. */
  ghost predicate FromMailbox(db: Db, o: Id, messageId: string) {
    && o in db.outbounds && db.outbounds[o].id == o && db.outbounds[o].mailbox == 2
    && db.outbounds[o].messageId == messageId && db.outbounds[o].providerMessageId.Some?
    && db.outbounds[o].createdAt == 0
  }

  /** The lead has been sent both steps, and has answered neither. */
  ghost predicate BothSent(s: Sys) {
    && Inv(s) && s.db.mailboxes == StartedDb().mailboxes && s.db.inbounds == map[] && s.db.processed == {}
    && s.db.outbounds.Keys == {15, 17} && FromMailbox(s.db, 15, "a") && FromMailbox(s.db, 17, "b")
    && 14 in s.db.jobs && s.db.jobs[14].outbound == Some(15) && s.db.jobs[14].lead == 13
    && 16 in s.db.jobs && s.db.jobs[16].outbound == Some(17) && s.db.jobs[16].lead == 13
    && 13 in s.db.leads && s.db.leads[13].state == LeadState.Done
  }

  lemma {:induction false} SendsFirst(s: Sys) returns (ops: seq<Op>)
    requires IsStarted(s)
    ensures IsRun(s, ops) && OneSent(Exec(s, ops))
  {
    assert SentSince(s.db.outbounds, 2, StartOfUtcDay(0)) == {};
    ops := ClaimAndSend(s, 14, 7, Answers("a"));
    FirstWentOut(s, Exec(s, ops));
  }

  lemma {:induction false} FirstWentOut(s: Sys, t: Sys)
    requires IsStarted(s) && WentOut(s, 14, Answers("a"), t)
    ensures OneSent(t)
  {
  }

  lemma {:induction false} SendsSecond(s: Sys) returns (ops: seq<Op>)
    requires OneSent(s)
    ensures IsRun(s, ops) && BothSent(Exec(s, ops))
  {
    SentSinceFew(s);
    ops := ClaimAndSend(s, 16, 7, Answers("b"));
    SecondWentOut(s, Exec(s, ops));
  }

  lemma {:induction false} SentSinceFew(s: Sys)
    requires s.db.outbounds.Keys == {15}
    ensures |SentSince(s.db.outbounds, 2, StartOfUtcDay(0))| < 2
  {
    var sent := SentSince(s.db.outbounds, 2, StartOfUtcDay(0));
    if 15 in sent {
      assert sent == {15};
    } else {
      assert sent == {};
    }
  }

  lemma {:induction false} SecondWentOut(s: Sys, t: Sys)
    requires OneSent(s) && WentOut(s, 16, Answers("b"), t)
    ensures BothSent(t)
  {
  }

  lemma {:induction false} LetterIsNormal(c: char)
    requires 'a' <= c <= 'z'
    ensures NormalizeMessageId(Some([c])) == Some([c])
  {
    assert Text.Strip([c]) == [c];
    assert Text.Lower([c]) == [c];
  }

  lemma {:induction false} MatchesBoth(a: Outbound, b: Outbound)
    requires a.messageId == "a" && b.messageId == "b" && a.id != b.id
    ensures MatchReply(YES.fetched, [a, b]) == Some(a)
    ensures Without([a, b], a.id) == [b] && MatchReply(STOP.fetched, [b]) == Some(b)
  {
    assert [a, b][..1] == [a] && [a][..0] == [] && [b][..0] == [];
    LetterIsNormal('a');
    LetterIsNormal('b');
    assert "a"[0] != "b"[0];
    assert !HasMessageId(b, "a");
    assert LastWithMessageId([a, b], "a") == LastWithMessageId([a], "a") == Some(a);
    assert Without([a], a.id) == [] && Without([a, b], a.id) == [b];
  }

  lemma {:induction false} BothUnanswered(s: Sys)
    requires BothSent(s)
    ensures IsUnansweredList(s.db, 2, [s.db.outbounds[15], s.db.outbounds[17]])
  {
  }

  lemma {:induction false} BothAreNew(s: Sys)
    requires BothSent(s)
    ensures var (a, b) := (s.db.outbounds[15], s.db.outbounds[17]); TwoReplies(s, 1, [a, b], YES, STOP, a, b)
  {
    MatchesBoth(s.db.outbounds[15], s.db.outbounds[17]);
    assert "q" != "r";
  }

  lemma {:induction false} PollsReplies(s: Sys) returns (op: Op, x: OutboxEvent, y: OutboxEvent)
    requires BothSent(s)
    ensures Enabled(s, op) && Inv(Apply(s, op)) && Disagree(Apply(s, op).db, 1, x, y)
  {
    var (a, b) := (s.db.outbounds[15], s.db.outbounds[17]);
    op := PollInbox(1, [a, b], [YES, STOP], "c");
    BothUnanswered(s);
    FindLeadOfLink(s.db.jobs, 14, 15);
    FindLeadOfLink(s.db.jobs, 16, 17);
    BothAreNew(s);
    TwoRepliesDisagree(s, 1, [a, b], YES, STOP, a, b, "c", 13);
    x, y := Reports(s, 1, YES, STOP, a, b).0, Reports(s, 1, YES, STOP, a, b).1;
    ApplyKeeps(s, op);
  }

  /**
   A run from empty tables after which one workspace's feed can be drained in two ways that leave different tables: a
   lead was sent two steps, and answered one kindly and the other to unsubscribe.
   */
  lemma {:induction false} SharingCanMatter()
    returns (s: Sys, ops: seq<Op>, runs: seq<ConsumerRun>, others: seq<ConsumerRun>)
    ensures Init(s) && IsRun(s, ops)
    ensures Inv(Exec(s, ops)) && exists x, y :: Disagree(Exec(s, ops).db, 1, x, y)
    ensures Drains(Exec(s, ops).db, 1, runs) && Drains(Exec(s, ops).db, 1, others)
    ensures !SameButTimes(AfterRuns(Exec(s, ops).db, runs), AfterRuns(Exec(s, ops).db, others))
  {
    s := EmptyState();
    var setup := OneLeadStarted();
    var first := SendsFirst(Exec(s, setup));
    var second := SendsSecond(Exec(Exec(s, setup), first));
    var t := Exec(Exec(Exec(s, setup), first), second);
    var poll, x, y := PollsReplies(t);
    RunCons(t, poll, []);
    assert [poll] + [] == [poll];
    FourRuns(s, setup, first, second, [poll]);
    ops := setup + (first + (second + [poll]));
    runs, others := DisagreeingDrains(Exec(s, ops), 1, x, y);
  }

  lemma {:induction false} FourRuns(s: Sys, a: seq<Op>, b: seq<Op>, c: seq<Op>, d: seq<Op>)
    requires IsRun(s, a) && IsRun(Exec(s, a), b) && IsRun(Exec(Exec(s, a), b), c)
    requires IsRun(Exec(Exec(Exec(s, a), b), c), d)
    ensures IsRun(s, a + (b + (c + d)))
    ensures Exec(s, a + (b + (c + d))) == Exec(Exec(Exec(Exec(s, a), b), c), d)
  {
    RunAppend(Exec(Exec(s, a), b), c, d);
    RunAppend(Exec(s, a), b, c + d);
    RunAppend(s, a, b + (c + d));
  }
}
