/** The metrics of a campaign, and how their numbers hang together. */
module Metrics {
  import opened Base
  import opened CampaignDomain
  import opened Invariant
  import opened LeadTheorems
  import opened Machine

  type LeadTable = map<Id, Lead>

  datatype LeadStats = LeadStats(
    leads: nat,
    contacted: nat,
    emailsSent: nat,
    bounced: nat,
    inProgress: nat,
    completed: nat,
    replyIntents: map<Intent, nat>)

  datatype CampaignMetrics = CampaignMetrics(
    leads: nat,
    contacted: nat,
    emailsSent: nat,
    replied: nat,
    replyIntents: map<Intent, nat>,
    bounced: nat,
    inProgress: nat,
    completed: nat,
    replyRate: real,
    bounceRate: real)

  const UNDER_WAY := {LeadState.Pending, LeadState.Scheduled, LeadState.Sent}

  function Members(leads: LeadTable, c: Id): set<Id> {
    set l | l in leads && leads[l].campaign == c
  }

  function Contacted(leads: LeadTable, c: Id): set<Id> {
    set l | l in leads && leads[l].campaign == c && leads[l].stepsSent > 0
  }

  function InState(leads: LeadTable, c: Id, states: set<LeadState>): set<Id> {
    set l | l in leads && leads[l].campaign == c && leads[l].state in states
  }

  function StoppedFor(leads: LeadTable, c: Id, reason: StopReason): set<Id> {
    set l | l in leads && leads[l].campaign == c && leads[l].stopReason == Some(reason)
  }

  function WithIntent(leads: LeadTable, c: Id, intents: set<Intent>): set<Id> {
    set l | l in leads && leads[l].campaign == c && leads[l].replyIntent.Some? && leads[l].replyIntent.value in intents
  }

  function IntentsSeen(leads: LeadTable, c: Id): set<Intent> {
    set l | l in leads && leads[l].campaign == c && leads[l].replyIntent.Some? :: leads[l].replyIntent.value
  }

  ghost function Stats(leads: LeadTable, c: Id): LeadStats {
    LeadStats(|Members(leads, c)|,
              |Contacted(leads, c)|,
              StepsSent(leads, Members(leads, c)),
              |StoppedFor(leads, c, Bounced)|,
              |InState(leads, c, UNDER_WAY)|,
              |InState(leads, c, {LeadState.Done})|,
              map intent | intent in IntentsSeen(leads, c) :: |WithIntent(leads, c, {intent})|)
  }

  ghost function Total(counts: map<Intent, nat>): nat {
    if counts == map[] then 0
    else
      var intent :| intent in counts;
      counts[intent] + Total(counts - {intent})
  }

  /** Rounding to four digits: to a nearest multiple of a ten-thousandth, whichever way halves go. */
  ghost predicate RoundsToFour(round: real -> real) {
    forall x: real ::
      && (round(x) * 10000.0).Floor as real == round(x) * 10000.0
      && x - 0.00005 <= round(x) <= x + 0.00005
  }

  /** Rounding halves up is one such rounding. */
  lemma {:induction false} HalfUpRounds()
    ensures RoundsToFour((x: real) => (x * 10000.0 + 0.5).Floor as real / 10000.0)
  {
  }

  /** A share of a whole, rounded; nothing of nothing is none of it. */
  function Share(part: nat, whole: nat, round: real -> real): real {
    if whole == 0 then 0.0 else round(part as real / whole as real)
  }

  ghost function CampaignMetricsOf(stats: LeadStats, round: real -> real): CampaignMetrics {
    var replyIntents := stats.replyIntents - {Bounce};
    var replied := Total(replyIntents);
    CampaignMetrics(stats.leads, stats.contacted, stats.emailsSent, replied, replyIntents, stats.bounced,
                    stats.inProgress, stats.completed,
                    Share(replied, stats.contacted, round), Share(stats.bounced, stats.contacted, round))
  }

  // ---------- Sums over groups and leads ----------

  ghost predicate CountsGroups(leads: LeadTable, c: Id, counts: map<Intent, nat>) {
    forall intent :: intent in counts ==> counts[intent] == |WithIntent(leads, c, {intent})|
  }

  lemma {:induction false} OneGroupMore(leads: LeadTable, c: Id, intent: Intent, rest: set<Intent>)
    requires intent !in rest
    ensures |WithIntent(leads, c, {intent} + rest)| == |WithIntent(leads, c, {intent})| + |WithIntent(leads, c, rest)|
  {
    var (one, others) := (WithIntent(leads, c, {intent}), WithIntent(leads, c, rest));
    assert WithIntent(leads, c, {intent} + rest) == one + others;
    Disjoint(one, others);
  }

  /** Adding up disjoint groups counts their union. */
  lemma {:induction false} TotalIsUnion(leads: LeadTable, c: Id, counts: map<Intent, nat>)
    requires CountsGroups(leads, c, counts)
    ensures Total(counts) == |WithIntent(leads, c, counts.Keys)|
    decreases |counts|
  {
    if counts == map[] {
      assert WithIntent(leads, c, counts.Keys) == {};
    } else {
      var intent :| intent in counts && Total(counts) == counts[intent] + Total(counts - {intent});
      var rest := counts - {intent};
      TotalIsUnion(leads, c, rest);
      assert counts.Keys == {intent} + rest.Keys;
      OneGroupMore(leads, c, intent, rest.Keys);
    }
  }

  function SentTo(leads: LeadTable, some: set<Id>): set<Id> {
    set l | l in some && l in leads && leads[l].stepsSent > 0
  }

  /** Every contacted lead contributes at least one step. */
  lemma {:induction false} StepsCoverContacts(leads: LeadTable, some: set<Id>)
    requires some <= leads.Keys
    ensures |SentTo(leads, some)| <= StepsSent(leads, some)
    decreases |some|
  {
    if some == {} {
      assert SentTo(leads, some) == {};
    } else {
      var l :| l in some && StepsSent(leads, some) == leads[l].stepsSent + StepsSent(leads, some - {l});
      var rest := some - {l};
      StepsCoverContacts(leads, rest);
      assert SentTo(leads, some) == if leads[l].stepsSent > 0 then SentTo(leads, rest) + {l} else SentTo(leads, rest);
    }
  }

  /** A rate between nothing and everything, and as near the exact share as four digits get. */
  predicate IsRateOf(rate: real, part: nat, whole: nat) {
    && 0.0 <= rate <= 1.0
    && (whole == 0 ==> rate == 0.0)
    && (part == 0 ==> rate == 0.0) && (0 < part == whole ==> rate == 1.0)
    && (0 < whole ==> part as real / whole as real - 0.00005 <= rate <= part as real / whole as real + 0.00005)
  }

  /** Rounding does not leave the ends of the scale. */
  lemma {:induction false} RoundedInScale(x: real, round: real -> real)
    requires RoundsToFour(round) && 0.0 <= x <= 1.0
    ensures 0.0 <= round(x) <= 1.0 && (x == 0.0 || x == 1.0 ==> round(x) == x)
  {
    var n := (round(x) * 10000.0).Floor;
    assert -1 < n < 10001;
  }

  lemma {:induction false} ShareIsRate(part: nat, whole: nat, round: real -> real)
    requires RoundsToFour(round) && part <= whole
    ensures IsRateOf(Share(part, whole, round), part, whole)
  {
    if whole != 0 {
      var (p, w) := (part as real, whole as real);
      assert p / w * w == p;
      RoundedInScale(p / w, round);
    }
  }

  // ---------- The metrics of a reachable state ----------

  /** Replies and bounces are disjoint sets of contacted leads. */
  lemma {:induction false} RepliesAndBounces(s: Sys, c: Id)
    requires Inv(s)
    ensures var (leads, replied) := (s.db.leads, WithIntent(s.db.leads, c, IntentsSeen(s.db.leads, c) - {Bounce}));
      && StoppedFor(leads, c, Bounced) == WithIntent(leads, c, {Bounce})
      && replied * StoppedFor(leads, c, Bounced) == {}
      && replied + StoppedFor(leads, c, Bounced) <= Contacted(leads, c)
  {
    forall l | l in s.db.leads
      ensures s.db.leads[l].stopReason == Some(Bounced) <==> s.db.leads[l].replyIntent == Some(Bounce)
      ensures s.db.leads[l].replyIntent.Some? ==> s.db.leads[l].stepsSent > 0
    {
      assert LeadRowOk(s, l);
    }
  }

  /** The leads of a campaign whose reply or bounce was recorded with this intent. */
  function RepliedWith(leads: LeadTable, c: Id, intent: Intent): set<Id> {
    set l | l in leads && leads[l].campaign == c && leads[l].replyIntent == Some(intent)
  }

  /** What each number counts, over the rows of the campaign. */
  lemma {:induction false} MetricsCountLeads(leads: LeadTable, c: Id, round: real -> real)
    ensures var m := CampaignMetricsOf(Stats(leads, c), round);
      && m.leads == |(set l | l in leads && leads[l].campaign == c)|
      && m.contacted == |(set l | l in leads && leads[l].campaign == c && leads[l].stepsSent > 0)|
      && m.emailsSent == StepsSent(leads, set l | l in leads && leads[l].campaign == c)
      && m.bounced == |(set l | l in leads && leads[l].campaign == c && leads[l].stopReason == Some(Bounced))|
      && m.completed == |(set l | l in leads && leads[l].campaign == c && leads[l].state.Done?)|
      && m.inProgress ==
           |(set l | l in leads && leads[l].campaign == c
                     && (leads[l].state.Pending? || leads[l].state.Scheduled? || leads[l].state.Sent?))|
      && m.replied ==
           |(set l | l in leads && leads[l].campaign == c
                     && leads[l].replyIntent.Some? && !leads[l].replyIntent.value.Bounce?)|
  {
    var counts := Stats(leads, c).replyIntents - {Bounce};
    TotalIsUnion(leads, c, counts);
    assert counts.Keys == IntentsSeen(leads, c) - {Bounce};
    assert WithIntent(leads, c, counts.Keys) ==
      set l | l in leads && leads[l].campaign == c
              && leads[l].replyIntent.Some? && !leads[l].replyIntent.value.Bounce?;
    GroupsByColumns(leads, c);
  }

  lemma {:induction false} GroupsByColumns(leads: LeadTable, c: Id)
    ensures Members(leads, c) == set l | l in leads && leads[l].campaign == c
    ensures Contacted(leads, c) == set l | l in leads && leads[l].campaign == c && leads[l].stepsSent > 0
    ensures StoppedFor(leads, c, Bounced) ==
      set l | l in leads && leads[l].campaign == c && leads[l].stopReason == Some(Bounced)
    ensures InState(leads, c, {LeadState.Done}) ==
      set l | l in leads && leads[l].campaign == c && leads[l].state.Done?
    ensures InState(leads, c, UNDER_WAY) ==
      set l | l in leads && leads[l].campaign == c
              && (leads[l].state.Pending? || leads[l].state.Scheduled? || leads[l].state.Sent?)
  {
    assert forall state: LeadState ::
      state in UNDER_WAY <==> state.Pending? || state.Scheduled? || state.Sent?;
  }

  /** The replies by intent: each intent but a bounce that some lead has, with the number of those leads. */
  lemma {:induction false} RepliesByIntent(leads: LeadTable, c: Id, round: real -> real, intent: Intent)
    ensures var counts := CampaignMetricsOf(Stats(leads, c), round).replyIntents;
      && (intent in counts <==> !intent.Bounce? && RepliedWith(leads, c, intent) != {})
      && (intent in counts ==> counts[intent] == |RepliedWith(leads, c, intent)|)
  {
    assert WithIntent(leads, c, {intent}) == RepliedWith(leads, c, intent);
    if RepliedWith(leads, c, intent) != {} {
      var l :| l in RepliedWith(leads, c, intent);
      assert intent in IntentsSeen(leads, c);
    }
    if intent in IntentsSeen(leads, c) {
      var l :| l in leads && leads[l].campaign == c && leads[l].replyIntent == Some(intent);
      assert l in RepliedWith(leads, c, intent);
    }
  }

  /**
   In every reachable state, replies and bounces are at most the contacted leads, and those at most the emails sent.
   */
  lemma {:induction false} MetricsAreConsistent(s: Sys, c: Id, round: real -> real)
    requires Inv(s) && RoundsToFour(round)
    ensures var m := CampaignMetricsOf(Stats(s.db.leads, c), round);
      && m.replied + m.bounced <= m.contacted <= m.emailsSent
      && m.contacted <= m.leads
      && m.bounced == |WithIntent(s.db.leads, c, {Bounce})|
      && IsRateOf(m.replyRate, m.replied, m.contacted) && IsRateOf(m.bounceRate, m.bounced, m.contacted)
  {
    var (leads, stats) := (s.db.leads, Stats(s.db.leads, c));
    var counts := stats.replyIntents - {Bounce};
    TotalIsUnion(leads, c, counts);
    assert counts.Keys == IntentsSeen(leads, c) - {Bounce};
    RepliesAndBounces(s, c);
    var (replied, bounced) := (WithIntent(leads, c, counts.Keys), StoppedFor(leads, c, Bounced));
    assert |replied + bounced| == |replied| + |bounced|;
    SubsetIsSmaller(replied + bounced, Contacted(leads, c));
    SubsetIsSmaller(Contacted(leads, c), Members(leads, c));
    StepsCoverContacts(leads, Members(leads, c));
    assert Contacted(leads, c) == SentTo(leads, Members(leads, c));
    ShareIsRate(|replied|, stats.contacted, round);
    ShareIsRate(|bounced|, stats.contacted, round);
  }

  lemma {:induction false} InOneGroup(leads: LeadTable, c: Id, l: Id)
    ensures var (a, b) := (l in InState(leads, c, UNDER_WAY), l in InState(leads, c, {LeadState.Done}));
      var (p, f) := (l in InState(leads, c, {LeadState.Paused}), l in InState(leads, c, {LeadState.Failed}));
      && (l in Members(leads, c) <==> a || b || p || f)
      && !(a && b) && !(a && p) && !(a && f) && !(b && p) && !(b && f) && !(p && f)
  {
    if l in leads {
      var state := leads[l].state;
      assert state in UNDER_WAY <==> state.Pending? || state.Scheduled? || state.Sent?;
    }
  }

  lemma {:induction false} FourGroups(whole: set<Id>, a: set<Id>, b: set<Id>, p: set<Id>, f: set<Id>)
    requires whole == a + (b + (p + f)) && p * f == {} && b * (p + f) == {} && a * (b + (p + f)) == {}
    ensures |whole| == |a| + |b| + |p| + |f|
  {
    Disjoint(p, f);
    Disjoint(b, p + f);
    Disjoint(a, b + (p + f));
  }

  lemma {:induction false} GroupsAddUp(leads: LeadTable, c: Id)
    ensures |Members(leads, c)| ==
      |InState(leads, c, UNDER_WAY)| + |InState(leads, c, {LeadState.Done})|
      + |InState(leads, c, {LeadState.Paused})| + |InState(leads, c, {LeadState.Failed})|
  {
    var (a, b) := (InState(leads, c, UNDER_WAY), InState(leads, c, {LeadState.Done}));
    var (p, f) := (InState(leads, c, {LeadState.Paused}), InState(leads, c, {LeadState.Failed}));
    forall l: Id
      ensures l in Members(leads, c) <==> l in a || l in b || l in p || l in f
      ensures (l in p ==> l !in f) && (l in b ==> l !in p && l !in f) && (l in a ==> l !in b && l !in p && l !in f)
    {
      InOneGroup(leads, c, l);
    }
    FourGroups(Members(leads, c), a, b, p, f);
  }

  /** In progress, completed, paused and failed leads are all the leads, each once. */
  lemma {:induction false} StatesPartitionLeads(leads: LeadTable, c: Id)
    ensures var stats := Stats(leads, c);
      var (paused, failed) := (InState(leads, c, {LeadState.Paused}), InState(leads, c, {LeadState.Failed}));
      stats.leads == stats.inProgress + stats.completed + |paused| + |failed|
  {
    GroupsAddUp(leads, c);
  }
}
