/** The decisions of `LeadRaces` are those of the machine's transactions, and write the rows those write. */
module LeadRacesAgree {
  import opened Base
  import opened CampaignDomain
  import opened LeadRaces
  import opened SendQueue
  import opened Tables
  import Replies
  import Sending

  /** What a processing call writes to its lead's row: nothing, or the target of one decision. */
  ghost predicate WritesTarget(
    db: Db, claim: ClaimedSendJob, moment: Time, env: Sending.SendEnv, outcome: Sending.Outcome, after: Db)
    requires claim.payload.campaign in db.campaigns && claim.lead in db.leads
  {
    var (c, lead, purpose) :=
      (db.campaigns[claim.payload.campaign], db.leads[claim.lead], Process(claim.payload.stepPosition, false));
    && claim.lead in after.leads
    && var row := Some(after.leads[claim.lead]);
      match outcome
      case Sent => row == Target(c, lead, purpose, Send(env.stampedAt))
      case Suppressed => row == Target(c, lead, purpose, GiveUp(true, moment))
      case Failed => row == Target(c, lead, purpose, GiveUp(false, moment))
      case _ => after.leads == db.leads
  }

  lemma {:induction false} SettledTarget(
    db: Db, claim: ClaimedSendJob, moment: Time, env: Sending.SendEnv, result: Sending.DispatchResult)
    requires Sending.Accepts(db, claim) && (result.DispatchSent? ==> result.sentAt == env.stampedAt)
    ensures var r := Sending.Settle(db, claim, moment, result);
      && (r.Processed? ==> WritesTarget(db, claim, moment, env, r.outcome, r.db) && !r.outcome.Cancelled?)
      && (r.Raised? ==>
            var purpose := Process(claim.payload.stepPosition, false);
            Target(db.campaigns[claim.payload.campaign], db.leads[claim.lead], purpose, Send(env.stampedAt)).None?)
  {
  }

  lemma {:induction false} DispatchLeavesLeads(db: Db, claim: ClaimedSendJob, env: Sending.SendEnv)
    ensures var (after, result) :=
        Sending.Dispatch(db, claim.workspace, claim.payload.toEmail, claim.payload.subject, claim.payload.body, env);
      && after.leads == db.leads && after.campaigns == db.campaigns
      && (result.DispatchSent? ==> result.sentAt == env.stampedAt)
  {
  }

  /** The atomic call acts exactly where the row calls for it, and then writes what was decided on from that row. */
  lemma {:induction false} CallsAgree(db: Db, claim: ClaimedSendJob, moment: Time, env: Sending.SendEnv)
    requires claim.payload.campaign in db.campaigns && claim.lead in db.leads
    ensures var (c, lead, purpose) :=
        (db.campaigns[claim.payload.campaign], db.leads[claim.lead], Process(claim.payload.stepPosition, false));
      var r := Sending.ProcessClaimed(db, claim, moment, env);
      && (CallsFor(c, lead, purpose) <==> !(r.Processed? && r.outcome.Cancelled?))
      && (r.Processed? ==> WritesTarget(db, claim, moment, env, r.outcome, r.db))
      && (r.Raised? ==> Target(c, lead, purpose, Send(env.stampedAt)).None?)
  {
    if Sending.Accepts(db, claim) {
      var (after, result) :=
        Sending.Dispatch(db, claim.workspace, claim.payload.toEmail, claim.payload.subject, claim.payload.body, env);
      DispatchLeavesLeads(db, claim, env);
      SettledTarget(after, claim, moment, env, result);
    }
  }

  /** So does the consumer. */
  lemma {:induction false} StopsAgree(db: Db, l: Id, intent: Intent, moment: Time)
    requires l in db.leads && db.leads[l].campaign in db.campaigns
    requires db.campaigns[db.leads[l].campaign].id == db.leads[l].campaign
    ensures var (c, lead, r) :=
        (db.campaigns[db.leads[l].campaign], db.leads[l], Replies.StopFoundLead(db, l, intent, moment));
      && (CallsFor(c, lead, Stop(intent)) <==> r.1.Some?)
      && (if r.1.Some? then l in r.0.leads && Some(r.0.leads[l]) == r.1 == Target(c, lead, Stop(intent), Answer(moment))
          else r.0 == db)
  {
  }
}
