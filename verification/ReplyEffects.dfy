/** What handling one classified reply writes, column by column. */
module ReplyEffects {
  import opened Base
  import opened CampaignDomain
  import opened Replies
  import opened SendQueue
  import opened Tables

  /** The event names a message that this job sent. Events before version 2 name none. */
  predicate Names(db: Db, event: OutboxEvent, j: Id) {
    event.version >= 2 && event.matched.Some? && j in db.jobs && db.jobs[j].outbound == event.matched
  }

  /** A lead that a reply stops: it has been sent to, and is not stopped already. */
  predicate Stops(db: Db, l: Id) {
    && l in db.leads && db.leads[l].campaign in db.campaigns
    && db.campaigns[db.leads[l].campaign].id == db.leads[l].campaign
    && (db.leads[l].state.Sent? || db.leads[l].state.Done?)
  }

  /** The stopped row: a bounce fails the lead, any other reply pauses it. */
  function StoppedRow(lead: Lead, intent: Intent, moment: Time): Lead {
    lead.(state := if intent.Bounce? then LeadState.Failed else LeadState.Paused,
          stopReason := Some(match intent case Bounce => Bounced case Unsubscribe => Unsubscribed case _ => Replied),
          replyIntent := Some(intent), updatedAt := moment)
  }

  /** The pending jobs of the lead cancelled, every other job as it was. */
  ghost predicate PendingCancelled(before: JobTable, after: JobTable, l: Id, moment: Time) {
    && after.Keys == before.Keys
    && forall j :: j in before ==>
         after[j] == if before[j].lead == l && before[j].status.Pending?
                     then before[j].(status := JobStatus.Cancelled, updatedAt := moment) else before[j]
  }

  ghost predicate LeadStopped(db: Db, l: Id, event: OutboxEvent, moment: Time, after: Db)
    requires l in db.leads
  {
    && after == db.(leads := db.leads[l := StoppedRow(db.leads[l], event.intent, moment)], jobs := after.jobs,
                    processed := db.processed + {event.id})
    && PendingCancelled(db.jobs, after.jobs, l, moment)
  }

  /** An event that names no message of a job is acknowledged, and nothing else is written. */
  lemma {:induction false} UnnamedIsAcknowledged(db: Db, event: OutboxEvent, moment: Time)
    requires forall j :: !Names(db, event, j)
    ensures HandleEvent(db, event, moment) == db.(processed := db.processed + {event.id})
  {
    if event.version >= 2 && event.matched.Some? {
      forall j ensures !LinksTo(db.jobs, j, event.matched.value) {
        assert !Names(db, event, j);
      }
    }
  }

  /** One that does stops the lead of that job, if it can be stopped, and is acknowledged either way. */
  lemma {:induction false} NamedStopsItsLead(db: Db, event: OutboxEvent, moment: Time, j: Id)
    requires LinksUnique(db.jobs) && Names(db, event, j)
    ensures var (l, after) := (db.jobs[j].lead, HandleEvent(db, event, moment));
      if Stops(db, l) then LeadStopped(db, l, event, moment, after)
      else after == db.(processed := db.processed + {event.id})
  {
    FindLeadOfLink(db.jobs, j, event.matched.value);
  }

  // ---------- The leads a batch stops ----------

  ghost predicate Keyed(leads: map<Id, Lead>) {
    forall l :: l in leads ==> leads[l].id == l
  }

  predicate Listed(stopped: seq<Lead>, l: Id) {
    exists k :: 0 <= k < |stopped| && stopped[k].id == l
  }

  /** Each row listed is the row as it is now, of a lead that is stopped and was not, and stands there once. */
  ghost predicate AreNewlyStopped(before: map<Id, Lead>, after: map<Id, Lead>, stopped: seq<Lead>) {
    && (forall k :: 0 <= k < |stopped| ==>
          && stopped[k].id in before && stopped[k].id in after && after[stopped[k].id] == stopped[k]
          && stopped[k].IsStopped() && !before[stopped[k].id].IsStopped())
    && (forall k, m :: 0 <= k < m < |stopped| ==> stopped[k].id != stopped[m].id)
    && after.Keys == before.Keys
    && (forall l :: l in before && !Listed(stopped, l) ==> after[l] == before[l])
  }

  /** One event stops the lead it reports, if any, and no other. */
  lemma {:induction false} OneStopped(db: Db, event: OutboxEvent, moment: Time)
    requires Keyed(db.leads)
    ensures var (after, stopped) := StopLead(db, ToReply(event), moment);
      if stopped.None? then after == db
      else
        && stopped.value.id in db.leads && !db.leads[stopped.value.id].IsStopped() && stopped.value.IsStopped()
        && after.leads == db.leads[stopped.value.id := stopped.value]
  {
  }

  lemma {:induction false} OneMoreStopped(before: map<Id, Lead>, leads: map<Id, Lead>, stopped: seq<Lead>, lead: Lead)
    requires AreNewlyStopped(before, leads, stopped)
    requires lead.id in leads && !leads[lead.id].IsStopped() && lead.IsStopped()
    ensures AreNewlyStopped(before, leads[lead.id := lead], stopped + [lead])
  {
    assert !Listed(stopped, lead.id);
    forall l ensures Listed(stopped + [lead], l) <==> Listed(stopped, l) || l == lead.id {
      ListedGrows(stopped, lead, l);
    }
  }

  lemma {:induction false} ListedGrows(stopped: seq<Lead>, lead: Lead, l: Id)
    ensures Listed(stopped + [lead], l) <==> Listed(stopped, l) || l == lead.id
  {
    var now := stopped + [lead];
    assert now[|stopped|] == lead;
    if k :| 0 <= k < |stopped| && stopped[k].id == l {
      assert now[k].id == l;
    }
    if k :| 0 <= k < |now| && now[k].id == l {
      assert k < |stopped| ==> stopped[k].id == l;
    }
  }

  /** The leads a batch returns are those it has stopped, each once, with the rows it left. */
  lemma {:induction false} StoppedAreThoseStopped(db: Db, batch: seq<OutboxEvent>, moment: Time)
    requires Keyed(db.leads)
    ensures var after := HandleAll(db, batch, moment);
      Keyed(after.leads) && AreNewlyStopped(db.leads, after.leads, StoppedIn(db, batch, moment))
  {
    if batch != [] {
      var last := |batch| - 1;
      var before := HandleAll(db, batch[..last], moment);
      StoppedAreThoseStopped(db, batch[..last], moment);
      OneStopped(before, batch[last], moment);
      var (stopped, lead) := (StoppedIn(db, batch[..last], moment), StopLead(before, ToReply(batch[last]), moment).1);
      if lead.Some? { OneMoreStopped(db.leads, before.leads, stopped, lead.value); }
    }
  }
}
