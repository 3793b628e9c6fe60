/** The operator's commands: create a campaign, add leads to it, start it. */
module Commands {
  import opened Base
  import opened CampaignDomain
  import opened Tables

  datatype AddLeadsResult = AddLeadsResult(added: nat, skipped: int, scheduled: nat)

  /** The campaign takes one identifier, and each step one more. */
  function CreateCampaign(db: Db, workspace: Id, mailbox: Id, name: string, drafts: seq<StepDraft>, moment: Time)
    : Result<Db, DomainError>
  {
    match NewCampaign(db.nextId, workspace, mailbox, name, drafts, moment)
    case Failure(error) => Failure(error)
    case Success(campaign) =>
      Success(db.(campaigns := db.campaigns[campaign.id := campaign], nextId := db.nextId + 1 + |drafts|))
  }

  function CampaignEmails(leads: map<Id, Lead>, campaign: Id): set<string> {
    set id | id in leads && leads[id].campaign == campaign :: leads[id].email
  }

  /** The leads `AddLeads` inserts, in order. */
  function LeadsToAdd(db: Db, campaign: Campaign, emails: seq<string>, moment: Time): seq<Lead> {
    NewLeads(campaign.workspace, campaign.id,
             AcceptedEmails(emails, NormalForms(CampaignEmails(db.leads, campaign.id))), db.nextId, moment)
  }

  function AddLeads(
    db: Db, campaign: Id, emails: seq<string>, moment: Time): Result<(Db, AddLeadsResult), DomainError>
  {
    if campaign !in db.campaigns then Failure(CampaignNotFound)
    else AddLeadRows(db, campaign, LeadsToAdd(db, db.campaigns[campaign], emails, moment), |emails|, moment)
  }

  /** Inserting the rows, and scheduling them at once if the campaign is active. */
  function AddLeadRows(db: Db, campaign: Id, added: seq<Lead>, given: nat, moment: Time)
    : Result<(Db, AddLeadsResult), DomainError>
    requires campaign in db.campaigns
  {
    var inserted := db.(leads := InsertLeads(db.leads, added), nextId := db.nextId + |added|);
    if db.campaigns[campaign].IsActive() && added != [] then
      ScheduleAdded(inserted, |added|, given, db.campaigns[campaign].Schedule(added, moment, inserted.nextId))
    else Success((inserted, AddLeadsResult(|added|, given - |added|, 0)))
  }

  function ScheduleAdded(
    inserted: Db, added: nat, given: nat, pairs: Result<(seq<Lead>, seq<SendJob>), DomainError>)
    : Result<(Db, AddLeadsResult), DomainError>
  {
    match pairs
    case Failure(error) => Failure(error)
    case Success((scheduled, jobs)) =>
      match UpdateLeads(inserted.leads, scheduled)
      case None => Failure(LeadRowMissing)
      case Some(leads) =>
        Success((inserted.(leads := leads, jobs := InsertJobs(inserted.jobs, jobs), nextId := inserted.nextId + |jobs|),
                 AddLeadsResult(added, given - added, |scheduled|)))
  }

  ghost predicate PendingRow(leads: map<Id, Lead>, campaign: Id, lead: Lead) {
    lead.id in leads && leads[lead.id] == lead && lead.campaign == campaign && lead.state.Pending?
  }

  ghost predicate PendingListed(leads: map<Id, Lead>, campaign: Id, pending: seq<Lead>, id: Id)
    requires id in leads
  {
    leads[id].campaign == campaign && leads[id].state.Pending? ==> leads[id] in pending
  }

  /** The pending leads of a campaign in creation order, which is the order of their identifiers. */
  ghost predicate IsPendingList(leads: map<Id, Lead>, campaign: Id, pending: seq<Lead>) {
    && (forall i, j :: 0 <= i < j < |pending| ==> pending[i].id < pending[j].id)
    && (forall i :: 0 <= i < |pending| ==> PendingRow(leads, campaign, pending[i]))
    && (forall id {:trigger PendingListed(leads, campaign, pending, id)} :: id in leads ==>
          PendingListed(leads, campaign, pending, id))
  }

  function StartCampaign(db: Db, campaign: Id, pending: seq<Lead>, moment: Time): Result<(Db, nat), DomainError> {
    if campaign !in db.campaigns then Failure(CampaignNotFound)
    else if db.campaigns[campaign].IsActive() then Success((db, 0))
    else if pending == [] then Failure(CampaignHasNoLeads)
    else
      match db.campaigns[campaign].Start(pending, moment, db.nextId)
      case Failure(error) => Failure(error)
      case Success((started, scheduled, jobs)) =>
        match UpdateLeads(db.leads, scheduled)
        case None => Failure(LeadRowMissing)
        case Some(leads) =>
          Success((db.(campaigns := db.campaigns[campaign := db.campaigns[campaign].(status := started.status)],
                       leads := leads,
                       jobs := InsertJobs(db.jobs, jobs),
                       nextId := db.nextId + |jobs|),
                   |scheduled|))
  }
}
