/** The rows of both contexts, as one value per database state. */
module Tables {
  import opened Base
  import opened CampaignDomain
  import Text

  datatype Mailbox = Mailbox(id: Id, emailAddress: string, cursor: Option<string>, dailySendCap: nat)

  datatype Outbound = Outbound(
    id: Id,
    workspace: Id,
    mailbox: Id,
    toEmail: string,
    subject: string,
    body: string,
    messageId: string,
    providerMessageId: Option<string>,
    providerThreadId: Option<string>,
    createdAt: Time)

  datatype Inbound = Inbound(
    id: Id,
    workspace: Id,
    mailbox: Id,
    providerMessageId: string,
    providerThreadId: string,
    fromEmail: string,
    subject: string,
    snippet: string,
    inReplyTo: Option<string>,
    references: Option<string>,
    matched: Option<Id>,
    intent: Option<Intent>,
    receivedAt: Time,
    createdAt: Time)

  datatype SuppressionReason = UnsubscribeRequest | HardBounce

  /** The unique key of a suppression row. */
  datatype Suppression = Suppression(workspace: Id, email: string, reason: SuppressionReason)

  datatype EventKind = InboundReceived | ReplyMatched | ReplyClassified

  /** An outbox row, with the payload fields that have a reader. */
  datatype OutboxEvent = OutboxEvent(
    id: Id,
    workspace: Id,
    kind: EventKind,
    aggregate: Id,
    version: nat,
    matched: Option<Id>,
    intent: Intent,
    createdAt: Time)

  /** Every table. `nextId` is the next identifier the generator hands out. */
  datatype Db = Db(
    mailboxes: map<Id, Mailbox>,
    campaigns: map<Id, Campaign>,
    leads: map<Id, Lead>,
    jobs: map<Id, SendJob>,
    processed: set<Id>,
    outbounds: map<Id, Outbound>,
    inbounds: map<Id, Inbound>,
    suppressions: map<Suppression, Id>,
    events: seq<OutboxEvent>,
    nextId: Id)

  /** Every row stands under its own identifier. */
  ghost predicate PrimaryKeys(db: Db) {
    && (forall id :: id in db.campaigns ==> db.campaigns[id].id == id)
    && (forall id :: id in db.leads ==> db.leads[id].id == id)
    && (forall id :: id in db.jobs ==> db.jobs[id].id == id)
    && (forall id :: id in db.outbounds ==> db.outbounds[id].id == id)
  }

  /** Inserting rows in order, keyed by their identifiers. */
  function InsertLeads(table: map<Id, Lead>, rows: seq<Lead>): map<Id, Lead> {
    if rows == [] then table
    else
      var last := rows[|rows| - 1];
      InsertLeads(table, rows[..|rows| - 1])[last.id := last]
  }

  /** The columns `update_many` writes; the others keep their stored value. */
  function WithProgressOf(row: Lead, lead: Lead): Lead {
    row.(state := lead.state, stepsSent := lead.stepsSent, stopReason := lead.stopReason,
         replyIntent := lead.replyIntent, updatedAt := lead.updatedAt)
  }

  /** Overwriting the progress of stored leads; a lead without a row is an error. */
  function UpdateLeads(table: map<Id, Lead>, leads: seq<Lead>): (r: Option<map<Id, Lead>>)
    ensures r.Some? <==> forall i :: 0 <= i < |leads| ==> leads[i].id in table
    ensures r.Some? ==> r.value.Keys == table.Keys
  {
    if leads == [] then Some(table)
    else
      var last := leads[|leads| - 1];
      assert leads == leads[..|leads| - 1] + [last];
      match UpdateLeads(table, leads[..|leads| - 1])
      case None => None
      case Some(done) =>
        if last.id in done then Some(done[last.id := WithProgressOf(done[last.id], last)]) else None
  }

  function InsertJobs(table: map<Id, SendJob>, rows: seq<SendJob>): map<Id, SendJob> {
    if rows == [] then table
    else
      var last := rows[|rows| - 1];
      InsertJobs(table, rows[..|rows| - 1])[last.id := last]
  }

  /** Rows with consecutive identifiers land on their own keys and touch no other. */
  lemma {:induction false} InsertLeadsAt(table: map<Id, Lead>, rows: seq<Lead>, first: Id, id: Id)
    requires forall i :: 0 <= i < |rows| ==> rows[i].id == first + i
    ensures var after := InsertLeads(table, rows);
      && (id in after <==> id in table || first <= id < first + |rows|)
      && (id in after ==> after[id] == if first <= id < first + |rows| then rows[id - first] else table[id])
  {
    if rows != [] {
      InsertLeadsAt(table, rows[..|rows| - 1], first, id);
    }
  }

  lemma {:induction false} InsertJobsAt(table: map<Id, SendJob>, rows: seq<SendJob>, first: Id, id: Id)
    requires forall i :: 0 <= i < |rows| ==> rows[i].id == first + i
    ensures var after := InsertJobs(table, rows);
      && (id in after <==> id in table || first <= id < first + |rows|)
      && (id in after ==> after[id] == if first <= id < first + |rows| then rows[id - first] else table[id])
  {
    if rows != [] {
      InsertJobsAt(table, rows[..|rows| - 1], first, id);
    }
  }

  ghost predicate DistinctLeads(leads: seq<Lead>) {
    forall i, j :: 0 <= i < j < |leads| ==> leads[i].id != leads[j].id
  }

  /** Each lead has a row and differs from it in progress only. */
  ghost predicate ProgressOnly(table: map<Id, Lead>, leads: seq<Lead>) {
    forall i :: 0 <= i < |leads| ==> leads[i].id in table && WithProgressOf(table[leads[i].id], leads[i]) == leads[i]
  }

  /** Updating distinct leads writes each of them. */
  lemma {:induction false} UpdateLeadsWrites(table: map<Id, Lead>, leads: seq<Lead>, i: nat)
    requires i < |leads| && ProgressOnly(table, leads) && DistinctLeads(leads)
    ensures UpdateLeads(table, leads).Some? && UpdateLeads(table, leads).value[leads[i].id] == leads[i]
  {
    var last := |leads| - 1;
    if i < last {
      UpdateLeadsWrites(table, leads[..last], i);
    } else {
      UpdateLeadsKeeps(table, leads[..last], leads[last].id);
    }
  }

  /** Updating leads leaves every other row alone. */
  lemma {:induction false} UpdateLeadsKeeps(table: map<Id, Lead>, leads: seq<Lead>, id: Id)
    requires id in table && forall i :: 0 <= i < |leads| ==> leads[i].id in table && leads[i].id != id
    ensures UpdateLeads(table, leads).Some? && UpdateLeads(table, leads).value[id] == table[id]
  {
    if leads != [] {
      UpdateLeadsKeeps(table, leads[..|leads| - 1], id);
    }
  }

  predicate IsSuppressed(suppressions: map<Suppression, Id>, workspace: Id, email: string) {
    var address := Text.NormalizeEmail(email);
    || Suppression(workspace, address, UnsubscribeRequest) in suppressions
    || Suppression(workspace, address, HardBounce) in suppressions
  }

  /** The identifiers of the sent messages of a mailbox stamped at or after `since`. */
  function SentSince(outbounds: map<Id, Outbound>, mailbox: Id, since: Time): set<Id> {
    set id | id in outbounds && outbounds[id].mailbox == mailbox
             && outbounds[id].providerMessageId.Some? && outbounds[id].createdAt >= since
  }
}
