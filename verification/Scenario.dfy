/** The first three commands of a concrete run: a campaign of two steps, one lead, and a start. */
module Scenario {
  import opened Base
  import opened CampaignDomain
  import opened Invariant
  import opened Machine
  import opened Reachable
  import opened Tables
  import Commands
  import Text

  const DRAFTS := [StepDraft("s", "b", 0), StepDraft("t", "c", 0)]
  const STEPS := [Step(11, 1, "s", "b", 0), Step(12, 2, "t", "c", 0)]
  const NEW_DRAFT := Campaign(10, 1, 2, "c", Draft, STEPS, 0)
  const NEWCOMER := Lead(13, 1, 10, "x", LeadState.Pending, 0, None, None, 0)
  const FIRST_JOB :=
    SendJob(14, 1, 2, 13, Payload(10, 13, 11, 1, "x", "s", "b"), 0, JobStatus.Pending, 0, None, None, None, None, 0)

  const START := StartCampaign(10, [NEWCOMER], 0)

  function EmptyState(): Sys {
    Sys(Db(map[1 := Mailbox(2, "m", None, 2)], map[], map[], map[], {}, map[], map[], map[], [], 10), 0, map[], map[])
  }

  function CreatedState(): Sys {
    EmptyState().(db := EmptyState().db.(campaigns := map[10 := NEW_DRAFT], nextId := 13))
  }

  function AddedState(): Sys {
    CreatedState().(db := CreatedState().db.(leads := map[13 := NEWCOMER], nextId := 14),
                    leadLogs := map[13 := LeadLog([], [])])
  }

  lemma {:induction false} Creates()
    ensures Apply(EmptyState(), CreateCampaign(1, 2, "c", DRAFTS, 0)) == CreatedState()
  {
    assert NewCampaign(10, 1, 2, "c", DRAFTS, 0).value.steps == STEPS;
  }

  lemma {:induction false} AcceptsX()
    ensures AcceptedEmails(["x"], {}) == ["x"]
  {
    assert Text.NormalizeEmail("x") == "x";
    assert ["x"][..0] == [];
    assert AcceptedEmails([], {}) == [];
  }

  lemma {:induction false} NewcomerIsNew()
    ensures NewLeads(1, 10, ["x"], 13, 0) == [NEWCOMER]
  {
    assert Text.NormalizeEmail("x") == "x";
    assert ["x"][..0] == [];
    assert NewLeads(1, 10, [], 13, 0) == [];
  }

  lemma {:induction false} InsertsNewcomer()
    ensures InsertLeads(map[], [NEWCOMER]) == map[13 := NEWCOMER]
    ensures LogLeads(map[], [NEWCOMER]) == map[13 := LeadLog([], [])]
    ensures LogJobs(map[], map[]) == map[]
  {
    assert [NEWCOMER][..0] == [];
    assert InsertLeads(map[], []) == map[];
    assert LogLeads(map[], []) == map[];
  }

  lemma {:induction false} Adds()
    ensures Apply(CreatedState(), AddLeads(10, ["x"], 0)) == AddedState()
  {
    var s := CreatedState();
    assert NormalForms(Commands.CampaignEmails(s.db.leads, 10)) == {};
    AcceptsX();
    NewcomerIsNew();
    assert Commands.LeadsToAdd(s.db, NEW_DRAFT, ["x"], 0) == [NEWCOMER];
    InsertsNewcomer();
    AddsRows();
  }

  lemma {:induction false} AddsRows()
    requires InsertLeads(map[], [NEWCOMER]) == map[13 := NEWCOMER]
    requires LogLeads(map[], [NEWCOMER]) == map[13 := LeadLog([], [])]
    requires LogJobs(map[], map[]) == map[]
    ensures ApplyAddedRows(CreatedState(), 10, [NEWCOMER], 1, 0) == AddedState()
  {
  }

  lemma {:induction false} SchedulesNewcomer()
    ensures var started := NEW_DRAFT.(status := Active);
      started.Schedule([NEWCOMER], 0, 14) == Success(([NEWCOMER.Moved(LeadState.Scheduled, 0)], [FIRST_JOB]))
  {
    var started := NEW_DRAFT.(status := Active);
    ScheduleMembersShape(started, [NEWCOMER], 0, 14);
    var (scheduled, jobs) := started.Schedule([NEWCOMER], 0, 14).value;
    assert scheduled[0] == NEWCOMER.Moved(LeadState.Scheduled, 0);
    assert jobs[0] == started.JobFor(NEWCOMER, STEPS[0], 0, 14);
    assert scheduled == [scheduled[0]] && jobs == [jobs[0]];
  }

  /** The tables once the campaign has been started. */
  function StartedDb(): Db {
    AddedState().db.(campaigns := map[10 := NEW_DRAFT.(status := Active)],
                     leads := map[13 := NEWCOMER.Moved(LeadState.Scheduled, 0)],
                     jobs := map[14 := FIRST_JOB], nextId := 15)
  }

  ghost predicate IsStarted(s: Sys) {
    Inv(s) && s.db == StartedDb() && s.clock == 0
  }

  lemma {:induction false} WritesNewcomer()
    ensures UpdateLeads(map[13 := NEWCOMER], [NEWCOMER.Moved(LeadState.Scheduled, 0)]) ==
      Some(map[13 := NEWCOMER.Moved(LeadState.Scheduled, 0)])
    ensures InsertJobs(map[], [FIRST_JOB]) == map[14 := FIRST_JOB]
  {
    var moved, table := NEWCOMER.Moved(LeadState.Scheduled, 0), map[13 := NEWCOMER];
    assert [FIRST_JOB][..0] == [] && [moved][..0] == [];
    assert InsertJobs(map[], []) == map[];
    assert UpdateLeads(table, []) == Some(table);
    assert WithProgressOf(NEWCOMER, moved) == moved && table[13 := moved] == map[13 := moved];
    assert UpdateLeads(table, [moved]) == Some(table[13 := moved]);
  }

  lemma {:induction false} StartsRows()
    ensures Enabled(AddedState(), START)
    ensures Apply(AddedState(), START).db == StartedDb() && Apply(AddedState(), START).clock == 0
  {
    SchedulesNewcomer();
    WritesNewcomer();
  }

  /** Three commands that leave one pending job. */
  lemma {:induction false} OneLeadStarted() returns (setup: seq<Op>)
    ensures Init(EmptyState()) && IsRun(EmptyState(), setup) && IsStarted(Exec(EmptyState(), setup))
  {
    var create, add := CreateCampaign(1, 2, "c", DRAFTS, 0), AddLeads(10, ["x"], 0);
    Creates();
    Adds();
    StartsRows();
    InitHolds(EmptyState());
    ApplyKeeps(EmptyState(), create);
    ApplyKeeps(CreatedState(), add);
    ApplyKeeps(AddedState(), START);
    RunCons(AddedState(), START, []);
    assert [START] + [] == [START];
    RunCons(CreatedState(), add, [START]);
    RunCons(EmptyState(), create, [add] + [START]);
    setup := [create] + ([add] + [START]);
  }
}
