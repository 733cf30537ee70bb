/** The service's calls as they run on the database when nothing comes in between
    (src/application/WorkflowService.cs). */
module Operations {
  import opened Wrappers
  import opened Text
  import opened Domain
  import opened EventTable
  import opened Store
  import opened RoutingPolicy
  import opened Orchestrator
  import opened Service
  import opened Protocol
  import opened Scanning
  import opened Repository
  import opened ActionRepository
  import Agents
  import RunOutcome

  datatype ServiceError =
    | NotFoundError
    | StaleVersion
    | Cancelled
    | InvalidTransition
    | ConflictingDecision
    | BadMessage              // the policy's ArgumentException
    | Storage

  function Translated(error: RepositoryError): ServiceError {
    match error
    case NotFound => NotFoundError
    case Stale => StaleVersion
    case Conflict(_) => ConflictingDecision
    case _ => Storage
  }

  /** The workflow is what is stored. */
  ghost predicate Stands(rows: Rows, workflow: Workflow) {
    workflow.row.id in rows && MapToDomain(rows[workflow.row.id]) == workflow
  }

  /** Only this workflow's row may differ. */
  ghost predicate OnlyTouches(before: Rows, after: Rows, id: WorkflowId) {
    after.Keys == before.Keys && forall other | other in before && other != id :: after[other] == before[other]
  }

  function Written(stored: Stored, current: Workflow, write: Write, now: int): Stored {
    Outcome(stored, CommitUpdate(stored, NextState(current, write, now), current.row.version, |stored.events|))
  }

  /** A write on a current state stores exactly the next state and touches no decision. */
  lemma WrittenIsNext(stored: Stored, write: Write, now: int)
    requires ValidStored(stored)
    ensures var after := Written(stored, MapToDomain(stored), write, now);
            && ValidStored(after)
            && MapToDomain(after) == NextState(MapToDomain(stored), write, now)
            && after.decisions == stored.decisions && after.actions == stored.actions && after.cases == stored.cases
  {
    var current := MapToDomain(stored);
    var next := NextState(current, write, now);
    InsertAppends(stored.events, next.events);
    assert next.events[|stored.events|..] == NewEvents(write, now);
  }

  /** How one UpdateAsync of a run ends when nothing comes in between. */
  function SaveResult(rows: Rows, current: Workflow, write: Write, now: int): Result<Workflow, ServiceError> {
    if current.row.id !in rows then Err(NotFoundError)
    else if rows[current.row.id].row.version != current.row.version then Err(StaleVersion)
    else Ok(NextState(current, write, now))
  }

  lemma SavedStands(rows: Rows, current: Workflow, write: Write, now: int)
    requires current.row.id in rows && rows[current.row.id].row.id == current.row.id && ValidStored(rows[current.row.id])
    ensures var after := rows[current.row.id := Written(rows[current.row.id], current, write, now)];
            && OnlyTouches(rows, after, current.row.id)
            && (Stands(rows, current) ==> rows[current.row.id].row.version == current.row.version
                                          && Stands(after, NextState(current, write, now)))
            && (rows[current.row.id].row.version != current.row.version ==> after == rows)
  {
    if Stands(rows, current) {
      WrittenIsNext(rows[current.row.id], write, now);
    }
  }

  function RoutedWrites(context: Context, planner: AgentDecision, policy: Route, route: Route): (writes: seq<Write>)
    ensures |writes| == 3
  {
    [Advance(PlannedEvents(context)),
     Advance(RoutedEvents(context, planner, policy, route)),
     TerminalWrite(context, route, SpecialistAnswer(context, route))]
  }

  /** The row and the log a run leaves, column by column and event by event. */
  ghost predicate RunStored(initial: Workflow, world: World, times: seq<int>, rows: Rows)
    requires |times| >= 3
  {
    && initial.row.id in rows
    && var stored := rows[initial.row.id];
       && RunOutcome.RowOfRun(initial, world, stored.row, times)
       && Log(stored.events) == initial.events
            + (if RunOutcome.EndsFailed(initial, world)
               then Stamp(RunOutcome.ReportedKinds(initial, world) + [RoutingFailed], times[0])
               else RunOutcome.LogOfSuccess(initial, world, times))
  }

  lemma RunIsStored(initial: Workflow, world: World, times: seq<int>, rows: Rows)
    requires |times| >= 3 && |RoutingWrites(initial, world)| <= 3
    ensures Stands(rows, Persist(initial, RoutingWrites(initial, world), times)) ==> RunStored(initial, world, times, rows)
  {
    RunOutcome.RunStores(initial, world, times);
    if RunOutcome.EndsFailed(initial, world) {
      RunOutcome.FailureLogs(initial, world, times);
    } else {
      RunOutcome.RunLogs(initial, world, times);
    }
  }

  // ---- approvals ----

  /** An approval that mentions a dispute opens a case. */
  predicate Opens(message: string, decision: string) {
    EqualsIgnoreCase(decision, "approve") && MentionsDispute(message)
  }

  /** The row, the log and the side tables a decision leaves, column by column. */
  ghost predicate DecisionStored(before: Stored, verdict: Verdict, after: Stored) {
    var opens := Opens(before.row.userMessage, verdict.decision);
    && after.row.status == (if EqualsIgnoreCase(verdict.decision, "approve") then Completed else Rejected)
    && after.row.approvalDecision == Some(verdict.decision) && after.row.approvalReason == Some(verdict.reason)
    && after.row.updatedAt == verdict.at && after.row.version == before.row.version + 1
    && after.row.intent == before.row.intent && after.row.requiresApproval == before.row.requiresApproval
    && after.row.attempts == before.row.attempts && after.row.nextAttemptAt == before.row.nextAttemptAt
    && after.row.lastErrorCode == before.row.lastErrorCode && SameIdentity(after.row, before.row)
    && Log(after.events) == Log(before.events) + [Event(ApprovalGiven(verdict.decision), verdict.at)]
                            + (if opens then [Event(ActionCompleted, verdict.at)] else [])
    && after.decisions == [Decision(verdict.decision, verdict.reason, verdict.at)]
    && after.actions == (if opens then [ActionExecution(before.row.id, verdict.at)] else before.actions)
    && after.cases == (if opens then [SupportCase(before.row.id, verdict.at)] else before.cases)
  }

  /** Nothing in the three tables is in the way of the decision. */
  predicate RoomToDecide(stored: Stored, verdict: Verdict) {
    stored.decisions == [] && (Opens(stored.row.userMessage, verdict.decision) ==> stored.actions == [] && stored.cases == [])
  }

  lemma DecisionLogged(stored: Stored, verdict: Verdict)
    requires ValidStored(stored)
    ensures var inserted := Insert(stored.events, DecidedState(MapToDomain(stored), verdict).events, |stored.events|);
            && inserted.Some?
            && Log(inserted.value) == Log(stored.events) + [Event(ApprovalGiven(verdict.decision), verdict.at)]
                 + (if OpensCase(stored.row.userMessage, verdict.decision) then [Event(ActionCompleted, verdict.at)] else [])
  {
    var next := DecidedState(MapToDomain(stored), verdict);
    var more := Stamp(DecisionEvents(stored.row.userMessage, verdict), verdict.at);
    DecisionStamps(stored.row.userMessage, verdict);
    InsertAppends(stored.events, next.events);
    assert next.events[|stored.events|..] == more;
  }

  lemma DecisionStamps(message: string, verdict: Verdict)
    ensures Stamp(DecisionEvents(message, verdict), verdict.at)
         == [Event(ApprovalGiven(verdict.decision), verdict.at)]
            + (if OpensCase(message, verdict.decision) then [Event(ActionCompleted, verdict.at)] else [])
  {
  }

  lemma OpensMeaning(message: string, decision: string)
    ensures OpensCase(message, decision) <==> Opens(message, decision)
  {
    PolicyMeaning(message);
  }

  lemma DecisionIsStored(stored: Stored, verdict: Verdict, commit: Commit)
    requires ValidStored(stored) && commit == DecisionCommit(stored, MapToDomain(stored), verdict, |stored.events|)
    ensures commit.Committed? <==> RoomToDecide(stored, verdict)
    ensures !commit.NoRowMatched?
    ensures commit.Committed? ==> DecisionStored(stored, verdict, commit.stored) && commit.stored.row.id == stored.row.id
  {
    DecisionLogged(stored, verdict);
    OpensMeaning(stored.row.userMessage, verdict.decision);
  }

  /** What RecordDecisionAsync makes of a verdict on a workflow that waits for one. */
  ghost predicate VerdictRecorded(stored: Stored, verdict: Verdict, rows: Rows, r: Result<Workflow, ServiceError>, before: Rows) {
    if stored.decisions != [] then
      && rows == before
      && (r.Ok? <==> EqualsIgnoreCase(stored.decisions[0].decision, verdict.decision))
      && (r.Err? ==> r == Err(ConflictingDecision))
    else if !RoomToDecide(stored, verdict) then
      rows == before && r == Err(Storage)
    else
      && r.Ok? && stored.row.id in rows
      && OnlyTouches(before, rows, stored.row.id)
      && DecisionStored(stored, verdict, rows[stored.row.id])
  }

  /** The transaction's outcome, read off its columns. */
  lemma VerdictMeaning(stored: Stored, verdict: Verdict, rows: Rows, r: Result<Workflow, ServiceError>, before: Rows, commit: Commit)
    requires ValidStored(stored) && stored.row.id in before && before[stored.row.id] == stored
    requires commit == DecisionCommit(stored, MapToDomain(stored), verdict, |stored.events|)
    requires stored.decisions != [] ==>
               rows == before && (r.Ok? <==> EqualsIgnoreCase(stored.decisions[0].decision, verdict.decision))
               && (r.Err? ==> r == Err(ConflictingDecision))
    requires stored.decisions == [] ==>
               && rows == before[stored.row.id := Outcome(stored, commit)]
               && (r.Ok? <==> commit.Committed?)
               && (commit.IndexViolated? ==> r == Err(Storage))
    ensures VerdictRecorded(stored, verdict, rows, r, before)
  {
    if stored.decisions == [] {
      DecisionIsStored(stored, verdict, commit);
      assert rows.Keys == before.Keys;
    }
  }

  class WorkflowService {
    const db: Database
    const workflows: EfWorkflowRepository
    const actions: EfWorkflowActionRepository

    constructor (database: Database)
      ensures db == database && Wired()
    {
      db := database;
      workflows := new EfWorkflowRepository(database);
      actions := new EfWorkflowActionRepository(database);
    }

    predicate Wired() {
      workflows.db == db && actions.db == db
    }

    /** StartCoreAsync. */
    method Start(id: WorkflowId, message: string, customerId: Option<string>, scenario: Option<string>, now: int)
      returns (r: Result<Workflow, ServiceError>)
      requires Wired() && db.Valid()
      modifies db
      ensures db.Valid()
      ensures r.Ok? <==> id !in old(db.rows)
      ensures r.Err? ==> db.rows == old(db.rows)
      ensures r.Ok? ==>
                && db.rows == old(db.rows)[id := MapToEntity(r.value)] && Stands(db.rows, r.value)
                && (var owner := if customerId.None? || IsBlank(customerId.value) then None else Some(Trim(customerId.value));
                    && r.value == NewDraft(id, message, owner, scenario, now)
                    && r.value.row == Row(id, message, owner, now, Draft, None, false, None, None, now, 0, 0, None, None)
                    && r.value.events == [Event(Started, now)]
                         + (if scenario.Some? then [Event(DemoScenario(scenario.value), now)] else []))
    {
      var owner := if customerId.None? || IsBlank(customerId.value) then None else Some(Trim(customerId.value));
      var draft := NewDraft(id, message, owner, scenario, now);
      var added := workflows.Add(draft);
      r := if added.Ok? then Ok(draft) else Err(Storage);
    }

    /** One UpdateAsync of a run. */
    method Save(current: Workflow, write: Write, now: int) returns (r: Result<Workflow, ServiceError>)
      requires Wired() && db.Valid()
      modifies db`rows
      ensures db.Valid() && OnlyTouches(old(db.rows), db.rows, current.row.id)
      ensures r == SaveResult(old(db.rows), current, write, now)
      ensures r.Err? ==> db.rows == old(db.rows)
      ensures r.Ok? ==>
                db.rows == old(db.rows)[current.row.id := Written(old(db.rows)[current.row.id], current, write, now)]
      ensures Stands(old(db.rows), current) ==> r.Ok? && Stands(db.rows, r.value)
    {
      var next := NextState(current, write, now);
      if current.row.id in db.rows {
        SavedStands(db.rows, current, write, now);
      }
      var updated := workflows.Update(next, current.row.version);
      r := if updated.Ok? then Ok(next) else Err(Translated(updated.error));
    }

    method AdvanceAndPersist(current: Workflow, events: seq<EventKind>, now: int) returns (r: Result<Workflow, ServiceError>)
      requires Wired() && db.Valid()
      modifies db`rows
      ensures db.Valid() && OnlyTouches(old(db.rows), db.rows, current.row.id)
      ensures r == SaveResult(old(db.rows), current, Advance(events), now)
      ensures r.Err? ==> db.rows == old(db.rows)
      ensures Stands(old(db.rows), current) ==> r.Ok? && Stands(db.rows, r.value)
    {
      r := Save(current, Advance(events), now);
    }

    method PersistFailed(current: Workflow, events: seq<EventKind>, now: int) returns (r: Result<Workflow, ServiceError>)
      requires Wired() && db.Valid()
      modifies db`rows
      ensures db.Valid() && OnlyTouches(old(db.rows), db.rows, current.row.id)
      ensures r == SaveResult(old(db.rows), current, Fail(events), now)
      ensures r.Err? ==> db.rows == old(db.rows)
      ensures r.Ok? ==>
                db.rows == old(db.rows)[current.row.id := Written(old(db.rows)[current.row.id], current, Fail(events), now)]
      ensures Stands(old(db.rows), current) ==> r.Ok? && Stands(db.rows, r.value)
    {
      r := Save(current, Fail(events), now);
    }

    /** The part of ExecuteRoutingAsync after the orchestration succeeded: current is
        reassigned and persisted in stages. */
    method PersistRouting(initial: Workflow, context: Context, times: seq<int>) returns (r: Result<Workflow, ServiceError>)
      requires Wired() && db.Valid() && |times| >= 3
      modifies db`rows
      ensures db.Valid() && OnlyTouches(old(db.rows), db.rows, initial.row.id)
      ensures initial.row.id !in old(db.rows) ==> r == Err(NotFoundError) && db.rows == old(db.rows)
      ensures initial.row.id in old(db.rows) && old(db.rows)[initial.row.id].row.version != initial.row.version ==>
                r == Err(StaleVersion) && db.rows == old(db.rows)
      ensures Stands(old(db.rows), initial) ==>
                && |WritesOf(initial.row.userMessage, context)| <= 3
                && Stands(db.rows, Persist(initial, WritesOf(initial.row.userMessage, context), times))
                && (r.Ok? ==> r.value == Persist(initial, WritesOf(initial.row.userMessage, context), times))
                && (context.policyRoute.Some? ==> r.Ok?)
    {
      ghost var message := initial.row.userMessage;
      if context.plannerResult.None? {
        r := PersistFailed(initial, [], times[0]);
        assert WritesOf(message, context) == [Fail([])];
        PersistOne(initial, Fail([]), times);
        return;
      }
      var planned := ProfileEvents(context) + [Planned];
      var planner := TryRead(context.plannerResult.value, Agents.WORKFLOW_PLANNING);
      if planner.None? {
        r := PersistFailed(initial, planned, times[0]);
        assert WritesOf(message, context) == [Fail(planned)];
        PersistOne(initial, Fail(planned), times);
        return;
      }
      r := AdvanceAndPersist(initial, planned, times[0]);
      if r.Err? {
        return;
      }
      r := PersistChoice(initial, r.value, context, planner.value, times);
    }

    /** The choice of the route, once the planner's answer is stored. */
    method PersistChoice(initial: Workflow, planned: Workflow, context: Context, planner: AgentDecision, times: seq<int>)
      returns (r: Result<Workflow, ServiceError>)
      requires Wired() && db.Valid() && |times| >= 3
      requires planned == NextState(initial, Advance(PlannedEvents(context)), times[0])
      requires context.plannerResult.Some?
      requires TryRead(context.plannerResult.value, Agents.WORKFLOW_PLANNING) == Some(planner)
      modifies db`rows
      ensures db.Valid() && OnlyTouches(old(db.rows), db.rows, initial.row.id)
      ensures Stands(old(db.rows), planned) ==>
                var writes := WritesOf(initial.row.userMessage, context);
                && |writes| <= 3 && Stands(db.rows, Persist(initial, writes, times))
                && (r.Ok? ==> r.value == Persist(initial, writes, times))
                && (context.policyRoute.Some? ==> r.Ok?)
    {
      ghost var message := initial.row.userMessage;
      ghost var first := Advance(PlannedEvents(context));
      var policy := if context.policyRoute.Some? then context.policyRoute else Decide(planned.row.userMessage);
      if policy.None? {
        assert WritesOf(message, context) == [first];
        PersistOne(initial, first, times);
        return Err(BadMessage);
      }
      var route := if context.route.Some? then context.route.value else policy.value;
      if !Supported(Lower(route.agent)) {
        r := PersistFailed(planned, [], times[1]);
        assert WritesOf(message, context) == [first, Fail([])];
        PersistTwo(initial, first, Fail([]), times);
        return;
      }
      assert WritesOf(message, context) == RoutedWrites(context, planner, policy.value, route);
      r := PersistRoute(initial, planned, context, planner, policy.value, route, times);
    }

    /** The route's events and then the terminal status. */
    method PersistRoute(initial: Workflow, planned: Workflow, context: Context,
                        planner: AgentDecision, policy: Route, route: Route, times: seq<int>)
      returns (r: Result<Workflow, ServiceError>)
      requires Wired() && db.Valid() && |times| >= 3
      requires planned == NextState(initial, Advance(PlannedEvents(context)), times[0])
      modifies db`rows
      ensures db.Valid() && OnlyTouches(old(db.rows), db.rows, initial.row.id)
      ensures Stands(old(db.rows), planned) ==>
                && r == Ok(Persist(initial, RoutedWrites(context, planner, policy, route), times))
                && Stands(db.rows, r.value)
    {
      var routed := AuditEvents(planner, policy, context.fallbackReason)
                    + [RouteSelected(route.agent, route.requiresApproval)]
                    + ChannelEvents(context);
      PersistThree(initial, RoutedWrites(context, planner, policy, route), times);
      r := AdvanceAndPersist(planned, routed, times[1]);
      if r.Err? {
        return;
      }
      r := PersistTerminal(r.value, context, route, times[2]);
    }

    method PersistTerminal(current: Workflow, context: Context, route: Route, now: int) returns (r: Result<Workflow, ServiceError>)
      requires Wired() && db.Valid()
      modifies db`rows
      ensures db.Valid() && OnlyTouches(old(db.rows), db.rows, current.row.id)
      ensures r == SaveResult(old(db.rows), current, TerminalWrite(context, route, SpecialistAnswer(context, route)), now)
      ensures Stands(old(db.rows), current) ==> r.Ok? && Stands(db.rows, r.value)
      ensures r.Err? ==> db.rows == old(db.rows)
    {
      if context.specialistResult.None? {
        r := PersistFailed(current, [], now);
        return;
      }
      var specialist := TryRead(context.specialistResult.value, route.agent);
      if specialist.None? {
        r := PersistFailed(current, [SpecialistInvoked], now);
        return;
      }
      var requiresApproval := context.finalRequiresApproval || route.requiresApproval;
      var intent := if context.finalIntent.Some? then context.finalIntent else specialist.value.intent;
      r := Save(current, Finish([SpecialistInvoked], intent, requiresApproval), now);
    }

    /** ExecuteRoutingAsync. On a current workflow it persists exactly the writes of the run,
        each at its own time; with a stale one it persists nothing. */
    method ExecuteRouting(initial: Workflow, world: World, times: seq<int>) returns (r: Result<Workflow, ServiceError>)
      requires Wired() && db.Valid() && |times| >= 3
      modifies db`rows
      ensures db.Valid() && OnlyTouches(old(db.rows), db.rows, initial.row.id)
      ensures initial.row.id !in old(db.rows) ==> r == Err(NotFoundError) && db.rows == old(db.rows)
      ensures initial.row.id in old(db.rows) && old(db.rows)[initial.row.id].row.version != initial.row.version ==>
                r == Err(StaleVersion) && db.rows == old(db.rows)
      ensures Stands(old(db.rows), initial) ==>
                && |RoutingWrites(initial, world)| <= 3
                && Stands(db.rows, Persist(initial, RoutingWrites(initial, world), times))
                && r == if world.cancelled then Err(Cancelled) else Ok(Persist(initial, RoutingWrites(initial, world), times))
      ensures Stands(old(db.rows), initial) ==> RunStored(initial, world, times, db.rows)
    {
      RunsAreWellShaped(initial, world);
      var execution := Execute(initial, world);
      if execution.None? {
        PersistOne(initial, Fail([]), times);
        r := PersistFailed(initial, [], times[0]);
        if r.Ok? {
          r := Err(Cancelled);
        }
        RunIsStored(initial, world, times, db.rows);
        return;
      }
      var context := execution.value.context;
      if execution.value.failed {
        PersistOne(initial, Fail(ProfileEvents(context)), times);
        r := PersistFailed(initial, ProfileEvents(context), times[0]);
        RunIsStored(initial, world, times, db.rows);
        return;
      }
      StepsCoherent(initial, world);
      r := PersistRouting(initial, context, times);
      RunIsStored(initial, world, times, db.rows);
    }

    /** RecoverAsync. A settled workflow is returned as it is. */
    method Recover(id: WorkflowId, world: World, times: seq<int>) returns (r: Result<Workflow, ServiceError>)
      requires Wired() && db.Valid() && |times| >= 3
      modifies db`rows
      ensures db.Valid()
      ensures id !in old(db.rows) ==> r == Err(NotFoundError) && db.rows == old(db.rows)
      ensures id in old(db.rows) ==> OnlyTouches(old(db.rows), db.rows, id)
      ensures id in old(db.rows) && !Unsettled(old(db.rows)[id].row.status) ==>
                && db.rows == old(db.rows)
                && r == if old(db.rows)[id].row.status == Approved then Err(InvalidTransition) else Ok(MapToDomain(old(db.rows)[id]))
      ensures id in old(db.rows) && Unsettled(old(db.rows)[id].row.status) ==>
                var initial := MapToDomain(old(db.rows)[id]);
                && |RoutingWrites(initial, world)| <= 3
                && Stands(db.rows, Persist(initial, RoutingWrites(initial, world), times))
                && r == (if world.cancelled then Err(Cancelled) else Ok(Persist(initial, RoutingWrites(initial, world), times)))
                && RunStored(initial, world, times, db.rows)
    {
      var found := workflows.Get(id);
      if found.None? {
        return Err(NotFoundError);
      }
      var current := found.value;
      if current.row.status == Completed || current.row.status == Status.Failed
         || current.row.status == Rejected || current.row.status == WaitingForApproval {
        return Ok(current);
      }
      if current.row.status != Draft && current.row.status != Recovering {
        return Err(InvalidTransition);
      }
      r := ExecuteRouting(current, world, times);
    }

    /** ApproveAsync. */
    method ApproveWorkflow(id: WorkflowId, verdict: Verdict) returns (r: Result<Workflow, ServiceError>)
      requires Wired() && db.Valid()
      modifies db`rows
      ensures db.Valid()
      ensures id !in old(db.rows) ==> r == Err(NotFoundError) && db.rows == old(db.rows)
      ensures id in old(db.rows) ==>
                var stored := old(db.rows)[id];
                match ActIdle(stored, Approve(verdict))
                case Deciding(current, _) =>
                  if stored.decisions != [] then
                    db.rows == old(db.rows)
                    && (r.Ok? <==> EqualsIgnoreCase(stored.decisions[0].decision, verdict.decision))
                  else
                    var commit := DecisionCommit(stored, current, verdict, |stored.events|);
                    && db.rows == old(db.rows)[id := Outcome(stored, commit)]
                    && (r.Ok? <==> commit.Committed?)
                case next => db.rows == old(db.rows) && (r.Ok? <==> next.Answered?)
      ensures r.Ok? ==> Stands(db.rows, r.value)
      ensures id in old(db.rows) ==>
                var stored := old(db.rows)[id];
                if stored.row.approvalDecision.Some? then
                  && db.rows == old(db.rows)
                  && r == (if EqualsIgnoreCase(stored.row.approvalDecision.value, verdict.decision)
                           then Ok(MapToDomain(stored)) else Err(ConflictingDecision))
                else if stored.row.status != WaitingForApproval then
                  db.rows == old(db.rows) && r == Err(InvalidTransition)
                else if IsBlank(stored.row.userMessage) then
                  db.rows == old(db.rows) && r == Err(BadMessage)
                else VerdictRecorded(stored, verdict, db.rows, r, old(db.rows))
    {
      var found := workflows.Get(id);
      if found.None? {
        return Err(NotFoundError);
      }
      var current := found.value;
      if current.row.approvalDecision.Some? {
        if EqualsIgnoreCase(current.row.approvalDecision.value, verdict.decision) {
          return Ok(current);
        }
        return Err(ConflictingDecision);
      }
      if current.row.status != WaitingForApproval {
        return Err(InvalidTransition);
      }
      var policy := Decide(current.row.userMessage);
      if policy.None? {
        return Err(BadMessage);
      }
      ghost var stored := db.rows[id];
      r := RecordVerdict(current, policy.value, verdict);
      VerdictMeaning(stored, verdict, db.rows, r, old(db.rows), DecisionCommit(stored, current, verdict, |stored.events|));
    }

    /** The record ApproveAsync builds and hands to the decision repository. */
    method RecordVerdict(current: Workflow, policy: Route, verdict: Verdict) returns (r: Result<Workflow, ServiceError>)
      requires Wired() && db.Valid() && Stands(db.rows, current) && Decide(current.row.userMessage) == Some(policy)
      modifies db`rows
      ensures db.Valid()
      ensures var stored := old(db.rows)[current.row.id];
              if stored.decisions != [] then
                db.rows == old(db.rows)
                && (r.Ok? <==> EqualsIgnoreCase(stored.decisions[0].decision, verdict.decision))
              else
                var commit := DecisionCommit(stored, current, verdict, |stored.events|);
                && db.rows == old(db.rows)[current.row.id := Outcome(stored, commit)]
                && (r.Ok? <==> commit.Committed?)
      ensures r.Ok? ==> Stands(db.rows, r.value)
      ensures var stored := old(db.rows)[current.row.id];
              r.Err? ==> r == if stored.decisions != [] then Err(ConflictingDecision)
                              else if DecisionCommit(stored, current, verdict, |stored.events|).IndexViolated? then Err(Storage)
                              else Err(StaleVersion)
    {
      var isApproved := EqualsIgnoreCase(verdict.decision, "approve");
      var supportCase: Option<SupportCase> := None;
      var action: Option<ActionExecution> := None;
      var kinds := [ApprovalGiven(verdict.decision)];
      if isApproved && EqualsIgnoreCase(policy.agent, DISPUTE_PLANNING) {
        supportCase := Some(SupportCase(current.row.id, verdict.at));
        action := Some(ActionExecution(current.row.id, verdict.at));
        kinds := kinds + [ActionCompleted];
      }
      assert kinds == DecisionEvents(current.row.userMessage, verdict);
      var next := Workflow(
        current.row.(status := if isApproved then Completed else Rejected,
                     approvalDecision := Some(verdict.decision),
                     approvalReason := Some(verdict.reason),
                     updatedAt := verdict.at,
                     version := current.row.version + 1),
        current.events + Stamp(kinds, verdict.at));
      assert next == DecidedState(current, verdict);
      var recorded := actions.RecordDecision(next, Decision(verdict.decision, verdict.reason, verdict.at),
                                             action, supportCase, current.row.version);
      if recorded.Err? {
        return Err(Translated(recorded.error));
      }
      var latest := workflows.Get(current.row.id);
      r := Ok(if latest.Some? then latest.value else next);
    }
  }
}
