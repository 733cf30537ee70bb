/** What a routing run leaves in the row and in the log, read off the message, the answers and
    the memory alone. */
module RunOutcome {
  import opened Wrappers
  import opened Text
  import opened Domain
  import opened RoutingPolicy
  import opened Orchestrator
  import opened Service
  import opened Personalisation
  import ContactChannel
  import Profile
  import Mcp
  import Store

  /** The run ends in failure: its inputs fail it, or what is recalled trips the scan. */
  predicate EndsFailed(workflow: Workflow, world: World) {
    Fruitless(workflow, world) || Trips(workflow, world)
  }

  /** Specialist, policy words, or a planner whose agent the router knows. */
  predicate Gate(workflow: Workflow, world: World)
    requires AnswersAccepted(workflow, world)
  {
    || SpecialistRead(workflow, world).value.requiresApproval
    || MustAsk(workflow.row.userMessage)
    || (PlannerRead(world).value.requiresApproval && KnownAgent(PlannerRead(world).value.selectedAgent))
  }

  // ---- the row ----

  /** The columns a routing run never writes. */
  predicate KeptColumns(before: Row, after: Row) {
    && Store.SameIdentity(after, before)
    && after.attempts == before.attempts && after.nextAttemptAt == before.nextAttemptAt
    && after.lastErrorCode == before.lastErrorCode
    && after.approvalDecision == before.approvalDecision && after.approvalReason == before.approvalReason
  }

  predicate RowOfFailure(before: Row, after: Row, times: seq<int>)
    requires |times| >= 1
  {
    && KeptColumns(before, after)
    && after.status == Failed && after.updatedAt == times[0] && after.version == before.version + 1
    && after.intent == before.intent && after.requiresApproval == before.requiresApproval
  }

  predicate RowOfSuccess(workflow: Workflow, world: World, after: Row, times: seq<int>)
    requires AnswersAccepted(workflow, world) && |times| >= 3
  {
    && KeptColumns(workflow.row, after)
    && after.status == (if Gate(workflow, world) then WaitingForApproval else Completed)
    && after.requiresApproval == Gate(workflow, world)
    && after.intent == SpecialistRead(workflow, world).value.intent
    && after.updatedAt == times[2] && after.version == workflow.row.version + 3
  }

  predicate RowOfRun(workflow: Workflow, world: World, after: Row, times: seq<int>)
    requires |times| >= 3
  {
    if EndsFailed(workflow, world) then RowOfFailure(workflow.row, after, times)
    else RowOfSuccess(workflow, world, after, times)
  }

  lemma FailStores(current: Workflow, write: Write, now: int)
    requires write.Fail?
    ensures RowOfFailure(current.row, NextState(current, write, now).row, [now])
  {
  }

  lemma AdvanceStores(current: Workflow, write: Write, now: int)
    requires write.Advance?
    ensures var row := NextState(current, write, now).row;
            && KeptColumns(current.row, row) && row.version == current.row.version + 1 && row.updatedAt == now
            && row.status == current.row.status && row.intent == current.row.intent
            && row.requiresApproval == current.row.requiresApproval
  {
  }

  lemma FinishStores(current: Workflow, write: Write, now: int)
    requires write.Finish?
    ensures var row := NextState(current, write, now).row;
            && KeptColumns(current.row, row) && row.version == current.row.version + 1 && row.updatedAt == now
            && row.status == (if write.requiresApproval then WaitingForApproval else Completed)
            && row.intent == write.intent && row.requiresApproval == write.requiresApproval
  {
  }

  /** In a run that reaches its end the decisions are the answers as they are read. */
  lemma DecisionsAtInputs(workflow: Workflow, world: World)
    requires !EndsFailed(workflow, world)
    ensures !Fails(workflow, world) && Steps(workflow, world).Some?
    ensures var context := Steps(workflow, world).value;
            && Coherent(workflow.row.userMessage, context) && Ended(context)
            && context.plannerDecision == PlannerRead(world)
            && context.specialistDecision == SpecialistRead(workflow, world)
            && RoutingWrites(workflow, world) == EndedWrites(context)
  {
    FailsAtInputs(workflow, world);
    StepsAtInputs(workflow, world);
    StepsCoherent(workflow, world);
    SucceededShape(workflow, world);
  }

  lemma GateAtInputs(workflow: Workflow, world: World)
    requires !EndsFailed(workflow, world)
    ensures var writes := RoutingWrites(workflow, world);
            && |writes| == 3 && writes[0].Advance? && writes[1].Advance? && writes[2].Finish?
            && writes[2].requiresApproval == Gate(workflow, world)
            && writes[2].intent == SpecialistRead(workflow, world).value.intent
  {
    DecisionsAtInputs(workflow, world);
    ApprovalLaw(workflow, world);
    RouteLaw(workflow, world);
    KnownAgentMeaning(PlannerRead(world).value.selectedAgent);
  }

  /** The row after the whole run, column by column. */
  lemma RunStores(workflow: Workflow, world: World, times: seq<int>)
    requires |times| >= 3 && |RoutingWrites(workflow, world)| <= 3
    ensures RowOfRun(workflow, world, Persist(workflow, RoutingWrites(workflow, world), times).row, times)
  {
    FailsAtInputs(workflow, world);
    var writes := RoutingWrites(workflow, world);
    if EndsFailed(workflow, world) {
      FailedWrites(workflow, world);
      assert writes == [writes[0]];
      PersistOne(workflow, writes[0], times);
      FailStores(workflow, writes[0], times[0]);
    } else {
      GateAtInputs(workflow, world);
      PersistThree(workflow, writes, times);
      var first := NextState(workflow, writes[0], times[0]);
      var second := NextState(first, writes[1], times[1]);
      AdvanceStores(workflow, writes[0], times[0]);
      AdvanceStores(first, writes[1], times[1]);
      FinishStores(second, writes[2], times[2]);
    }
  }

  // ---- the log ----

  function RecallKinds(workflow: Workflow, world: World): seq<EventKind> {
    var preferences := Profile.Recall(workflow.row.customerId, world.profile);
    if preferences == [] then [] else [ProfileRecalled(preferences)]
  }

  /** A fallback with its reason when the router does not know the planner's agent; a
      disagreement when it does and planner and policy differ in agent or gate. */
  function AuditKinds(message: string, planner: AgentDecision): seq<EventKind> {
    if planner.selectedAgent.None? || IsBlank(planner.selectedAgent.value) then [RouteFallback("missing_selected_agent")]
    else if !KnownAgent(planner.selectedAgent) then [RouteFallback("unknown_selected_agent")]
    else if EqualsIgnoreCase(planner.selectedAgent.value, PolicyAgent(message)) && planner.requiresApproval == MustAsk(message) then []
    else [RouteDisagreement]
  }

  function RouteKind(message: string, planner: AgentDecision): EventKind {
    if KnownAgent(planner.selectedAgent)
    then RouteSelected(Lower(Trim(planner.selectedAgent.value)), planner.requiresApproval || MustAsk(message))
    else RouteSelected(PolicyAgent(message), MustAsk(message))
  }

  /** A channel the customer named, or asked for without naming one, that cannot be used. */
  function ChannelKinds(workflow: Workflow, world: World): seq<EventKind> {
    var assessed := ContactChannel.AssessOf(Profile.Recall(workflow.row.customerId, world.profile), world.channels, IsLetterOrDigit);
    if assessed.status == ContactChannel.KnownUnavailable || assessed.status == ContactChannel.Unsupported
    then [ChannelUnavailable(assessed.channel)] else []
  }

  /** Everything a run that reaches its end adds to the log, each write at its own time. */
  function LogOfSuccess(workflow: Workflow, world: World, times: seq<int>): seq<Event>
    requires AnswersAccepted(workflow, world) && |times| >= 3
  {
    var message, planner := workflow.row.userMessage, PlannerRead(world).value;
    Stamp(RecallKinds(workflow, world) + [Planned], times[0])
    + Stamp(AuditKinds(message, planner) + [RouteKind(message, planner)] + ChannelKinds(workflow, world), times[1])
    + Stamp([SpecialistInvoked, if Gate(workflow, world) then ApprovalRequired else CompletedWithoutApproval], times[2])
  }

  lemma AuditAtInputs(context: Context, planner: AgentDecision, message: string)
    requires Coherent(message, context) && context.plannerDecision == Some(planner)
    ensures AuditEvents(planner, context.policyRoute.value, context.fallbackReason) == AuditKinds(message, planner)
    ensures RouteSelected(context.route.value.agent, context.route.value.requiresApproval) == RouteKind(message, planner)
  {
    KnownAgentMeaning(planner.selectedAgent);
    DecideMeaning(message);
    DecidedByWords(message);
    if planner.selectedAgent.Some? {
      TrimmedBlank(planner.selectedAgent.value);
    }
  }

  /** The personal part of the context of a run that reaches its end. */
  lemma PersonalAtInputs(workflow: Workflow, world: World)
    requires Steps(workflow, world).Some? && !Steps(workflow, world).value.failed
    ensures var context := Steps(workflow, world).value;
            && ProfileEvents(context) == RecallKinds(workflow, world)
            && ChannelEvents(context) == ChannelKinds(workflow, world)
  {
    var message, start := workflow.row.userMessage, Recalled(workflow, world);
    PlannerAlike(start, start, world, world);
    var planned := PlannerStep(start, world).value;
    RoutingAlike(planned, planned, message);
    var routed := RoutingStep(planned, message).value;
    SpecialistPersonal(routed, world);
    PlannerStepFacts(start, world);
    RoutingStepFacts(planned, message);
    assert Steps(workflow, world).value == TerminalStep(SpecialistStep(routed, world).value);
  }

  lemma WritesAtInputs(workflow: Workflow, world: World)
    requires !EndsFailed(workflow, world)
    ensures var message, planner := workflow.row.userMessage, PlannerRead(world).value;
            && |RoutingWrites(workflow, world)| == 3
            && RoutingWrites(workflow, world)[0].events == RecallKinds(workflow, world) + [Planned]
            && RoutingWrites(workflow, world)[1].events
               == AuditKinds(message, planner) + [RouteKind(message, planner)] + ChannelKinds(workflow, world)
            && RoutingWrites(workflow, world)[2].events == [SpecialistInvoked]
  {
    DecisionsAtInputs(workflow, world);
    PersonalAtInputs(workflow, world);
    AuditAtInputs(Steps(workflow, world).value, PlannerRead(world).value, workflow.row.userMessage);
  }

  /** The log after a run that reaches its end. */
  lemma RunLogs(workflow: Workflow, world: World, times: seq<int>)
    requires !EndsFailed(workflow, world) && |times| >= 3 && |RoutingWrites(workflow, world)| <= 3
    ensures AnswersAccepted(workflow, world)
    ensures Persist(workflow, RoutingWrites(workflow, world), times).events == workflow.events + LogOfSuccess(workflow, world, times)
  {
    WritesAtInputs(workflow, world);
    GateAtInputs(workflow, world);
    PersistThree(workflow, RoutingWrites(workflow, world), times);
    LogOfThree(workflow, RoutingWrites(workflow, world), times);
  }

  lemma LogOfThree(workflow: Workflow, writes: seq<Write>, times: seq<int>)
    requires |times| >= 3 && |writes| == 3 && writes[0].Advance? && writes[1].Advance? && writes[2].Finish?
    requires writes[2].events == [SpecialistInvoked]
    ensures NextState(NextState(NextState(workflow, writes[0], times[0]), writes[1], times[1]), writes[2], times[2]).events
         == workflow.events
            + (Stamp(writes[0].events, times[0])
               + Stamp(writes[1].events, times[1])
               + Stamp([SpecialistInvoked, if writes[2].requiresApproval then ApprovalRequired else CompletedWithoutApproval], times[2]))
  {
    assert writes[0].events + [] == writes[0].events && writes[1].events + [] == writes[1].events;
  }

  /** A step raises: an agent's call does, or the message is blank when the policy is asked. */
  predicate Raises(workflow: Workflow, world: World) {
    || Invoke(world.fault, world.planner).OtherFailure?
    || (PlannerRead(world).Some?
        && (IsBlank(workflow.row.userMessage) || Invoke(world.fault, world.specialist).OtherFailure?))
  }

  predicate AnswerCarries(answer: Invocation) {
    answer.Got? && ResultCarries(Some(answer.result))
  }

  /** The marker in anything the run had read: the specialist and the channel are reached only
      behind an accepted planner answer. */
  predicate Marked(workflow: Workflow, world: World) {
    var preferences := Profile.Recall(workflow.row.customerId, world.profile);
    || Contains(workflow.row.userMessage, MARKER) || TextCarries(workflow.row.customerId) || TextCarries(workflow.row.lastErrorCode)
    || (exists k | 0 <= k < |workflow.events| :: EventCarries(workflow.events[k].kind))
    || AnswerCarries(Invoke(world.fault, world.planner)) || AnyCarries(preferences)
    || (PlannerRead(world).Some?
        && (AnswerCarries(Invoke(world.fault, world.specialist))
            || TextCarries(ContactChannel.AssessOf(preferences, world.channels, IsLetterOrDigit).channel)))
  }

  /** The memory a failed run still reports: what it had read, unless it was cancelled, a
      step raised, or its text was taken for a cancellation. */
  function ReportedKinds(workflow: Workflow, world: World): seq<EventKind> {
    if world.cancelled || Raises(workflow, world) || Marked(workflow, world) then [] else RecallKinds(workflow, world)
  }

  function ResultOf(answer: Invocation): Option<Mcp.ToolResult> {
    if answer.Got? then Some(answer.result) else None
  }

  lemma PlannerReads(context: Context, world: World)
    ensures var next := PlannerStep(context, world);
            && (next.None? <==> Invoke(world.fault, world.planner).OtherFailure?)
            && (next.Some? ==>
                  && (Invoke(world.fault, world.planner).Got? ==> next.value.plannerResult == ResultOf(Invoke(world.fault, world.planner)))
                  && (!Invoke(world.fault, world.planner).Got? ==> next.value.plannerResult == context.plannerResult)
                  && (PlannerRead(world).None? ==> next.value.failed)
                  && (PlannerRead(world).Some? ==> next.value.failed == context.failed && next.value.plannerDecision.Some?)
                  && next.value.preferences == context.preferences && next.value.channel == context.channel
                  && next.value.specialistResult == context.specialistResult)
  {
  }

  lemma RoutingReads(context: Context, message: string)
    requires !context.failed && context.plannerDecision.Some?
    ensures var next := RoutingStep(context, message);
            && (next.None? <==> IsBlank(message))
            && (next.Some? ==>
                  && !next.value.failed && next.value.plannerDecision == context.plannerDecision
                  && next.value.plannerResult == context.plannerResult && next.value.specialistResult == context.specialistResult
                  && next.value.preferences == context.preferences && next.value.channel == context.channel
                  && next.value.route.Some? && Supported(next.value.route.value.agent))
  {
    RoutingAtInputs(context, message);
  }

  lemma SpecialistReads(context: Context, world: World)
    requires !context.failed && context.plannerDecision.Some? && context.route.Some? && Supported(context.route.value.agent)
    requires context.specialistResult.None?
    ensures var next := SpecialistStep(context, world);
            && (next.None? <==> Invoke(world.fault, world.specialist).OtherFailure?)
            && (next.Some? ==>
                  && next.value.plannerResult == context.plannerResult && next.value.preferences == context.preferences
                  && next.value.specialistResult == ResultOf(Invoke(world.fault, world.specialist))
                  && next.value.channel == Some(ContactChannel.AssessOf(context.preferences, world.channels, IsLetterOrDigit)))
  {
  }

  /** What the steps of any run, failed or not, have read when they end. */
  lemma StepsRead(workflow: Workflow, world: World)
    ensures Steps(workflow, world).None? <==> Raises(workflow, world)
    ensures Steps(workflow, world).Some? ==>
              var context := Steps(workflow, world).value;
              && context.plannerResult == ResultOf(Invoke(world.fault, world.planner))
              && context.preferences == Profile.Recall(workflow.row.customerId, world.profile)
              && context.specialistResult == (if PlannerRead(world).Some? then ResultOf(Invoke(world.fault, world.specialist)) else None)
              && context.channel == (if PlannerRead(world).Some?
                                     then Some(ContactChannel.AssessOf(context.preferences, world.channels, IsLetterOrDigit)) else None)
  {
    var message, start := workflow.row.userMessage, Recalled(workflow, world);
    PlannerReads(start, world);
    if PlannerStep(start, world).Some? {
      var planned := PlannerStep(start, world).value;
      if planned.failed {
        FailurePasses(planned, message, world);
      } else {
        RoutingReads(planned, message);
        if !IsBlank(message) {
          SpecialistReads(RoutingStep(planned, message).value, world);
        }
      }
    }
  }

  /** The log after a failed run: the memory it reports and one failure. */
  lemma FailureLogs(workflow: Workflow, world: World, times: seq<int>)
    requires EndsFailed(workflow, world) && |times| >= 3 && |RoutingWrites(workflow, world)| <= 3
    ensures Persist(workflow, RoutingWrites(workflow, world), times).events
         == workflow.events + Stamp(ReportedKinds(workflow, world) + [RoutingFailed], times[0])
  {
    FailsAtInputs(workflow, world);
    FailedKinds(workflow, world);
    var writes := RoutingWrites(workflow, world);
    assert writes == [writes[0]];
    PersistOne(workflow, writes[0], times);
  }

  lemma TakenAtInputs(workflow: Workflow, world: World, context: Context)
    requires context.plannerResult == ResultOf(Invoke(world.fault, world.planner))
    requires context.preferences == Profile.Recall(workflow.row.customerId, world.profile)
    requires context.specialistResult == if PlannerRead(world).Some? then ResultOf(Invoke(world.fault, world.specialist)) else None
    requires context.channel == if PlannerRead(world).Some?
                                then Some(ContactChannel.AssessOf(context.preferences, world.channels, IsLetterOrDigit)) else None
    ensures TakenForCancelled(workflow, context) <==> Marked(workflow, world)
  {
  }

  lemma FailedKinds(workflow: Workflow, world: World)
    requires Fails(workflow, world)
    ensures var writes := RoutingWrites(workflow, world);
            |writes| == 1 && writes[0].Fail? && writes[0].events == ReportedKinds(workflow, world)
  {
    StepsRead(workflow, world);
    var steps := Steps(workflow, world);
    if steps.Some? {
      TakenAtInputs(workflow, world, steps.value);
      FailureReports(workflow, world, steps.value);
    }
  }

  lemma FailureReports(workflow: Workflow, world: World, context: Context)
    requires Fails(workflow, world) && Steps(workflow, world) == Some(context)
    ensures RoutingWrites(workflow, world)
         == [Fail(if world.cancelled || TakenForCancelled(workflow, context) then [] else ProfileEvents(context))]
  {
  }
}
