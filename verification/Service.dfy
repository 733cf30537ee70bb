/** The writes a routing run makes (ExecuteRoutingAsync in
    src/application/WorkflowService.cs) and the state each of them persists. */
module Service {
  import opened Wrappers
  import opened Text
  import opened Domain
  import opened RoutingPolicy
  import opened Orchestrator
  import Agents
  import Profile

  /** One UpdateAsync of a run: the events it adds and what it does to the status. */
  datatype Write =
    | Advance(events: seq<EventKind>)
    | Fail(events: seq<EventKind>)
    | Finish(events: seq<EventKind>, intent: Option<string>, requiresApproval: bool)

  predicate Settles(write: Write) {
    !write.Advance?
  }

  /** The event that closes a settling write. */
  function ClosingEvents(write: Write): seq<EventKind> {
    match write
    case Advance(_) => []
    case Fail(_) => [RoutingFailed]
    case Finish(_, _, requiresApproval) => [if requiresApproval then ApprovalRequired else CompletedWithoutApproval]
  }

  function Stamp(kinds: seq<EventKind>, now: int): (events: seq<Event>)
    ensures |events| == |kinds|
  {
    seq(|kinds|, i requires 0 <= i < |kinds| => Event(kinds[i], now))
  }

  function NewEvents(write: Write, now: int): seq<Event> {
    Stamp(write.events + ClosingEvents(write), now)
  }

  /** AdvanceAndPersistAsync, PersistFailedAsync and the terminal write: the state that is
      handed to UpdateAsync together with the current version. */
  function NextState(current: Workflow, write: Write, now: int): Workflow {
    var row := current.row.(updatedAt := now, version := current.row.version + 1);
    var settled := match write
      case Advance(_) => row
      case Fail(_) => row.(status := Failed)
      case Finish(_, intent, requiresApproval) =>
        row.(status := if requiresApproval then WaitingForApproval else Completed,
             intent := intent, requiresApproval := requiresApproval);
    Workflow(settled, current.events + NewEvents(write, now))
  }

  /** The state after all writes of a run, each at its own time. */
  function Persist(current: Workflow, writes: seq<Write>, times: seq<int>): Workflow
    requires |writes| <= |times|
    decreases |writes|
  {
    if writes == [] then current
    else Persist(NextState(current, writes[0], times[0]), writes[1..], times[1..])
  }

  lemma PersistOne(current: Workflow, write: Write, times: seq<int>)
    requires |times| >= 1
    ensures Persist(current, [write], times) == NextState(current, write, times[0])
  {
    assert [write][1..] == [];
  }

  lemma PersistTwo(current: Workflow, first: Write, second: Write, times: seq<int>)
    requires |times| >= 2
    ensures Persist(current, [first, second], times) == NextState(NextState(current, first, times[0]), second, times[1])
  {
    assert [first, second][1..] == [second];
    PersistOne(NextState(current, first, times[0]), second, times[1..]);
  }

  lemma PersistThree(current: Workflow, writes: seq<Write>, times: seq<int>)
    requires |writes| == 3 <= |times|
    ensures Persist(current, writes, times)
         == NextState(NextState(NextState(current, writes[0], times[0]), writes[1], times[1]), writes[2], times[2])
  {
    assert writes[1..] == [writes[1], writes[2]];
    PersistTwo(NextState(current, writes[0], times[0]), writes[1], writes[2], times[1..]);
  }

  // ---- the event builders ----

  function ProfileEvents(context: Context): seq<EventKind> {
    if context.preferences == [] then [] else [ProfileRecalled(context.preferences)]
  }

  function ChannelEvents(context: Context): seq<EventKind> {
    if context.channel.None? || context.channel.value.status.NoneStated? || context.channel.value.status.Supported? then []
    else [ChannelUnavailable(context.channel.value.channel)]
  }

  function AuditEvents(planner: AgentDecision, policy: Route, fallbackReason: Option<string>): seq<EventKind> {
    if fallbackReason.Some? then [RouteFallback(fallbackReason.value)]
    else if Same(planner.selectedAgent, policy.agent) && planner.requiresApproval == policy.requiresApproval then []
    else [RouteDisagreement]
  }

  function PlannedEvents(context: Context): seq<EventKind> {
    ProfileEvents(context) + [Planned]
  }

  function RoutedEvents(context: Context, planner: AgentDecision, policy: Route, route: Route): seq<EventKind> {
    AuditEvents(planner, policy, context.fallbackReason) + [RouteSelected(route.agent, route.requiresApproval)]
    + ChannelEvents(context)
  }

  /** What ends a run that has a route. */
  function TerminalWrite(context: Context, route: Route, specialist: Option<AgentDecision>): Write {
    if context.specialistResult.None? then Fail([])
    else if specialist.None? then Fail([SpecialistInvoked])
    else Finish([SpecialistInvoked],
                if context.finalIntent.Some? then context.finalIntent else specialist.value.intent,
                context.finalRequiresApproval || route.requiresApproval)
  }

  function SpecialistAnswer(context: Context, route: Route): Option<AgentDecision> {
    if context.specialistResult.Some? then TryRead(context.specialistResult.value, route.agent) else None
  }

  /** The writes of a run whose orchestration did not fail, from the answers re-read. */
  function WritesFrom(context: Context, planner: Option<AgentDecision>, policy: Option<Route>,
                      specialist: Option<AgentDecision>): seq<Write> {
    if context.plannerResult.None? then [Fail([])]
    else
      var planned := PlannedEvents(context);
      if planner.None? then [Fail(planned)]
      else
        var chosen := if context.route.Some? then context.route else policy;
        if chosen.None? || policy.None? then [Advance(planned)]     // the policy throws; the run stops here
        else if !Supported(Lower(chosen.value.agent)) then [Advance(planned), Fail([])]
        else
          var route := chosen.value;
          var routed := RoutedEvents(context, planner.value, policy.value, route);
          [Advance(planned), Advance(routed), TerminalWrite(context, route, specialist)]
  }

  function WritesOf(message: string, context: Context): seq<Write> {
    var policy := if context.policyRoute.Some? then context.policyRoute else Decide(message);
    var chosen := if context.route.Some? then context.route else policy;
    WritesFrom(
      context,
      if context.plannerResult.Some? then TryRead(context.plannerResult.value, Agents.WORKFLOW_PLANNING) else None,
      policy,
      if chosen.Some? then SpecialistAnswer(context, chosen.value) else None)
  }

  /** None is the run the caller cancelled. */
  function WritesAfter(message: string, execution: Option<Execution>): seq<Write> {
    if execution.None? then [Fail([])]
    else if execution.value.failed then [Fail(ProfileEvents(execution.value.context))]
    else WritesOf(message, execution.value.context)
  }

  /** Every write of one routing run, in order. */
  function RoutingWrites(workflow: Workflow, world: World): seq<Write> {
    WritesAfter(workflow.row.userMessage, Execute(workflow, world))
  }

  /** What is persisted for any context the orchestrator could hand over. Only an unreadable
      or missing answer, or an agent that is not supported, ends in a failure; the failure
      reports as invoked exactly the agents that answered. */
  lemma HandedOver(message: string, context: Context)
    ensures var writes := WritesOf(message, context);
            var recalled := if context.preferences == [] then [] else [ProfileRecalled(context.preferences)];
            var chosen := if context.route.Some? then context.route
                          else if context.policyRoute.Some? then context.policyRoute else Decide(message);
            if context.plannerResult.None? then writes == [Fail([])]
            else if TryRead(context.plannerResult.value, "workflow-planning").None? then writes == [Fail(recalled + [Planned])]
            else
              && |writes| >= 1 && writes[0] == Advance(recalled + [Planned])
              && if chosen.None? || (context.policyRoute.None? && IsBlank(message)) then |writes| == 1
                 else if !(EqualsIgnoreCase(chosen.value.agent, "transaction-explanation")
                           || EqualsIgnoreCase(chosen.value.agent, "suspicious-activity")
                           || EqualsIgnoreCase(chosen.value.agent, "dispute-planning")) then |writes| == 2 && writes[1] == Fail([])
                 else
                   && |writes| == 3 && writes[1].Advance?
                   && if context.specialistResult.None? then writes[2] == Fail([])
                      else if TryRead(context.specialistResult.value, chosen.value.agent).None? then writes[2] == Fail([SpecialistInvoked])
                      else writes[2].Finish? && writes[2].events == [SpecialistInvoked]
  {
    NamesAreLower();
  }

  // ---- what every run's writes look like ----

  /** At most two progress writes, then at most one that settles the workflow. */
  predicate WellShaped(writes: seq<Write>) {
    && |writes| <= 3
    && (forall k | 0 <= k < |writes| - 1 :: writes[k].Advance?)
    && (|writes| == 3 ==> Settles(writes[2]))
    && (forall k | 0 <= k < |writes| :: ProgressOnly(writes[k].events))
  }

  predicate ProgressOnly(kinds: seq<EventKind>) {
    forall k | 0 <= k < |kinds| :: IsProgress(kinds[k])
  }

  lemma RoutedEventsProgress(context: Context, planner: AgentDecision, policy: Route, route: Route)
    ensures ProgressOnly(RoutedEvents(context, planner, policy, route))
  {
  }

  lemma WritesFromWellShaped(context: Context, planner: Option<AgentDecision>, policy: Option<Route>, specialist: Option<AgentDecision>)
    ensures WellShaped(WritesFrom(context, planner, policy, specialist))
  {
    assert ProgressOnly(PlannedEvents(context));
    var chosen := if context.route.Some? then context.route else policy;
    if planner.Some? && policy.Some? && chosen.Some? {
      RoutedEventsProgress(context, planner.value, policy.value, chosen.value);
    }
  }

  lemma WritesAfterWellShaped(message: string, execution: Option<Execution>)
    ensures WellShaped(WritesAfter(message, execution))
  {
    if execution.Some? && !execution.value.failed {
      var context := execution.value.context;
      var policy := if context.policyRoute.Some? then context.policyRoute else Decide(message);
      var chosen := if context.route.Some? then context.route else policy;
      WritesFromWellShaped(
        context,
        if context.plannerResult.Some? then TryRead(context.plannerResult.value, Agents.WORKFLOW_PLANNING) else None,
        policy,
        if chosen.Some? then SpecialistAnswer(context, chosen.value) else None);
    }
  }

  lemma RunsAreWellShaped(workflow: Workflow, world: World)
    ensures WellShaped(RoutingWrites(workflow, world))
  {
    WritesAfterWellShaped(workflow.row.userMessage, Execute(workflow, world));
  }

  // ---- the approval law ----

  /** What holds between the steps of a run that reached its end. */
  predicate Coherent(message: string, context: Context) {
    && context.plannerResult.Some? && context.plannerDecision.Some?
    && context.plannerDecision == TryRead(context.plannerResult.value, Agents.WORKFLOW_PLANNING)
    && context.policyRoute.Some? && context.policyRoute == Decide(message)
    && context.route.Some? && Supported(context.route.value.agent)
    && context.specialistResult.Some? && context.specialistDecision.Some?
    && context.specialistDecision == TryRead(context.specialistResult.value, context.route.value.agent)
    && context.fallbackReason == FallbackReason(context.plannerDecision.value.selectedAgent)
    && (context.fallbackReason.None? ==>
          context.route.value.requiresApproval
            == (context.plannerDecision.value.requiresApproval || context.policyRoute.value.requiresApproval))
    && (context.fallbackReason.None? ==>
          Some(context.route.value.agent) == NormalizeSpecialist(context.plannerDecision.value.selectedAgent))
    && (context.fallbackReason.Some? ==> context.route == context.policyRoute)
    && context.finalRequiresApproval
         == (context.specialistDecision.value.requiresApproval || context.route.value.requiresApproval)
    && context.finalIntent == context.specialistDecision.value.intent
  }

  lemma PlannerStepFacts(context: Context, world: World)
    requires !context.failed && context.plannerDecision.None?
    requires PlannerStep(context, world).Some? && !PlannerStep(context, world).value.failed
    ensures var next := PlannerStep(context, world).value;
            && next.plannerResult.Some? && next.plannerDecision.Some?
            && next.plannerDecision == TryRead(next.plannerResult.value, Agents.WORKFLOW_PLANNING)
            && next.requiresApproval == next.plannerDecision.value.requiresApproval
            && next.preferences == context.preferences
  {
  }

  lemma RoutingStepFacts(context: Context, message: string)
    requires !context.failed && context.plannerDecision.Some?
    requires context.requiresApproval == context.plannerDecision.value.requiresApproval
    requires RoutingStep(context, message).Some?
    ensures var next := RoutingStep(context, message).value;
            && !next.failed && next.plannerDecision == context.plannerDecision && next.plannerResult == context.plannerResult
            && next.policyRoute.Some? && next.policyRoute == Decide(message)
            && next.route.Some? && next.requiresApproval == next.route.value.requiresApproval
            && next.fallbackReason == FallbackReason(context.plannerDecision.value.selectedAgent)
            && (next.fallbackReason.None? ==>
                  next.route.value.requiresApproval
                    == (context.plannerDecision.value.requiresApproval || next.policyRoute.value.requiresApproval))
            && (next.fallbackReason.None? ==>
                  Some(next.route.value.agent) == NormalizeSpecialist(context.plannerDecision.value.selectedAgent))
            && (next.fallbackReason.Some? ==> next.route == next.policyRoute)
            && next.preferences == context.preferences
  {
  }

  lemma SpecialistStepFacts(context: Context, world: World)
    requires !context.failed && context.plannerDecision.Some? && context.route.Some?
    requires SpecialistStep(context, world).Some? && !SpecialistStep(context, world).value.failed
    ensures var next := SpecialistStep(context, world).value;
            && next == context.(specialistResult := next.specialistResult, specialistDecision := next.specialistDecision,
                                intent := next.intent, requiresApproval := next.requiresApproval, channel := next.channel)
            && Supported(context.route.value.agent)
            && next.specialistResult.Some? && next.specialistDecision.Some?
            && next.specialistDecision == TryRead(next.specialistResult.value, context.route.value.agent)
            && next.intent == next.specialistDecision.value.intent
            && next.requiresApproval == (next.specialistDecision.value.requiresApproval || context.requiresApproval)
  {
  }

  lemma StepsCoherent(workflow: Workflow, world: World)
    requires Steps(workflow, world).Some? && !Steps(workflow, world).value.failed
    ensures Coherent(workflow.row.userMessage, Steps(workflow, world).value)
  {
    var recalled := INITIAL_CONTEXT.(preferences := Profile.Recall(workflow.row.customerId, world.profile));
    var planned := PlannerStep(recalled, world).value;
    var routed := RoutingStep(planned, workflow.row.userMessage).value;
    var answered := SpecialistStep(routed, world).value;
    PlannerStepFacts(recalled, world);
    RoutingStepFacts(planned, workflow.row.userMessage);
    SpecialistStepFacts(routed, world);
    assert Steps(workflow, world).value == TerminalStep(answered);
  }

  /** What the specialist's answer says about approval in a run that did not fail. */
  predicate SpecialistAsks(context: Context) {
    context.specialistDecision.Some? && context.specialistDecision.value.requiresApproval
  }

  predicate PlannerAsks(context: Context) {
    context.plannerDecision.Some? && context.plannerDecision.value.requiresApproval
  }

  predicate PlannerAgentRecognised(context: Context) {
    context.plannerDecision.Some? && FallbackReason(context.plannerDecision.value.selectedAgent).None?
  }

  lemma CoherentWrites(message: string, context: Context)
    requires Coherent(message, context)
    ensures var writes := WritesOf(message, context);
            && |writes| == 3 && writes[2].Finish?
            && (writes[2].requiresApproval
                <==> SpecialistAsks(context) || MustAsk(message)
                     || (PlannerAsks(context) && PlannerAgentRecognised(context)))
  {
    PolicyMeaning(message);
    LowerNames();
  }

  /** A run that does not fail makes exactly three writes. It gates exactly when the
      specialist asks, or the policy does, or the planner does and its agent is one the
      router knows: a planner's gate is lost on the route fallback and nowhere else. */
  lemma ApprovalLaw(workflow: Workflow, world: World)
    requires Execute(workflow, world).Some? && !Execute(workflow, world).value.failed
    ensures var context := Execute(workflow, world).value.context;
            var writes := RoutingWrites(workflow, world);
            && |writes| == 3 && writes[2].Finish?
            && (writes[2].requiresApproval
                <==> SpecialistAsks(context) || MustAsk(workflow.row.userMessage)
                     || (PlannerAsks(context) && PlannerAgentRecognised(context)))
  {
    StepsCoherent(workflow, world);
    CoherentWrites(workflow.row.userMessage, Execute(workflow, world).value.context);
  }

  /** Which events a coherent context turns into a route. */
  lemma CoherentRoute(message: string, context: Context)
    requires Coherent(message, context)
    ensures var writes := WritesOf(message, context);
            && |writes| == 3 && writes[2].Finish?
            && writes[2].intent == context.specialistDecision.value.intent
            && writes[1] == Advance(RoutedEvents(context, context.plannerDecision.value, context.policyRoute.value, context.route.value))
  {
    LowerNames();
  }

  lemma RouteIsLogged(context: Context, planner: AgentDecision, policy: Route, route: Route)
    ensures var events := RoutedEvents(context, planner, policy, route);
            && RouteSelected(route.agent, route.requiresApproval) in events
            && (forall agent, approval | RouteSelected(agent, approval) in events ::
                  agent == route.agent && approval == route.requiresApproval)
            && (forall reason :: RouteFallback(reason) in events <==> context.fallbackReason == Some(reason))
  {
    var events := RoutedEvents(context, planner, policy, route);
    var audit := AuditEvents(planner, policy, context.fallbackReason);
    assert events[|audit|] == RouteSelected(route.agent, route.requiresApproval);
    if context.fallbackReason.Some? {
      assert events[0] == RouteFallback(context.fallbackReason.value);
    }
  }

  /** The logged route of a run that does not fail: the planner's specialist when the router
      knows it, the policy's otherwise, which is also when a fallback is logged. The intent
      that is stored is the specialist's. */
  lemma RouteLaw(workflow: Workflow, world: World)
    requires Execute(workflow, world).Some? && !Execute(workflow, world).value.failed
    ensures var context := Execute(workflow, world).value.context;
            var writes := RoutingWrites(workflow, world);
            && |writes| == 3 && writes[2].Finish?
            && context.specialistDecision.Some? && writes[2].intent == context.specialistDecision.value.intent
            && context.plannerDecision.Some?
            && forall agent, approval | RouteSelected(agent, approval) in writes[1].events ::
                 if PlannerAgentRecognised(context)
                 then Some(agent) == NormalizeSpecialist(context.plannerDecision.value.selectedAgent)
                      && approval == (PlannerAsks(context) || MustAsk(workflow.row.userMessage))
                 else agent == PolicyAgent(workflow.row.userMessage) && approval == MustAsk(workflow.row.userMessage)
    ensures forall reason :: RouteFallback(reason) in RoutingWrites(workflow, world)[1].events
              <==> FallbackReason(Execute(workflow, world).value.context.plannerDecision.value.selectedAgent) == Some(reason)
  {
    var context := Execute(workflow, world).value.context;
    PolicyMeaning(workflow.row.userMessage);
    if !IsBlank(workflow.row.userMessage) {
      DecidedByWords(workflow.row.userMessage);
    }
    StepsCoherent(workflow, world);
    CoherentRoute(workflow.row.userMessage, context);
    RouteIsLogged(context, context.plannerDecision.value, context.policyRoute.value, context.route.value);
  }

  lemma LowerNames()
    ensures Lower(TRANSACTION_EXPLANATION) == TRANSACTION_EXPLANATION
    ensures Lower(SUSPICIOUS_ACTIVITY) == SUSPICIOUS_ACTIVITY
    ensures Lower(DISPUTE_PLANNING) == DISPUTE_PLANNING
  {
    LowerFixesLower(TRANSACTION_EXPLANATION);
    LowerFixesLower(SUSPICIOUS_ACTIVITY);
    LowerFixesLower(DISPUTE_PLANNING);
  }
}
