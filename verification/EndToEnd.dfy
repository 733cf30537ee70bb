/** The planner graph's answer on its way through the tool server, the client and the
    orchestrator, and the gate it sets. */
module EndToEnd {
  import opened Wrappers
  import opened Text
  import opened Domain
  import opened RoutingPolicy
  import opened Agents
  import Json
  import opened Mcp
  import opened Orchestrator
  import opened Service
  import Profile

  function OptionalText(text: Option<string>): Json.Value {
    if text.Some? then Json.Str(text.value) else Json.Null
  }

  /** AgentResult.model_dump(mode="json"). */
  function Encode(result: AgentResult): Json.Value {
    Json.Obj(map[
      "agent" := Json.Str(result.agent),
      "status" := Json.Str(result.status),
      "contract_version" := Json.Str(result.contractVersion),
      "execution_mode" := Json.Str(result.executionMode),
      "intent" := Json.Str(result.intent),
      "summary" := Json.Str(result.summary),
      "risk_level" := Json.Str(result.riskLevel),
      "requires_approval" := Json.Bool(result.requiresApproval),
      "recommended_action" := Json.Str(result.recommendedAction),
      "next_step" := Json.Str(result.nextStep),
      "selected_agent" := OptionalText(result.selectedAgent),
      "evidence" := Json.Arr(seq(|result.evidence|, i requires 0 <= i < |result.evidence| => Json.Str(result.evidence[i])))])
  }

  /** The decision a decoder sees. */
  function Decision(result: AgentResult): AgentDecision {
    AgentDecision(Some(result.agent), Some(result.status), Some(result.intent), Some(result.summary),
                  result.requiresApproval, result.selectedAgent, Some(result.contractVersion), Some(result.executionMode))
  }

  lemma KeysDiffer()
    ensures |"agent"| == 5 && |"status"| == 6 && |"contract_version"| == 16 && |"execution_mode"| == 14 && |"intent"| == 6
    ensures |"summary"| == 7 && |"risk_level"| == 10 && |"requires_approval"| == 17 && |"recommended_action"| == 18
    ensures |"next_step"| == 9 && |"selected_agent"| == 14 && |"evidence"| == 8
    ensures "status"[0] == 's' && "intent"[0] == 'i' && "execution_mode"[0] == 'e' && "selected_agent"[0] == 's'
  {
  }

  lemma EncodedNames(result: AgentResult)
    ensures var e := Encode(result);
            && Json.ValueAt(e, "agent") == Json.Str(result.agent)
            && Json.ValueAt(e, "status") == Json.Str(result.status)
            && Json.ValueAt(e, "contract_version") == Json.Str(result.contractVersion)
            && Json.ValueAt(e, "execution_mode") == Json.Str(result.executionMode)
  {
    KeysDiffer();
  }

  lemma EncodedTexts(result: AgentResult)
    ensures var e := Encode(result);
            && Json.ValueAt(e, "intent") == Json.Str(result.intent)
            && Json.ValueAt(e, "summary") == Json.Str(result.summary)
            && Json.ValueAt(e, "selected_agent") == OptionalText(result.selectedAgent)
  {
    KeysDiffer();
  }

  lemma EncodedRest(result: AgentResult)
    ensures var e := Encode(result);
            && Json.Get(e, "requires_approval") == Some(Json.Bool(result.requiresApproval))
            && Json.ValueAt(e, "evidence").Arr?
            && forall k | 0 <= k < |Json.ValueAt(e, "evidence").items| :: Json.ValueAt(e, "evidence").items[k].Str?
  {
    KeysDiffer();
  }

  /** What the C# side reads from an encoded result is that result. */
  lemma DecodeEncode(result: AgentResult)
    ensures Decode(Encode(result)) == Some(Decision(result))
  {
    EncodedNames(result);
    EncodedTexts(result);
    EncodedRest(result);
  }

  // ---- the hosted planner's answer ----

  /** An "ok" planner answer is the planner graph's, run on this message with some model. */
  ghost predicate PlannerIsHosted(message: string, answer: Invocation) {
    answer.Got? && EqualsIgnoreCase(answer.result.status, "ok") && answer.result.body.Document? ==>
      exists model: PlannerModel :: PlannerGraph(message, model).Some?
                                    && answer.result.body.value == Encode(PlannerGraph(message, model).value)
  }

  /** The planner's host: the graph runs on the request's message, and a node that raises
      fails the call. */
  function PlannerHost(model: PlannerModel): Graph {
    (request: Mcp.AgentRequest) =>
      if !request.message.Str? then Crashed("TypeError")
      else if PlannerGraph(request.message.s, model).None? then Crashed("ModelUnavailableError")
      else Finished(Encode(PlannerGraph(request.message.s, model).value))
  }

  const PLAN_TOOL := "workflow.plan"

  /** If the client accepts the reply to a call that carries the message, the reply
      holds the planner graph's answer to that message. */
  lemma AcceptedReplyIsPlan(message: string, arguments: Json.Value, model: PlannerModel, definition: Json.Value, dumps: Dumps,
                            callId: string, printsAs: (Json.Value, string) -> bool, parse: ParseJson, attempt: nat)
    requires arguments.Obj? && Json.ValueAt(arguments, "user_message") == Json.Str(message)
    requires Json.ValueAt(arguments, "message") == Json.Null
    ensures var reply := Handle(Some(CallRequest(callId, PLAN_TOOL, arguments)), PLAN_TOOL, definition, PlannerHost(model), dumps);
            && reply.Some?
            && (CheckReply(callId, Delivered(reply.value), printsAs).Passed? ==>
                  && CheckReply(callId, Delivered(reply.value), printsAs).root == reply.value
                  && ResponseResult(reply.value, attempt, parse).Some?
                  && PlannerGraph(message, model).Some?
                  && ResponseResult(reply.value, attempt, parse).value.body == Document(Encode(PlannerGraph(message, model).value)))
  {
    var host := PlannerHost(model);
    var request := ReadArguments(arguments);
    if request.None? {
      RefusedArguments(callId, arguments, definition, host, dumps, printsAs);
    } else {
      MessageRead(message, arguments);
      CallAccepted(callId, PLAN_TOOL, arguments, definition, host, dumps);
      if host(request.value).Finished? {
        CallRoundTrip(callId, PLAN_TOOL, arguments, definition, host, dumps, printsAs, parse, attempt);
      } else {
        ErrorNotAnswered(callId, Handle(Some(CallRequest(callId, PLAN_TOOL, arguments)), PLAN_TOOL, definition, host, dumps).value, printsAs);
      }
    }
  }

  /** The orchestrator's call carries the message as user_message, so any answer the retry
      loop leaves with as "ok" is the planner graph's answer to that message. */
  lemma HostedAnswer(message: string, arguments: Json.Value, model: PlannerModel, definition: Json.Value, dumps: Dumps,
                     initialId: string, callId: string, initial: Delivery, printsAs: (Json.Value, string) -> bool,
                     parse: ParseJson, attempt: nat, reply: Json.Value)
    requires arguments.Obj? && Json.ValueAt(arguments, "user_message") == Json.Str(message)
    requires Json.ValueAt(arguments, "message") == Json.Null
    requires Handle(Some(CallRequest(callId, PLAN_TOOL, arguments)), PLAN_TOOL, definition, PlannerHost(model), dumps) == Some(reply)
    ensures var left := McpExit(AttemptOf(initialId, callId, initial, Delivered(reply), printsAs, parse, attempt), attempt);
            left.Returned? ==> PlannerIsHosted(message, Got(left.result))
  {
    NotOk();
    AcceptedReplyIsPlan(message, arguments, model, definition, dumps, callId, printsAs, parse, attempt);
  }

  /** One attempt of the retry loop: the planner's host answered it, or nothing came back. */
  datatype Exchange =
    | Unanswered(failure: McpAttempt)
    | Reached(model: PlannerModel, initialId: string, callId: string, initial: Delivery)

  predicate IsExchange(exchange: Exchange) {
    exchange.Unanswered? ==> !exchange.failure.Answered?
  }

  function ExchangeOutcome(exchange: Exchange, arguments: Json.Value, definition: Json.Value, dumps: Dumps,
                           printsAs: (Json.Value, string) -> bool, parse: ParseJson, attempt: nat): McpAttempt {
    match exchange
    case Unanswered(failure) => failure
    case Reached(model, initialId, callId, initial) =>
      var reply := Handle(Some(CallRequest(callId, PLAN_TOOL, arguments)), PLAN_TOOL, definition, PlannerHost(model), dumps);
      AttemptOf(initialId, callId, initial, if reply.Some? then Delivered(reply.value) else NotJson, printsAs, parse, attempt)
  }

  /** An "ok" answer of this attempt is the planner graph's. */
  ghost predicate HostedOutcome(message: string, outcome: McpAttempt) {
    outcome.Answered? ==> PlannerIsHosted(message, Got(outcome.result))
  }

  lemma ExitIsHosted(message: string, outcome: McpAttempt, attempt: nat)
    requires HostedOutcome(message, outcome)
    ensures McpExit(outcome, attempt).Returned? ==> PlannerIsHosted(message, Got(McpExit(outcome, attempt).result))
  {
    NotOk();
  }

  lemma ExchangeIsHosted(message: string, exchange: Exchange, arguments: Json.Value, definition: Json.Value, dumps: Dumps,
                         printsAs: (Json.Value, string) -> bool, parse: ParseJson, attempt: nat)
    requires arguments.Obj? && Json.ValueAt(arguments, "user_message") == Json.Str(message)
    requires Json.ValueAt(arguments, "message") == Json.Null
    requires IsExchange(exchange)
    ensures HostedOutcome(message, ExchangeOutcome(exchange, arguments, definition, dumps, printsAs, parse, attempt))
  {
    if exchange.Reached? {
      var model, callId := exchange.model, exchange.callId;
      AcceptedReplyIsPlan(message, arguments, model, definition, dumps, callId, printsAs, parse, attempt);
      var reply := Handle(Some(CallRequest(callId, PLAN_TOOL, arguments)), PLAN_TOOL, definition, PlannerHost(model), dumps).value;
      HostedAnswer(message, arguments, model, definition, dumps, exchange.initialId, callId, exchange.initial, printsAs, parse, attempt, reply);
    }
  }

  /** What attempt k + 1 of the loop meets is the k-th exchange's outcome. */
  ghost predicate ArePlannerOutcomes(outcomes: seq<McpAttempt>, exchanges: seq<Exchange>, arguments: Json.Value, definition: Json.Value,
                                     dumps: Dumps, printsAs: (Json.Value, string) -> bool, parse: ParseJson) {
    && |outcomes| == |exchanges|
    && forall k | 0 <= k < |exchanges| ::
         IsExchange(exchanges[k])
         && outcomes[k] == ExchangeOutcome(exchanges[k], arguments, definition, dumps, printsAs, parse, k + 1)
  }

  lemma OutcomeIsHosted(message: string, outcomes: seq<McpAttempt>, exchanges: seq<Exchange>, arguments: Json.Value,
                        definition: Json.Value, dumps: Dumps, printsAs: (Json.Value, string) -> bool, parse: ParseJson, k: nat)
    requires arguments.Obj? && Json.ValueAt(arguments, "user_message") == Json.Str(message)
    requires Json.ValueAt(arguments, "message") == Json.Null
    requires ArePlannerOutcomes(outcomes, exchanges, arguments, definition, dumps, printsAs, parse) && k < |outcomes|
    ensures HostedOutcome(message, outcomes[k])
  {
    ExchangeIsHosted(message, exchanges[k], arguments, definition, dumps, printsAs, parse, k + 1);
  }

  lemma OutcomesAreHosted(message: string, outcomes: seq<McpAttempt>, exchanges: seq<Exchange>, arguments: Json.Value,
                          definition: Json.Value, dumps: Dumps, printsAs: (Json.Value, string) -> bool, parse: ParseJson)
    requires arguments.Obj? && Json.ValueAt(arguments, "user_message") == Json.Str(message)
    requires Json.ValueAt(arguments, "message") == Json.Null
    requires ArePlannerOutcomes(outcomes, exchanges, arguments, definition, dumps, printsAs, parse)
    ensures forall k | 0 <= k < |outcomes| :: HostedOutcome(message, outcomes[k])
  {
    forall k | 0 <= k < |outcomes|
      ensures HostedOutcome(message, outcomes[k])
    {
      OutcomeIsHosted(message, outcomes, exchanges, arguments, definition, dumps, printsAs, parse, k);
    }
  }

  method InvokeHosted(message: string, baseDelay: nat, outcomes: seq<McpAttempt>, delayCancelled: seq<bool>) returns (r: Loop)
    requires 1 <= |outcomes| <= 5 && |delayCancelled| == |outcomes|
    requires forall k | 0 <= k < |outcomes| :: HostedOutcome(message, outcomes[k])
    ensures r.Returned? ==> PlannerIsHosted(message, Got(r.result)) && 1 <= r.result.attempts <= |outcomes|
  {
    var made, planned;
    r, made, planned := InvokeMcpTool(|outcomes|, baseDelay, outcomes, delayCancelled);
    ExitIsHosted(message, outcomes[made - 1], made);
  }

  /** The whole call of the planner, over all its attempts: whatever is lost on the way and
      whatever models answer, a result the retry loop returns as "ok" is the planner graph's
      answer to this message, which is the condition hostedPlanner stands for. */
  method InvokePlanner(message: string, arguments: Json.Value, definition: Json.Value, dumps: Dumps,
                       printsAs: (Json.Value, string) -> bool, parse: ParseJson, exchanges: seq<Exchange>,
                       baseDelay: nat, outcomes: seq<McpAttempt>, delayCancelled: seq<bool>)
    returns (r: Loop)
    requires arguments.Obj? && Json.ValueAt(arguments, "user_message") == Json.Str(message)
    requires Json.ValueAt(arguments, "message") == Json.Null
    requires 1 <= |outcomes| <= 5 && |delayCancelled| == |outcomes|
    requires ArePlannerOutcomes(outcomes, exchanges, arguments, definition, dumps, printsAs, parse)
    ensures r.Returned? ==> PlannerIsHosted(message, Got(r.result)) && 1 <= r.result.attempts <= |outcomes|
  {
    OutcomesAreHosted(message, outcomes, exchanges, arguments, definition, dumps, printsAs, parse);
    r := InvokeHosted(message, baseDelay, outcomes, delayCancelled);
  }

  lemma NotOk()
    ensures !EqualsIgnoreCase("error", "ok")
  {
    assert |Lower("error")| == 5 && |Lower("ok")| == 2;
  }

  lemma MessageRead(message: string, arguments: Json.Value)
    requires Json.ValueAt(arguments, "user_message") == Json.Str(message)
    requires Json.ValueAt(arguments, "message") == Json.Null
    requires ReadArguments(arguments).Some?
    ensures ReadArguments(arguments).value.message == Json.Str(message)
  {
    var names := ["user_message", "message"];
    assert names[1..] == ["message"] && names[1..][1..] == [];
    assert FirstTruthy(arguments, names[1..][1..]) == Json.Str("");
    assert FirstTruthy(arguments, names[1..]) == Json.Str("");
  }

  lemma ErrorNotAnswered(id: string, reply: Json.Value, printsAs: (Json.Value, string) -> bool)
    requires Json.Get(reply, "error").Some? && Json.Get(reply, "error").value.Obj?
    ensures !CheckReply(id, Delivered(reply), printsAs).Passed?
  {
  }

  lemma RefusedArguments(id: string, arguments: Json.Value, definition: Json.Value, graph: Graph, dumps: Dumps,
                         printsAs: (Json.Value, string) -> bool)
    requires arguments.Obj? && ReadArguments(arguments).None?
    ensures var reply := Handle(Some(CallRequest(id, PLAN_TOOL, arguments)), PLAN_TOOL, definition, graph, dumps);
            reply == Some(ErrorReply(INVALID_PARAMS, "schema", Json.Str(id)))
            && !CheckReply(id, Delivered(reply.value), printsAs).Passed?
  {
    RequestValidated(id, PLAN_TOOL, arguments);
    ParamsRead(PLAN_TOOL, arguments);
    MethodsDiffer();
    ErrorReported(id, INVALID_PARAMS, "schema", printsAs);
  }

  // ---- the planner's gate reaches the terminal write ----

  lemma NamesNormalize(specialist: Specialist)
    ensures var name := SpecialistName(specialist);
            !IsBlank(name) && NormalizeSpecialist(Some(name)) == Some(name)
  {
    var name := SpecialistName(specialist);
    assert !IsSpace(name[0]) && !IsSpace(name[|name| - 1]);
    assert TrimStart(name) == name && TrimEnd(name) == name;
    LowerNames();
  }

  /** If the message holds an action term, or the keyword policy asks for approval, no
      answer of any model lets a run finish without a gate. */
  lemma GateHoldsForEveryAnswer(workflow: Workflow, world: World)
    requires MustAsk(workflow.row.userMessage)
             || (PlannerIsHosted(workflow.row.userMessage, world.planner) && AsksForAction(workflow.row.userMessage))
    ensures forall write | write in RoutingWrites(workflow, world) :: write.Finish? ==> write.requiresApproval
  {
    var execution := Execute(workflow, world);
    if execution.Some? && !execution.value.failed {
      var context := execution.value.context;
      StepsCoherent(workflow, world);
      PlannerAnswerKept(workflow, world, context);
      CoherentGate(workflow.row.userMessage, world, context);
    }
  }

  lemma CoherentGate(message: string, world: World, context: Context)
    requires Coherent(message, context) && world.planner == Got(context.plannerResult.value)
    requires MustAsk(message) || (PlannerIsHosted(message, world.planner) && AsksForAction(message))
    ensures forall write | write in WritesOf(message, context) :: write.Finish? ==> write.requiresApproval
  {
    CoherentWrites(message, context);
    if !MustAsk(message) {
      PlannerAsked(message, world, context);
    }
    WritesFromWellShapedHere(message, context);
    OnlyTheLastFinishes(WritesOf(message, context));
  }

  lemma OnlyTheLastFinishes(writes: seq<Write>)
    requires WellShaped(writes) && |writes| == 3 && writes[2].Finish? && writes[2].requiresApproval
    ensures forall write | write in writes :: write.Finish? ==> write.requiresApproval
  {
    assert writes == [writes[0], writes[1], writes[2]];
  }

  lemma WritesFromWellShapedHere(message: string, context: Context)
    ensures WellShaped(WritesOf(message, context))
  {
    WritesAfterWellShaped(message, Some(Execution(context, false)));
  }

  lemma PlannerAsked(message: string, world: World, context: Context)
    requires Coherent(message, context) && world.planner == Got(context.plannerResult.value)
    requires PlannerIsHosted(message, world.planner) && AsksForAction(message)
    ensures PlannerAsks(context) && PlannerAgentRecognised(context)
  {
    var model :| PlannerGraph(message, model).Some?
                 && context.plannerResult.value.body.value == Encode(PlannerGraph(message, model).value);
    HostedDecision(message, model, context.plannerResult.value);
  }

  /** The planner result in the final context is the one the invocation gave. */
  lemma PlannerAnswerKept(workflow: Workflow, world: World, context: Context)
    requires Steps(workflow, world) == Some(context) && !context.failed && context.plannerResult.Some?
    ensures world.planner == Got(context.plannerResult.value)
  {
    var recalled := INITIAL_CONTEXT.(preferences := Profile.Recall(workflow.row.customerId, world.profile));
    var planned := PlannerStep(recalled, world).value;
    var routed := RoutingStep(planned, workflow.row.userMessage).value;
    PlannerStepFacts(recalled, world);
    RoutingStepFacts(planned, workflow.row.userMessage);
    SpecialistStepFacts(routed, world);
    NotOk();
  }

  /** Read back in C#, the planner's answer to an action request asks for approval and
      names a specialist the router knows. */
  lemma HostedDecision(message: string, model: PlannerModel, result: ToolResult)
    requires PlannerGraph(message, model).Some?
    requires result.body == Document(Encode(PlannerGraph(message, model).value))
    requires TryRead(result, WORKFLOW_PLANNING).Some?
    ensures var decision := TryRead(result, WORKFLOW_PLANNING).value;
            && FallbackReason(decision.selectedAgent).None?
            && decision.requiresApproval == PlannerGraph(message, model).value.requiresApproval
            && (AsksForAction(message) ==> decision.requiresApproval)
  {
    var plan := PlannerGraph(message, model).value;
    DecodeEncode(plan);
    PlannerGate(message, model);
    var specialist: Specialist :| plan.selectedAgent == Some(SpecialistName(specialist));
    NamesNormalize(specialist);
  }
}
