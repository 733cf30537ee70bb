/** The five-step run that decides a workflow's route and gate
    (src/application/AgentFrameworkWorkflowOrchestrator.cs). */
module Orchestrator {
  import opened Wrappers
  import opened Text
  import opened Domain
  import opened RoutingPolicy
  import Agents
  import ContactChannel
  import Json
  import opened Mcp
  import Profile

  // ---- reading an agent's answer ----

  datatype AgentDecision = AgentDecision(
    agent: Option<string>,
    status: Option<string>,
    intent: Option<string>,
    summary: Option<string>,
    requiresApproval: bool,
    selectedAgent: Option<string>,
    contractVersion: Option<string>,
    executionMode: Option<string>)

  /** A text property: missing and null both read as null. */
  function TextField(value: Json.Value, name: string): Option<string> {
    if Json.ValueAt(value, name).Str? then Some(Json.ValueAt(value, name).s) else None
  }

  /** JsonSerializer.Deserialize<AgentDecision>; None is a JsonException. */
  function Decode(value: Json.Value): Option<AgentDecision> {
    var texts := ["agent", "status", "intent", "summary", "selected_agent", "contract_version", "execution_mode"];
    if !value.Obj? then None
    else if exists k | 0 <= k < |texts| :: !Json.ValueAt(value, texts[k]).Str? && Json.ValueAt(value, texts[k]) != Json.Null then None
    else if Json.Get(value, "requires_approval").Some? && !Json.Get(value, "requires_approval").value.Bool? then None
    else if !ReadableEvidence(Json.ValueAt(value, "evidence")) then None
    else Some(AgentDecision(
      TextField(value, "agent"), TextField(value, "status"), TextField(value, "intent"), TextField(value, "summary"),
      Json.ValueAt(value, "requires_approval") == Json.Bool(true),
      TextField(value, "selected_agent"), TextField(value, "contract_version"), TextField(value, "execution_mode")))
  }

  predicate ReadableEvidence(value: Json.Value) {
    value == Json.Null
    || (value.Arr? && forall k | 0 <= k < |value.items| :: value.items[k].Str? || value.items[k] == Json.Null)
  }

  predicate HasText(field: Option<string>) {
    field.Some? && !IsBlank(field.value)
  }

  predicate Same(field: Option<string>, text: string) {
    field.Some? && EqualsIgnoreCase(field.value, text)
  }

  predicate Acceptable(decision: AgentDecision, expectedAgent: string) {
    && Same(decision.status, "ok") && HasText(decision.intent) && HasText(decision.summary)
    && Same(decision.agent, expectedAgent)
    && (decision.contractVersion.None? || decision.contractVersion.value == "1.0")
    && (decision.executionMode.None? || decision.executionMode.value == "model" || decision.executionMode.value == "fallback")
  }

  /** TryReadAgentResult. */
  function TryRead(result: ToolResult, expectedAgent: string): Option<AgentDecision> {
    if !EqualsIgnoreCase(result.status, "ok") || !result.body.Document? then None
    else
      var decoded := Decode(result.body.value);
      if decoded.Some? && Acceptable(decoded.value, expectedAgent) then decoded else None
  }

  predicate TextOrNull(document: Json.Value, name: string) {
    Json.ValueAt(document, name).Str? || Json.ValueAt(document, name) == Json.Null
  }

  /** A document the contract's types can hold. */
  predicate Readable(document: Json.Value) {
    && document.Obj?
    && TextOrNull(document, "agent") && TextOrNull(document, "status") && TextOrNull(document, "intent")
    && TextOrNull(document, "summary") && TextOrNull(document, "selected_agent")
    && TextOrNull(document, "contract_version") && TextOrNull(document, "execution_mode")
    && (Json.Get(document, "requires_approval").Some? ==> Json.ValueAt(document, "requires_approval").Bool?)
    && var evidence := Json.ValueAt(document, "evidence");
       (evidence != Json.Null ==> evidence.Arr? && forall item | item in evidence.items :: item.Str? || item == Json.Null)
  }

  predicate SaysText(document: Json.Value, name: string) {
    Json.ValueAt(document, name).Str? && !IsBlank(Json.ValueAt(document, name).s)
  }

  predicate Says(document: Json.Value, name: string, text: string) {
    Json.ValueAt(document, name).Str? && EqualsIgnoreCase(Json.ValueAt(document, name).s, text)
  }

  lemma DecodeMeaning(document: Json.Value)
    ensures Decode(document).Some? <==> Readable(document)
  {
    var texts := ["agent", "status", "intent", "summary", "selected_agent", "contract_version", "execution_mode"];
    assert texts[0] == "agent" && texts[1] == "status" && texts[2] == "intent" && texts[3] == "summary";
    assert texts[4] == "selected_agent" && texts[5] == "contract_version" && texts[6] == "execution_mode";
    if document.Obj? && (exists k | 0 <= k < |texts| :: !Json.ValueAt(document, texts[k]).Str? && Json.ValueAt(document, texts[k]) != Json.Null) {
      var k :| 0 <= k < |texts| && !Json.ValueAt(document, texts[k]).Str? && Json.ValueAt(document, texts[k]) != Json.Null;
      assert !TextOrNull(document, texts[k]);
    }
  }

  /** Which answers a step accepts, over the document itself: an ok result whose document is
      readable, says ok, names the agent that was asked, says something for intent and
      summary, and carries no other contract version or execution mode. */
  lemma AcceptedExactly(result: ToolResult, expectedAgent: string)
    ensures TryRead(result, expectedAgent).Some? <==>
              && EqualsIgnoreCase(result.status, "ok") && result.body.Document?
              && var document := result.body.value;
                 && Readable(document)
                 && Says(document, "status", "ok") && Says(document, "agent", expectedAgent)
                 && SaysText(document, "intent") && SaysText(document, "summary")
                 && Json.ValueAt(document, "contract_version") in {Json.Null, Json.Str("1.0")}
                 && Json.ValueAt(document, "execution_mode") in {Json.Null, Json.Str("model"), Json.Str("fallback")}
    ensures TryRead(result, expectedAgent).Some? ==>
              var decision, document := TryRead(result, expectedAgent).value, result.body.value;
              && decision.intent == Some(Json.ValueAt(document, "intent").s)
              && (decision.requiresApproval <==> Json.ValueAt(document, "requires_approval") == Json.Bool(true))
              && decision.selectedAgent == (if Json.ValueAt(document, "selected_agent").Str?
                                            then Some(Json.ValueAt(document, "selected_agent").s) else None)
  {
    if result.body.Document? {
      DecodeMeaning(result.body.value);
    }
  }

  // ---- the environment of one run ----

  datatype DemoFault = NoFault | AgentFailure | AgentTimeout

  /** What one agent invocation gives the step that made it. */
  datatype Invocation =
    | Got(result: ToolResult)
    | TransportException        // HttpRequestException or TimeoutException, which the step catches
    | OtherFailure              // any other exception, which ends the run

  /** The outside world of one run. The specialist's answer is that of the agent asked. */
  datatype World = World(
    cancelled: bool,
    fault: DemoFault,
    profile: Profile.ProfileAnswer,
    planner: Invocation,
    specialist: Invocation,
    channels: seq<ContactChannel.ChannelDefinition>)

  /** InvokeAgentAsync: a demo fault replaces the call. */
  function Invoke(fault: DemoFault, answer: Invocation): Invocation {
    match fault
    case NoFault => answer
    case AgentFailure => Got(ToolResult("error", "", NoBody, Json.Null, None, "", 0))
    case AgentTimeout => TransportException
  }

  /** Under a fault no agent's answer is accepted, whatever it would have been. */
  lemma FaultIsNoAnswer(fault: DemoFault, answer: Invocation, expectedAgent: string)
    ensures fault.NoFault? ==> Invoke(fault, answer) == answer
    ensures !fault.NoFault? ==>
              var seen := Invoke(fault, answer);
              seen.TransportException? || (seen.Got? && TryRead(seen.result, expectedAgent).None?)
  {
    LowerFixesLower("ok");
    LowerFixesLower("error");
    assert |"ok"| == 2 && |"error"| == 5;
  }

  // ---- the context the steps hand on ----

  datatype Context = Context(
    preferences: seq<string>,
    plannerResult: Option<ToolResult>,
    plannerDecision: Option<AgentDecision>,
    specialistResult: Option<ToolResult>,
    specialistDecision: Option<AgentDecision>,
    route: Option<Route>,
    policyRoute: Option<Route>,
    fallbackReason: Option<string>,
    failed: bool,
    intent: Option<string>,
    requiresApproval: bool,
    finalRequiresApproval: bool,
    finalIntent: Option<string>,
    channel: Option<ContactChannel.Assessment>)

  const INITIAL_CONTEXT := Context([], None, None, None, None, None, None, None, false, None, false, false, None, None)

  function NormalizeSpecialist(agent: Option<string>): Option<string> {
    if agent.None? then None
    else
      var name := Lower(Trim(agent.value));
      if name == TRANSACTION_EXPLANATION || name == SUSPICIOUS_ACTIVITY || name == DISPUTE_PLANNING then Some(name) else None
  }

  function FallbackReason(selected: Option<string>): Option<string> {
    if selected.None? || IsBlank(selected.value) then Some("missing_selected_agent")
    else if NormalizeSpecialist(selected).None? then Some("unknown_selected_agent")
    else None
  }

  /** A name the router knows, in any case and with white space around it. */
  predicate KnownAgent(selected: Option<string>) {
    selected.Some?
    && (EqualsIgnoreCase(Trim(selected.value), "transaction-explanation")
        || EqualsIgnoreCase(Trim(selected.value), "suspicious-activity")
        || EqualsIgnoreCase(Trim(selected.value), "dispute-planning"))
  }

  lemma NamesAreLower()
    ensures Lower("transaction-explanation") == "transaction-explanation"
    ensures Lower("suspicious-activity") == "suspicious-activity"
    ensures Lower("dispute-planning") == "dispute-planning"
    ensures Lower("") == ""
  {
    LowerFixesLower("transaction-explanation");
    LowerFixesLower("suspicious-activity");
    LowerFixesLower("dispute-planning");
  }

  lemma TrimmedBlank(text: string)
    ensures Trim(text) == "" <==> IsBlank(text)
  {
    var i, j := TrimMeaning(text);
  }

  /** Which planner answers the router follows, to whom, and why it does not follow the rest. */
  lemma KnownAgentMeaning(selected: Option<string>)
    ensures FallbackReason(selected).None? <==> KnownAgent(selected)
    ensures KnownAgent(selected) ==> NormalizeSpecialist(selected) == Some(Lower(Trim(selected.value)))
    ensures FallbackReason(selected) == Some("missing_selected_agent") <==> selected.None? || IsBlank(selected.value)
    ensures FallbackReason(selected) == Some("unknown_selected_agent")
            <==> selected.Some? && !IsBlank(selected.value) && !KnownAgent(selected)
  {
    NamesAreLower();
    assert |"missing_selected_agent"| == 22 && |"unknown_selected_agent"| == 22 && "missing_selected_agent"[0] == 'm';
    if selected.Some? {
      TrimmedBlank(selected.value);
      assert |Lower(Trim(selected.value))| == |Trim(selected.value)|;
      assert |"dispute-planning"| == 16 && |"suspicious-activity"| == 19 && |"transaction-explanation"| == 23;
    }
  }

  /** ExecutePlannerStepAsync; None is an exception that leaves the step. */
  function PlannerStep(context: Context, world: World): Option<Context> {
    match Invoke(world.fault, world.planner)
    case OtherFailure => None
    case TransportException => Some(context.(failed := true))
    case Got(result) =>
      var decision := TryRead(result, Agents.WORKFLOW_PLANNING);
      if decision.None? then Some(context.(failed := true, plannerResult := Some(result)))
      else Some(context.(
        plannerResult := Some(result),
        plannerDecision := decision,
        intent := decision.value.intent,
        requiresApproval := decision.value.requiresApproval))
  }

  /** ExecuteRoutingStepAsync; None is the policy's ArgumentException. */
  function RoutingStep(context: Context, message: string): Option<Context> {
    if context.failed then Some(context)
    else if Decide(message).None? then None
    else
      var policy := Decide(message).value;
      var selected := if context.plannerDecision.Some? then context.plannerDecision.value.selectedAgent else None;
      var reason := FallbackReason(selected);
      var route := if reason.None? then Route(NormalizeSpecialist(selected).value, context.requiresApproval || policy.requiresApproval)
                   else policy;
      Some(context.(route := Some(route), policyRoute := Some(policy), fallbackReason := reason,
                    requiresApproval := route.requiresApproval))
  }

  predicate Supported(agent: string) {
    agent == TRANSACTION_EXPLANATION || agent == SUSPICIOUS_ACTIVITY || agent == DISPUTE_PLANNING
  }

  predicate IsLetterOrDigit(c: char) {
    '0' <= c <= '9' || 'A' <= c <= 'Z' || 'a' <= c <= 'z'
  }

  /** ExecuteSpecialistStepAsync. */
  function SpecialistStep(context: Context, world: World): Option<Context> {
    if context.failed || context.plannerDecision.None? || context.route.None? then Some(context)
    else if !Supported(context.route.value.agent) then Some(context.(failed := true))
    else
      var channel := ContactChannel.AssessOf(context.preferences, world.channels, IsLetterOrDigit);
      match Invoke(world.fault, world.specialist)
      case OtherFailure => None
      case TransportException => Some(context.(failed := true, channel := Some(channel)))
      case Got(result) =>
        var decision := TryRead(result, context.route.value.agent);
        if decision.None? then Some(context.(failed := true, specialistResult := Some(result), channel := Some(channel)))
        else Some(context.(
          specialistResult := Some(result),
          specialistDecision := decision,
          intent := decision.value.intent,
          requiresApproval := decision.value.requiresApproval || context.requiresApproval,
          channel := Some(channel)))
  }

  function TerminalStep(context: Context): Context {
    if context.failed then context
    else context.(finalRequiresApproval := context.requiresApproval, finalIntent := context.intent)
  }

  /** Profile, planner, routing, specialist and terminal in order. */
  function Steps(workflow: Workflow, world: World): Option<Context> {
    var recalled := INITIAL_CONTEXT.(preferences := Profile.Recall(workflow.row.customerId, world.profile));
    var planned := PlannerStep(recalled, world);
    if planned.None? then None
    else
      var routed := RoutingStep(planned.value, workflow.row.userMessage);
      if routed.None? then None
      else
        var answered := SpecialistStep(routed.value, world);
        if answered.None? then None else Some(TerminalStep(answered.value))
  }

  // ---- ThrowIfCanceled ----

  const MARKER := "OperationCanceledException"

  /** Whether the marker stands in some string of a JSON value. */
  predicate Carries(value: Json.Value) {
    match value
    case Str(s) => Contains(s, MARKER)
    case Arr(items) => exists k | 0 <= k < |items| :: Carries(items[k])
    case Obj(fields) => exists name | name in fields :: Contains(name, MARKER) || Carries(fields[name])
    case _ => false
  }

  /** A string, or the name of a property, somewhere in a JSON value. */
  ghost predicate Inside(text: string, value: Json.Value) {
    match value
    case Str(s) => s == text
    case Arr(items) => exists k | 0 <= k < |items| :: Inside(text, items[k])
    case Obj(fields) => exists name | name in fields :: name == text || Inside(text, fields[name])
    case _ => false
  }

  /** Some text of the value holds the exception's name. */
  ghost predicate Bears(value: Json.Value) {
    exists text :: Inside(text, value) && Contains(text, "OperationCanceledException")
  }

  lemma {:induction false} CarriesMeaning(value: Json.Value)
    ensures Carries(value) <==> Bears(value)
  {
    match value {
      case Str(s) =>
        assert Inside(s, value);
      case Arr(items) =>
        forall k | 0 <= k < |items|
          ensures Carries(items[k]) <==> Bears(items[k])
        {
          CarriesMeaning(items[k]);
        }
        BearsItem(value);
      case Obj(fields) =>
        forall name | name in fields
          ensures Carries(fields[name]) <==> Bears(fields[name])
        {
          CarriesMeaning(fields[name]);
        }
        BearsField(value);
      case _ =>
    }
  }

  lemma BearsItem(value: Json.Value)
    requires value.Arr?
    ensures Bears(value) <==> exists k | 0 <= k < |value.items| :: Bears(value.items[k])
  {
    if Bears(value) {
      var text :| Inside(text, value) && Contains(text, "OperationCanceledException");
      var k :| 0 <= k < |value.items| && Inside(text, value.items[k]);
      assert Bears(value.items[k]);
    }
    if k :| 0 <= k < |value.items| && Bears(value.items[k]) {
      var text :| Inside(text, value.items[k]) && Contains(text, "OperationCanceledException");
      assert Inside(text, value);
    }
  }

  lemma BearsField(value: Json.Value)
    requires value.Obj?
    ensures Bears(value) <==>
              exists name | name in value.fields :: Contains(name, "OperationCanceledException") || Bears(value.fields[name])
  {
    if Bears(value) {
      var text :| Inside(text, value) && Contains(text, "OperationCanceledException");
      var name :| name in value.fields && (name == text || Inside(text, value.fields[name]));
      assert name == text || Bears(value.fields[name]);
    }
    if name :| name in value.fields && (Contains(name, "OperationCanceledException") || Bears(value.fields[name])) {
      assert Inside(name, value);
      if Bears(value.fields[name]) {
        var text :| Inside(text, value.fields[name]) && Contains(text, "OperationCanceledException");
        assert Inside(text, value);
      }
    }
  }

  predicate TextCarries(text: Option<string>) {
    text.Some? && Contains(text.value, MARKER)
  }

  predicate ResultCarries(result: Option<ToolResult>) {
    result.Some?
    && (Contains(result.value.message, MARKER) || Contains(result.value.errorMessage, MARKER)
        || (result.value.body.Document? && Carries(result.value.body.value))
        || (result.value.body.Unparsed? && Contains(result.value.body.text, MARKER))
        || Carries(result.value.envelope))
  }

  /** The texts of one agent's result that reach the serialized context. */
  ghost predicate Holds(result: ToolResult, text: string) {
    || text == result.message || text == result.errorMessage || Inside(text, result.envelope)
    || (result.body.Document? && Inside(text, result.body.value)) || (result.body.Unparsed? && text == result.body.text)
  }

  lemma ResultCarriesMeaning(result: ToolResult)
    ensures ResultCarries(Some(result)) <==> exists text :: Holds(result, text) && Contains(text, "OperationCanceledException")
  {
    CarriesMeaning(result.envelope);
    if result.body.Document? {
      CarriesMeaning(result.body.value);
    }
    assert Holds(result, result.message) && Holds(result, result.errorMessage);
    if result.body.Unparsed? {
      assert Holds(result, result.body.text);
    }
    if text :| Inside(text, result.envelope) && Contains(text, "OperationCanceledException") {
      assert Holds(result, text);
    }
    if result.body.Document? && exists text :: Inside(text, result.body.value) && Contains(text, "OperationCanceledException") {
      var text :| Inside(text, result.body.value) && Contains(text, "OperationCanceledException");
      assert Holds(result, text);
    }
  }

  predicate EventCarries(kind: EventKind) {
    match kind
    case DemoScenario(id) => Contains(id, MARKER)
    case ProfileRecalled(preferences) => AnyCarries(preferences)
    case RouteFallback(reason) => Contains(reason, MARKER)
    case RouteSelected(agent, _) => Contains(agent, MARKER)
    case ChannelUnavailable(channel) => TextCarries(channel)
    case ApprovalGiven(decision) => Contains(decision, MARKER)
    case _ => false
  }

  predicate AnyCarries(texts: seq<string>) {
    exists k | 0 <= k < |texts| :: Contains(texts[k], MARKER)
  }

  /** The texts of one event. */
  predicate Tells(kind: EventKind, text: string) {
    || kind == DemoScenario(text) || kind == RouteFallback(text) || kind == ApprovalGiven(text)
    || (kind.RouteSelected? && kind.agent == text) || kind == ChannelUnavailable(Some(text))
    || (kind.ProfileRecalled? && text in kind.preferences)
  }

  lemma EventCarriesMeaning(kind: EventKind)
    ensures EventCarries(kind) <==> exists text :: Tells(kind, text) && Contains(text, "OperationCanceledException")
  {
    match kind {
      case DemoScenario(id) => assert Tells(kind, id);
      case RouteFallback(reason) => assert Tells(kind, reason);
      case RouteSelected(agent, _) => assert Tells(kind, agent);
      case ApprovalGiven(decision) => assert Tells(kind, decision);
      case ChannelUnavailable(channel) => assert channel.Some? ==> Tells(kind, channel.value);
      case ProfileRecalled(preferences) => assert forall k | 0 <= k < |preferences| :: Tells(kind, preferences[k]);
      case _ =>
    }
  }

  /** What the serialized context carries apart from the customer's preferences. */
  predicate BaseCarries(workflow: Workflow, context: Context) {
    || Contains(workflow.row.userMessage, MARKER)
    || TextCarries(workflow.row.customerId)
    || TextCarries(workflow.row.lastErrorCode)
    || (exists k | 0 <= k < |workflow.events| :: EventCarries(workflow.events[k].kind))
    || ResultCarries(context.plannerResult)
    || ResultCarries(context.specialistResult)
  }

  /** What the preferences, and the channel they name, add to it. */
  predicate PersonalCarries(context: Context) {
    AnyCarries(context.preferences) || (context.channel.Some? && TextCarries(context.channel.value.channel))
  }

  /** The terminal output is the context as text, and the run is taken for cancelled when
      that text holds the name of the cancellation exception anywhere. */
  predicate TakenForCancelled(workflow: Workflow, context: Context) {
    BaseCarries(workflow, context) || PersonalCarries(context)
  }

  datatype Execution = Execution(context: Context, failed: bool)

  /** ExecuteAsync; None is the cancellation that the caller asked for. Every other
      exception ends in a failed execution that knows only the initial context. */
  function Execute(workflow: Workflow, world: World): Option<Execution> {
    if world.cancelled then None
    else
      var context := Steps(workflow, world);
      if context.None? || TakenForCancelled(workflow, context.value) then Some(Execution(INITIAL_CONTEXT, true))
      else Some(Execution(context.value, context.value.failed))
  }
}
