/** The four hosted LangGraph graphs (src/agents/python/app/agents). A node's model
    call is an oracle: it may answer anything its schema allows, be absent (the node
    then applies its fallback) or raise (the graph then fails). */
module Agents {
  import opened Wrappers
  import opened Text
  import RoutingPolicy

  datatype Answer<+T> = Absent | Given(value: T) | Raised

  datatype AgentResult = AgentResult(
    agent: string,
    status: string,
    contractVersion: string,
    executionMode: string,
    intent: string,
    summary: string,
    riskLevel: string,
    requiresApproval: bool,
    recommendedAction: string,
    nextStep: string,
    selectedAgent: Option<string>,
    evidence: seq<string>)

  const WORKFLOW_PLANNING := "workflow-planning"

  // Stand-ins for the canned wording of the nodes' fallbacks.
  const LOCAL_SUMMARY := "local"
  const LOCAL_ACTION := "next"

  datatype Narrative = Narrative(summary: string, recommendedAction: string, evidence: seq<string>)

  predicate Detect(message: string, terms: seq<string>) {
    ContainsAny(Lower(message), terms)
  }

  function Mode(usedFallback: bool): string {
    if usedFallback then "fallback" else "model"
  }

  // ---- planning.py ----

  const PLANNER_ACTION_TERMS := ["freeze", "block", "close", "lock", "cancel my card", "suspend"]
  const PLANNER_DISPUTE_TERMS := ["dispute", "chargeback", "charge back", "charge-back", "reverse", "reversal", "refund", "money back"]
  const UNRECOGNIZED_TERMS := ["not mine", "not my", "suspicious", "fraud", "don't recognize", "do not recognize", "unrecognized", "unrecognised"]

  datatype Specialist = Explanation | Suspicious | Dispute

  function SpecialistName(specialist: Specialist): string {
    match specialist
    case Explanation => RoutingPolicy.TRANSACTION_EXPLANATION
    case Suspicious => RoutingPolicy.SUSPICIOUS_ACTIVITY
    case Dispute => RoutingPolicy.DISPUTE_PLANNING
  }

  datatype Interpretation = Interpretation(asksToAct: bool, requestsDispute: bool, reportsUnrecognized: bool)

  datatype Selection = Selection(agent: Specialist, intent: string, riskLevel: string, summary: string)

  /** What the model says at each of the planner's three calls. */
  datatype PlannerModel = PlannerModel(
    interpret: Answer<Interpretation>,
    select: Answer<Selection>,
    narrate: Answer<Narrative>)

  /** interpret_request: the action flag is OR-ed with the keywords, the dispute flag
      AND-ed with them; without a model the keywords decide alone. */
  function InterpretRequest(message: string, answer: Answer<Interpretation>): Option<Interpretation> {
    var keywordAction := Detect(message, PLANNER_ACTION_TERMS);
    var keywordDispute := Detect(message, PLANNER_DISPUTE_TERMS);
    match answer
    case Raised => None
    case Absent => Some(Interpretation(keywordAction, keywordDispute, Detect(message, UNRECOGNIZED_TERMS)))
    case Given(read) => Some(Interpretation(
      read.asksToAct || keywordAction,
      read.requestsDispute && keywordDispute,
      read.reportsUnrecognized))
  }

  function FallbackSelection(interpretation: Interpretation): Selection {
    if interpretation.requestsDispute then
      Selection(Dispute, "dispute", "high", LOCAL_SUMMARY)
    else if interpretation.reportsUnrecognized || interpretation.asksToAct then
      Selection(Suspicious, "suspicious_activity", "high", LOCAL_SUMMARY)
    else
      Selection(Explanation, "transaction_explanation", "low", LOCAL_SUMMARY)
  }

  datatype Resolved = Resolved(selection: Selection, downgraded: bool, escalated: bool, usedFallback: bool)

  /** What select_specialist leaves in the state. */
  function Resolve(interpretation: Interpretation, answer: Answer<Selection>): Option<Resolved> {
    if answer.Raised? then None
    else
      var first := if answer.Given? then answer.value else FallbackSelection(interpretation);
      var downgraded := first.agent == Dispute && !interpretation.requestsDispute;
      var escalated := first.agent == Explanation && interpretation.asksToAct;
      Some(Resolved(
        if downgraded || escalated then first.(agent := Suspicious, intent := "suspicious_activity") else first,
        downgraded, escalated, answer.Absent?))
  }

  /** select_specialist as the node runs it, reassigning the selection. */
  method SelectSpecialist(interpretation: Interpretation, answer: Answer<Selection>) returns (result: Option<Resolved>)
    ensures result == Resolve(interpretation, answer)
    ensures result.Some? <==> !answer.Raised?
    ensures result.Some? && result.value.selection.agent == Dispute ==> interpretation.requestsDispute
    ensures result.Some? && interpretation.asksToAct ==> result.value.selection.agent != Explanation
    ensures result.Some? && answer.Given? && result.value.selection.agent != answer.value.agent
            ==> result.value.selection.agent == Suspicious && result.value.downgraded != result.value.escalated
    ensures answer.Given? && !(answer.value.agent == Dispute && !interpretation.requestsDispute)
            && !(answer.value.agent == Explanation && interpretation.asksToAct)
            ==> result == Some(Resolved(answer.value, false, false, false))
    ensures answer.Given? && answer.value.agent == Dispute && !interpretation.requestsDispute
            ==> result == Some(Resolved(Selection(Suspicious, "suspicious_activity", answer.value.riskLevel, answer.value.summary),
                                        true, false, false))
    ensures answer.Given? && answer.value.agent == Explanation && interpretation.asksToAct
            ==> result == Some(Resolved(Selection(Suspicious, "suspicious_activity", answer.value.riskLevel, answer.value.summary),
                                        false, true, false))
    ensures answer.Absent? ==>
              && result.Some? && result.value.usedFallback && !result.value.downgraded && !result.value.escalated
              && (result.value.selection.agent == Dispute <==> interpretation.requestsDispute)
              && (result.value.selection.agent == Explanation <==>
                    !interpretation.requestsDispute && !interpretation.reportsUnrecognized && !interpretation.asksToAct)
  {
    if answer.Raised? {
      return None;
    }
    var usedFallback := false;
    var selection: Selection;
    if answer.Absent? {
      usedFallback := true;
      if interpretation.requestsDispute {
        selection := Selection(Dispute, "dispute", "high", LOCAL_SUMMARY);
      } else if interpretation.reportsUnrecognized || interpretation.asksToAct {
        selection := Selection(Suspicious, "suspicious_activity", "high", LOCAL_SUMMARY);
      } else {
        selection := Selection(Explanation, "transaction_explanation", "low", LOCAL_SUMMARY);
      }
    } else {
      selection := answer.value;
    }
    var downgraded := false;
    if selection.agent == Dispute && !interpretation.requestsDispute {
      downgraded := true;
      selection := selection.(agent := Suspicious, intent := "suspicious_activity");
    }
    var escalated := false;
    if selection.agent == Explanation && interpretation.asksToAct {
      escalated := true;
      selection := selection.(agent := Suspicious, intent := "suspicious_activity");
    }
    result := Some(Resolved(selection, downgraded, escalated, usedFallback));
  }

  /** route_on_action_gate. */
  predicate Gates(interpretation: Interpretation, selection: Selection) {
    selection.agent == Dispute || interpretation.asksToAct
  }

  const DOWNGRADE_NOTE := "downgraded"
  const ESCALATE_NOTE := "escalated"

  /** The whole planner graph; None when some node raised. */
  function PlannerGraph(message: string, model: PlannerModel): Option<AgentResult> {
    var interpretation := InterpretRequest(message, model.interpret);
    if interpretation.None? then None
    else
      var resolved := Resolve(interpretation.value, model.select);
      if resolved.None? || model.narrate.Raised? then None
      else
        var selection := resolved.value.selection;
        var gated := Gates(interpretation.value, selection);
        var narrative := if model.narrate.Given? then model.narrate.value else Narrative(
          selection.summary,
          LOCAL_ACTION,
          []);
        Some(AgentResult(
          WORKFLOW_PLANNING, "ok", "1.0",
          Mode(model.interpret.Absent? || resolved.value.usedFallback || model.narrate.Absent?),
          selection.intent,
          if narrative.summary != "" then narrative.summary else selection.summary,
          selection.riskLevel,
          gated,
          narrative.recommendedAction,
          "invoke_specialist",
          Some(SpecialistName(selection.agent)),
          narrative.evidence
          + (if resolved.value.downgraded then [DOWNGRADE_NOTE] else [])
          + (if resolved.value.escalated then [ESCALATE_NOTE] else [])))
  }

  // ---- the shared contact-channel note (model.py) ----

  /** The two context entries the note reads. */
  datatype ChannelContext = ChannelContext(status: Option<string>, channel: Option<string>)

  function ApplyChannelNote(result: AgentResult, context: ChannelContext): AgentResult {
    if result.executionMode != "fallback" then result
    else if context.status != Some("known_unavailable") && context.status != Some("unsupported") then result
    else
      var note :=
        if context.channel.Some? && context.channel.value != ""
        then "Cannot contact you by " + context.channel.value
        else "Cannot use your channel";
      result.(summary := result.summary + " " + note)
  }

  // ---- suspicious_activity.py ----

  const SUSPICIOUS_ACTION_TERMS := ["freeze", "block", "close", "cancel my card", "lock"]

  datatype Signals = Signals(actionRequested: bool, observedFacts: seq<string>)

  // Stand-in for the one fact the node reports without a model.
  const LOCAL_FACT := "reported"

  datatype SuspiciousModel = SuspiciousModel(
    signals: Answer<Signals>,
    severity: Answer<string>,
    narrate: Answer<Narrative>)

  function SuspiciousGraph(message: string, model: SuspiciousModel, context: ChannelContext): Option<AgentResult> {
    if model.signals.Raised? || model.severity.Raised? || model.narrate.Raised? then None
    else
      var keyword := Detect(message, SUSPICIOUS_ACTION_TERMS);
      var acts := keyword || (model.signals.Given? && model.signals.value.actionRequested);
      var facts := if model.signals.Given? then model.signals.value.observedFacts else [LOCAL_FACT];
      var severity := if model.severity.Given? then model.severity.value else "high";
      var narrative := if model.narrate.Given? then model.narrate.value else Narrative(
        LOCAL_SUMMARY, LOCAL_ACTION, []);
      Some(ApplyChannelNote(
        AgentResult(
          RoutingPolicy.SUSPICIOUS_ACTIVITY, "ok", "1.0",
          Mode(model.signals.Absent? || model.severity.Absent? || model.narrate.Absent?),
          "suspicious_activity", narrative.summary, severity, acts, narrative.recommendedAction,
          if acts then "request_approval" else "respond_to_user",
          None, if narrative.evidence != [] then narrative.evidence else facts),
        context))
  }

  // ---- dispute.py ----

  /** The four required facts; a missing one is None or the empty string. */
  datatype Claim = Claim(merchant: Option<string>, amount: Option<string>, date: Option<string>, reason: Option<string>)

  predicate Known(field: Option<string>) {
    field.Some? && field.value != ""
  }

  function MissingFields(claim: Claim): seq<string> {
    (if Known(claim.merchant) then [] else ["merchant"])
    + (if Known(claim.amount) then [] else ["amount"])
    + (if Known(claim.date) then [] else ["transaction_date"])
    + (if Known(claim.reason) then [] else ["reason"])
  }

  datatype Completeness = Completeness(isComplete: bool, missing: seq<string>)

  /** validate_completeness: the model's own verdict is overwritten. */
  function ValidateCompleteness(claim: Claim, answer: Answer<Completeness>): Option<Completeness> {
    var missing := MissingFields(claim);
    match answer
    case Raised => None
    case Absent => Some(Completeness(missing == [], missing))
    case Given(check) => Some(check.(isComplete := missing == [], missing := missing))
  }

  datatype DisputeModel = DisputeModel(
    extract: Answer<Claim>,
    check: Answer<Completeness>,
    assess: Answer<seq<string>>,      // the required evidence
    narrate: Answer<Narrative>)

  function DisputeGraph(model: DisputeModel, context: ChannelContext): Option<AgentResult> {
    if model.extract.Raised? then None
    else
      var claim := if model.extract.Given? then model.extract.value else Claim(None, None, None, None);
      var checked := ValidateCompleteness(claim, model.check);
      if checked.None? then None
      else
        var assessed := checked.value.isComplete;
        if (assessed && model.assess.Raised?) || model.narrate.Raised? then None
        else
          var required := if model.assess.Given? then model.assess.value else ["receipt", "merchant contact"];
          var narrative := if model.narrate.Given? then model.narrate.value else Narrative(
            LOCAL_SUMMARY, LOCAL_ACTION,
            if assessed then required else checked.value.missing);
          Some(ApplyChannelNote(
            AgentResult(
              RoutingPolicy.DISPUTE_PLANNING, "ok", "1.0",
              Mode(model.extract.Absent? || model.check.Absent? || (assessed && model.assess.Absent?) || model.narrate.Absent?),
              if assessed then "dispute" else "dispute_information_required",
              narrative.summary, "high", true, narrative.recommendedAction, "request_approval",
              None, narrative.evidence),
            context))
  }

  // ---- transaction_explanation.py ----

  datatype Reference = Reference(merchant: Option<string>, amount: Option<string>, date: Option<string>, descriptor: Option<string>)

  predicate Identified(reference: Reference) {
    Known(reference.merchant) || Known(reference.amount) || Known(reference.date) || Known(reference.descriptor)
  }

  /** The details that identify the transaction, as lines of evidence. */
  function Details(reference: Reference): seq<string> {
    Detail("merchant", reference.merchant) + Detail("amount", reference.amount)
    + Detail("transaction_date", reference.date) + Detail("descriptor", reference.descriptor)
  }

  function Detail(name: string, value: Option<string>): seq<string> {
    if Known(value) then [name + ": " + value.value] else []
  }

  datatype ExplanationModel = ExplanationModel(
    extract: Answer<Reference>,
    classify: Answer<string>,
    findings: seq<string>,            // toolbox observations; empty when none ran
    narrate: Answer<Narrative>)

  function ExplanationGraph(model: ExplanationModel, context: ChannelContext): Option<AgentResult> {
    if model.extract.Raised? || model.classify.Raised? || model.narrate.Raised? then None
    else
      var identified := model.extract.Given? && Identified(model.extract.value);
      var narrative := if model.narrate.Given? then model.narrate.value else Narrative(
        LOCAL_SUMMARY, LOCAL_ACTION, []);
      Some(ApplyChannelNote(
        AgentResult(
          RoutingPolicy.TRANSACTION_EXPLANATION, "ok", "1.0",
          Mode(model.extract.Absent? || model.classify.Absent? || model.narrate.Absent?),
          if identified then "transaction_explanation" else "transaction_information_required",
          narrative.summary, "low", false, narrative.recommendedAction, "respond_to_user",
          None,
          if !identified then narrative.evidence
          else (if narrative.evidence != [] then narrative.evidence else Details(model.extract.value)) + model.findings),
        context))
  }

  // ---- what holds for every model answer ----

  /** The planner's gate is closed by an action keyword or by a dispute route, and
      nothing the model says opens it again. */
  lemma PlannerGate(message: string, model: PlannerModel)
    requires PlannerGraph(message, model).Some?
    ensures var plan := PlannerGraph(message, model).value;
            && plan.agent == WORKFLOW_PLANNING
            && (AsksForAction(message) ==> plan.requiresApproval)
            && (plan.selectedAgent == Some(RoutingPolicy.DISPUTE_PLANNING) ==> plan.requiresApproval && AsksForDispute(message))
            && (plan.selectedAgent == Some(RoutingPolicy.TRANSACTION_EXPLANATION) ==> !plan.requiresApproval)
            && (exists s: Specialist :: plan.selectedAgent == Some(SpecialistName(s)))
  {
    var interpretation := InterpretRequest(message, model.interpret).value;
    var selection := Resolve(interpretation, model.select).value.selection;
    var plan := PlannerGraph(message, model).value;
    assert plan.selectedAgent == Some(SpecialistName(selection.agent));
    NamesDiffer();
    ActionTermsSpelled(message);
    DisputeTermsSpelled(message);
  }

  lemma NamesDiffer()
    ensures |RoutingPolicy.TRANSACTION_EXPLANATION| == 23
    ensures |RoutingPolicy.SUSPICIOUS_ACTIVITY| == 19
    ensures |RoutingPolicy.DISPUTE_PLANNING| == 16
  {
  }

  /** Suspicious activity asks for approval exactly when a keyword or the model
      reports an action. */
  lemma SuspiciousGate(message: string, model: SuspiciousModel, context: ChannelContext)
    requires SuspiciousGraph(message, model, context).Some?
    ensures SuspiciousGraph(message, model, context).value.requiresApproval
            <==> Detect(message, SUSPICIOUS_ACTION_TERMS) || (model.signals.Given? && model.signals.value.actionRequested)
  {
  }

  /** A dispute always asks for approval, and is assessed exactly when the extracted
      claim carries all four facts, whatever the completeness call answered. */
  lemma DisputeGate(model: DisputeModel, context: ChannelContext)
    requires DisputeGraph(model, context).Some?
    ensures DisputeGraph(model, context).value.requiresApproval
    ensures DisputeGraph(model, context).value.intent == "dispute"
            <==> model.extract.Given? && Known(model.extract.value.merchant) && Known(model.extract.value.amount)
                 && Known(model.extract.value.date) && Known(model.extract.value.reason)
  {
    assert |"dispute"| == 7 && |"dispute_information_required"| == 28;
  }

  /** An explanation never asks for approval, and explains only an identified transaction. */
  lemma ExplanationGate(model: ExplanationModel, context: ChannelContext)
    requires ExplanationGraph(model, context).Some?
    ensures !ExplanationGraph(model, context).value.requiresApproval
    ensures ExplanationGraph(model, context).value.intent == "transaction_explanation"
            <==> model.extract.Given? && Identified(model.extract.value)
  {
    assert |"transaction_explanation"| == 23 && |"transaction_information_required"| == 32;
  }

  // ---- without a model the planner is at least as cautious as the policy ----

  const NO_MODEL := PlannerModel(Absent, Absent, Absent)

  /** A policy term that starts with a planner term is also seen by the planner. */
  lemma TermCovered(message: string, term: string, terms: seq<string>, k: nat)
    requires k < |terms| && |terms[k]| <= |term| && term[..|terms[k]|] == terms[k]
    requires IsLower(term) && ContainsIgnoreCase(message, term)
    ensures Detect(message, terms)
  {
    LowerFixesLower(term);
    assert OccursAt(term, terms[k], 0);
    ContainsTransitive(Lower(message), term, terms[k]);
  }

  lemma DisputeWordDetected(message: string)
    requires ContainsIgnoreCase(message, "dispute") || ContainsIgnoreCase(message, "chargeback")
    ensures Detect(message, PLANNER_DISPUTE_TERMS)
  {
    if ContainsIgnoreCase(message, "dispute") {
      TermCovered(message, "dispute", PLANNER_DISPUTE_TERMS, 0);
    } else {
      TermCovered(message, "chargeback", PLANNER_DISPUTE_TERMS, 1);
    }
  }

  lemma RefundDetected(message: string)
    requires ContainsIgnoreCase(message, "refund this charge")
    ensures Detect(message, PLANNER_DISPUTE_TERMS)
  {
    TermCovered(message, "refund this charge", PLANNER_DISPUTE_TERMS, 6);
  }

  lemma PolicyDisputeDetected(message: string)
    requires ContainsAnyIgnoreCase(message, RoutingPolicy.DISPUTE_TERMS)
    ensures Detect(message, PLANNER_DISPUTE_TERMS)
  {
    var k :| 0 <= k < |RoutingPolicy.DISPUTE_TERMS| && ContainsIgnoreCase(message, RoutingPolicy.DISPUTE_TERMS[k]);
    if k < 2 {
      DisputeWordDetected(message);
    } else {
      RefundDetected(message);
    }
  }

  lemma ReportDetected(message: string)
    requires ContainsIgnoreCase(message, "fraud") || ContainsIgnoreCase(message, "suspicious")
    ensures Detect(message, UNRECOGNIZED_TERMS)
  {
    if ContainsIgnoreCase(message, "fraud") {
      TermCovered(message, "fraud", UNRECOGNIZED_TERMS, 3);
    } else {
      TermCovered(message, "suspicious", UNRECOGNIZED_TERMS, 2);
    }
  }

  lemma DenialDetected(message: string)
    requires ContainsIgnoreCase(message, "not my transaction") || ContainsIgnoreCase(message, "not mine")
    ensures Detect(message, UNRECOGNIZED_TERMS)
  {
    if ContainsIgnoreCase(message, "not my transaction") {
      TermCovered(message, "not my transaction", UNRECOGNIZED_TERMS, 1);
    } else {
      TermCovered(message, "not mine", UNRECOGNIZED_TERMS, 0);
    }
  }

  lemma PolicySuspicionDetected(message: string)
    requires ContainsAnyIgnoreCase(message, RoutingPolicy.SUSPICIOUS_TERMS)
    ensures Detect(message, UNRECOGNIZED_TERMS)
  {
    var k :| 0 <= k < |RoutingPolicy.SUSPICIOUS_TERMS| && ContainsIgnoreCase(message, RoutingPolicy.SUSPICIOUS_TERMS[k]);
    if k < 2 {
      ReportDetected(message);
    } else {
      DenialDetected(message);
    }
  }

  lemma ActionWordDetected(message: string, k: nat)
    requires k < 3 && ContainsIgnoreCase(message, RoutingPolicy.SENSITIVE_ACTION_TERMS[k])
    ensures Detect(message, PLANNER_ACTION_TERMS)
  {
    var term := RoutingPolicy.SENSITIVE_ACTION_TERMS[k];
    assert term == PLANNER_ACTION_TERMS[k];
    assert term[..|term|] == term;
    TermCovered(message, term, PLANNER_ACTION_TERMS, k);
  }

  lemma PolicyActionDetected(message: string)
    requires ContainsAnyIgnoreCase(message, RoutingPolicy.SENSITIVE_ACTION_TERMS)
    ensures Detect(message, PLANNER_ACTION_TERMS)
  {
    var k :| 0 <= k < |RoutingPolicy.SENSITIVE_ACTION_TERMS|
             && ContainsIgnoreCase(message, RoutingPolicy.SENSITIVE_ACTION_TERMS[k]);
    ActionWordDetected(message, k);
  }

  /** With no model at all, the planner graph is never less careful than the policy. */
  lemma FallbackPlannerCoversPolicy(message: string)
    ensures PlannerGraph(message, NO_MODEL).Some?
    ensures var plan := PlannerGraph(message, NO_MODEL).value;
            && (RoutingPolicy.MentionsDispute(message) ==> plan.selectedAgent == Some(RoutingPolicy.DISPUTE_PLANNING))
            && (RoutingPolicy.MentionsSuspicion(message)
                ==> plan.selectedAgent == Some(RoutingPolicy.SUSPICIOUS_ACTIVITY)
                    || plan.selectedAgent == Some(RoutingPolicy.DISPUTE_PLANNING))
            && (RoutingPolicy.MustAsk(message) ==> plan.requiresApproval)
  {
    RoutingPolicy.TermsSpelled(message);
    NamesDiffer();
    if ContainsAnyIgnoreCase(message, RoutingPolicy.DISPUTE_TERMS) {
      PolicyDisputeDetected(message);
    }
    if ContainsAnyIgnoreCase(message, RoutingPolicy.SUSPICIOUS_TERMS) {
      PolicySuspicionDetected(message);
      if ContainsAnyIgnoreCase(message, RoutingPolicy.SENSITIVE_ACTION_TERMS) {
        PolicyActionDetected(message);
      }
    }
  }

  // ---- the planner over the words of the message ----

  predicate AsksForAction(message: string) {
    || ContainsIgnoreCase(message, "freeze")
    || ContainsIgnoreCase(message, "block")
    || ContainsIgnoreCase(message, "close")
    || ContainsIgnoreCase(message, "lock")
    || ContainsIgnoreCase(message, "cancel my card")
    || ContainsIgnoreCase(message, "suspend")
  }

  predicate AsksForDispute(message: string) {
    || ContainsIgnoreCase(message, "dispute")
    || ContainsIgnoreCase(message, "chargeback")
    || ContainsIgnoreCase(message, "charge back")
    || ContainsIgnoreCase(message, "charge-back")
    || ContainsIgnoreCase(message, "reverse")
    || ContainsIgnoreCase(message, "reversal")
    || ContainsIgnoreCase(message, "refund")
    || ContainsIgnoreCase(message, "money back")
  }

  predicate ReportsUnrecognized(message: string) {
    || ContainsIgnoreCase(message, "not mine")
    || ContainsIgnoreCase(message, "not my")
    || ContainsIgnoreCase(message, "suspicious")
    || ContainsIgnoreCase(message, "fraud")
    || ContainsIgnoreCase(message, "don't recognize")
    || ContainsIgnoreCase(message, "do not recognize")
    || ContainsIgnoreCase(message, "unrecognized")
    || ContainsIgnoreCase(message, "unrecognised")
  }

  /** A lower-case term is found in the lowered message exactly when it occurs in any case. */
  lemma TermOccurs(message: string, term: string)
    requires IsLower(term)
    ensures Contains(Lower(message), term) <==> ContainsIgnoreCase(message, term)
  {
    LowerFixesLower(term);
  }

  lemma ActionTermsSpelled(message: string)
    ensures Detect(message, PLANNER_ACTION_TERMS) <==> AsksForAction(message)
  {
    var t := PLANNER_ACTION_TERMS;
    assert t[0] == "freeze" && t[1] == "block" && t[2] == "close" && t[3] == "lock" && t[4] == "cancel my card" && t[5] == "suspend";
    TermOccurs(message, "freeze");
    TermOccurs(message, "block");
    TermOccurs(message, "close");
    TermOccurs(message, "lock");
    TermOccurs(message, "cancel my card");
    TermOccurs(message, "suspend");
  }

  lemma DisputeTermsSpelled(message: string)
    ensures Detect(message, PLANNER_DISPUTE_TERMS) <==> AsksForDispute(message)
  {
    var t := PLANNER_DISPUTE_TERMS;
    assert t[0] == "dispute" && t[1] == "chargeback" && t[2] == "charge back" && t[3] == "charge-back";
    assert t[4] == "reverse" && t[5] == "reversal" && t[6] == "refund" && t[7] == "money back";
    TermOccurs(message, "dispute");
    TermOccurs(message, "chargeback");
    TermOccurs(message, "charge back");
    TermOccurs(message, "charge-back");
    TermOccurs(message, "reverse");
    TermOccurs(message, "reversal");
    TermOccurs(message, "refund");
    TermOccurs(message, "money back");
  }

  lemma UnrecognizedTermsSpelled(message: string)
    ensures Detect(message, UNRECOGNIZED_TERMS) <==> ReportsUnrecognized(message)
  {
    var t := UNRECOGNIZED_TERMS;
    assert t[0] == "not mine" && t[1] == "not my" && t[2] == "suspicious" && t[3] == "fraud";
    assert t[4] == "don't recognize" && t[5] == "do not recognize" && t[6] == "unrecognized" && t[7] == "unrecognised";
    TermOccurs(message, "not mine");
    TermOccurs(message, "not my");
    TermOccurs(message, "suspicious");
    TermOccurs(message, "fraud");
    TermOccurs(message, "don't recognize");
    TermOccurs(message, "do not recognize");
    TermOccurs(message, "unrecognized");
    TermOccurs(message, "unrecognised");
  }

  /** What the planner answers when no model is available, word for word of the message: the
      specialist, its intent and risk, and the gate, each exactly. */
  lemma PlannerWithoutModel(message: string)
    ensures PlannerGraph(message, NO_MODEL).Some?
    ensures var plan := PlannerGraph(message, NO_MODEL).value;
            && (AsksForDispute(message) <==> plan.selectedAgent == Some(RoutingPolicy.DISPUTE_PLANNING))
            && (AsksForDispute(message) ==> plan.intent == "dispute" && plan.riskLevel == "high")
            && (!AsksForDispute(message) && (ReportsUnrecognized(message) || AsksForAction(message))
                <==> plan.selectedAgent == Some(RoutingPolicy.SUSPICIOUS_ACTIVITY))
            && (!AsksForDispute(message) && (ReportsUnrecognized(message) || AsksForAction(message))
                ==> plan.intent == "suspicious_activity" && plan.riskLevel == "high")
            && (!AsksForDispute(message) && !ReportsUnrecognized(message) && !AsksForAction(message)
                <==> plan.selectedAgent == Some(RoutingPolicy.TRANSACTION_EXPLANATION))
            && (!AsksForDispute(message) && !ReportsUnrecognized(message) && !AsksForAction(message)
                ==> plan.intent == "transaction_explanation" && plan.riskLevel == "low")
            && (plan.requiresApproval <==> AsksForDispute(message) || AsksForAction(message))
            && plan.executionMode == "fallback"
  {
    ActionTermsSpelled(message);
    DisputeTermsSpelled(message);
    UnrecognizedTermsSpelled(message);
    NamesDiffer();
  }

  /** The planner with a model: the action flag needs a word or the model, a dispute needs
      both, an answer that breaks neither rule is kept, and one that breaks a rule becomes
      suspicious activity with its risk and summary kept. */
  lemma PlannerWithModel(message: string, model: PlannerModel)
    requires model.interpret.Given? && model.select.Given? && !model.narrate.Raised?
    ensures PlannerGraph(message, model).Some?
    ensures var plan := PlannerGraph(message, model).value;
            var acts := AsksForAction(message) || model.interpret.value.asksToAct;
            var disputes := AsksForDispute(message) && model.interpret.value.requestsDispute;
            var chosen := model.select.value;
            var overruled := (chosen.agent == Dispute && !disputes) || (chosen.agent == Explanation && acts);
            && plan.selectedAgent == Some(if overruled then RoutingPolicy.SUSPICIOUS_ACTIVITY else SpecialistName(chosen.agent))
            && plan.intent == (if overruled then "suspicious_activity" else chosen.intent)
            && plan.riskLevel == chosen.riskLevel
            && (plan.requiresApproval <==> acts || (chosen.agent == Dispute && disputes))
            && plan.executionMode == (if model.narrate.Given? then "model" else "fallback")
            && (model.narrate.Given? && model.narrate.value.summary != "" ==> plan.summary == model.narrate.value.summary)
            && (model.narrate.Absent? || model.narrate.value.summary == "" ==> plan.summary == chosen.summary)
            && |plan.evidence| == (if model.narrate.Given? then |model.narrate.value.evidence| else 0) + (if overruled then 1 else 0)
            && plan.agent == "workflow-planning" && plan.status == "ok" && plan.contractVersion == "1.0" && plan.nextStep == "invoke_specialist"
  {
    ActionTermsSpelled(message);
    DisputeTermsSpelled(message);
  }

  /** What the planner reads in a message: an action by a word or by the model, a dispute only
      by both, and an unrecognized charge by the model; without a model the words alone. */
  lemma InterpretMeaning(message: string, answer: Answer<Interpretation>)
    ensures InterpretRequest(message, answer).None? <==> answer.Raised?
    ensures answer.Absent? ==>
              InterpretRequest(message, answer)
                == Some(Interpretation(AsksForAction(message), AsksForDispute(message), ReportsUnrecognized(message)))
    ensures answer.Given? ==>
              var read := InterpretRequest(message, answer).value;
              && (read.asksToAct <==> AsksForAction(message) || answer.value.asksToAct)
              && (read.requestsDispute <==> AsksForDispute(message) && answer.value.requestsDispute)
              && (read.reportsUnrecognized <==> answer.value.reportsUnrecognized)
  {
    ActionTermsSpelled(message);
    DisputeTermsSpelled(message);
    UnrecognizedTermsSpelled(message);
  }

  /** The planner says "model" exactly when the model answered all three of its calls. */
  lemma PlannerMode(message: string, model: PlannerModel)
    requires PlannerGraph(message, model).Some?
    ensures PlannerGraph(message, model).value.executionMode
         == if model.interpret.Given? && model.select.Given? && model.narrate.Given? then "model" else "fallback"
  {
  }

  /** A planner whose model raises at a call it makes gives no answer, and only then. */
  lemma PlannerRaises(message: string, model: PlannerModel)
    ensures PlannerGraph(message, model).None? <==> model.interpret.Raised? || model.select.Raised? || model.narrate.Raised?
  {
  }

  // ---- the specialists' results ----

  /** The note speaks up only in a fallback answer and only for the two statuses that a
      channel cannot be used in; it lengthens the summary and changes nothing else. */
  lemma ChannelNoteMeaning(result: AgentResult, context: ChannelContext)
    ensures var noted := ApplyChannelNote(result, context);
            && noted.(summary := result.summary) == result
            && result.summary <= noted.summary
            && (noted.summary != result.summary <==>
                  result.executionMode == "fallback"
                  && (context.status == Some("known_unavailable") || context.status == Some("unsupported")))
  {
    assert |" "| == 1;
  }

  predicate AsksForProtection(message: string) {
    || ContainsIgnoreCase(message, "freeze")
    || ContainsIgnoreCase(message, "block")
    || ContainsIgnoreCase(message, "close")
    || ContainsIgnoreCase(message, "cancel my card")
    || ContainsIgnoreCase(message, "lock")
  }

  lemma ProtectionTermsSpelled(message: string)
    ensures Detect(message, SUSPICIOUS_ACTION_TERMS) <==> AsksForProtection(message)
  {
    var t := SUSPICIOUS_ACTION_TERMS;
    assert t[0] == "freeze" && t[1] == "block" && t[2] == "close" && t[3] == "cancel my card" && t[4] == "lock";
    TermOccurs(message, "freeze");
    TermOccurs(message, "block");
    TermOccurs(message, "close");
    TermOccurs(message, "cancel my card");
    TermOccurs(message, "lock");
  }

  /** The suspicious-activity answer: a protective word or the model closes the gate, and the
      severity is the model's or high. */
  lemma SuspiciousResult(message: string, model: SuspiciousModel, context: ChannelContext)
    ensures SuspiciousGraph(message, model, context).None?
            <==> model.signals.Raised? || model.severity.Raised? || model.narrate.Raised?
    ensures SuspiciousGraph(message, model, context).Some? ==>
              var result := SuspiciousGraph(message, model, context).value;
              var acts := AsksForProtection(message) || (model.signals.Given? && model.signals.value.actionRequested);
              && result.agent == RoutingPolicy.SUSPICIOUS_ACTIVITY && result.status == "ok" && result.intent == "suspicious_activity"
              && (result.requiresApproval <==> acts)
              && result.nextStep == (if acts then "request_approval" else "respond_to_user")
              && result.riskLevel == (if model.severity.Given? then model.severity.value else "high")
              && result.executionMode
                 == (if model.signals.Given? && model.severity.Given? && model.narrate.Given? then "model" else "fallback")
              && result.selectedAgent == None
              && (model.narrate.Given? ==> result.recommendedAction == model.narrate.value.recommendedAction
                                           && model.narrate.value.summary <= result.summary)
              && (model.narrate.Given? && model.narrate.value.evidence != [] ==> result.evidence == model.narrate.value.evidence)
              && ((model.narrate.Absent? || model.narrate.value.evidence == []) && model.signals.Given? ==>
                    result.evidence == model.signals.value.observedFacts)
  {
    ProtectionTermsSpelled(message);
  }

  /** The dispute answer: always gated, assessed when all four facts are known, and without a
      narrating model its evidence is the missing facts by name or what is required. */
  lemma DisputeResult(model: DisputeModel, context: ChannelContext)
    requires DisputeGraph(model, context).Some?
    ensures var result := DisputeGraph(model, context).value;
            var claim := if model.extract.Given? then model.extract.value else Claim(None, None, None, None);
            var complete := Known(claim.merchant) && Known(claim.amount) && Known(claim.date) && Known(claim.reason);
            && result.agent == RoutingPolicy.DISPUTE_PLANNING && result.status == "ok" && result.riskLevel == "high"
            && result.requiresApproval && result.nextStep == "request_approval" && result.selectedAgent == None
            && result.intent == (if complete then "dispute" else "dispute_information_required")
            && (model.narrate.Given? ==> result.evidence == model.narrate.value.evidence)
            && (model.narrate.Absent? && complete ==>
                  result.evidence == if model.assess.Given? then model.assess.value else ["receipt", "merchant contact"])
            && (model.narrate.Absent? ==>
                  && (!complete ==> forall name :: name in result.evidence <==>
                        (name == "merchant" && !Known(claim.merchant)) || (name == "amount" && !Known(claim.amount))
                        || (name == "transaction_date" && !Known(claim.date)) || (name == "reason" && !Known(claim.reason))))
            && result.executionMode
               == (if model.extract.Given? && model.check.Given? && (complete ==> model.assess.Given?) && model.narrate.Given?
                   then "model" else "fallback")
  {
  }

  /** An agent gives no answer exactly when the model raises at a call it makes; the dispute
      agent asks about evidence only when all four facts are known. */
  lemma SpecialistsRaise(dispute: DisputeModel, explanation: ExplanationModel, context: ChannelContext)
    ensures var claim := if dispute.extract.Given? then dispute.extract.value else Claim(None, None, None, None);
            var complete := Known(claim.merchant) && Known(claim.amount) && Known(claim.date) && Known(claim.reason);
            DisputeGraph(dispute, context).None?
            <==> dispute.extract.Raised? || dispute.check.Raised? || (complete && dispute.assess.Raised?) || dispute.narrate.Raised?
    ensures ExplanationGraph(explanation, context).None?
            <==> explanation.extract.Raised? || explanation.classify.Raised? || explanation.narrate.Raised?
  {
  }

  /** One line for each known detail, under its name. */
  lemma DetailsMeaning(reference: Reference, line: string)
    ensures line in Details(reference) <==>
              || (Known(reference.merchant) && line == "merchant: " + reference.merchant.value)
              || (Known(reference.amount) && line == "amount: " + reference.amount.value)
              || (Known(reference.date) && line == "transaction_date: " + reference.date.value)
              || (Known(reference.descriptor) && line == "descriptor: " + reference.descriptor.value)
  {
    assert "merchant" + ": " == "merchant: " && "amount" + ": " == "amount: ";
    assert "transaction_date" + ": " == "transaction_date: " && "descriptor" + ": " == "descriptor: ";
  }

  /** The explanation: never gated, low risk, and the toolbox findings are reported only for
      an identified transaction. */
  lemma ExplanationResult(model: ExplanationModel, context: ChannelContext)
    requires ExplanationGraph(model, context).Some?
    ensures var result := ExplanationGraph(model, context).value;
            var known := model.extract.Given?
                         && (Known(model.extract.value.merchant) || Known(model.extract.value.amount)
                             || Known(model.extract.value.date) || Known(model.extract.value.descriptor));
            && result.agent == RoutingPolicy.TRANSACTION_EXPLANATION && result.status == "ok" && result.riskLevel == "low"
            && !result.requiresApproval && result.nextStep == "respond_to_user" && result.selectedAgent == None
            && result.intent == (if known then "transaction_explanation" else "transaction_information_required")
            && (model.narrate.Given? && (!known || model.narrate.value.evidence != []) ==>
                  result.evidence == model.narrate.value.evidence + (if known then model.findings else []))
            && (known && (model.narrate.Absent? || model.narrate.value.evidence == []) ==>
                  result.evidence == Details(model.extract.value) + model.findings)
            && result.executionMode
               == (if model.extract.Given? && model.classify.Given? && model.narrate.Given? then "model" else "fallback")
  {
  }
}
