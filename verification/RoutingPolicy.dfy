/** The C# keyword policy (src/application/WorkflowRoutingPolicy.cs). */
module RoutingPolicy {
  import opened Wrappers
  import opened Text

  const TRANSACTION_EXPLANATION := "transaction-explanation"
  const SUSPICIOUS_ACTIVITY := "suspicious-activity"
  const DISPUTE_PLANNING := "dispute-planning"

  const DISPUTE_TERMS := ["dispute", "chargeback", "refund this charge"]
  const SUSPICIOUS_TERMS := ["fraud", "suspicious", "not my transaction", "not mine"]
  const SENSITIVE_ACTION_TERMS := ["freeze", "block", "close"]

  datatype Route = Route(agent: string, requiresApproval: bool)

  /** None is the ArgumentException for a blank message. */
  function Decide(message: string): Option<Route> {
    if IsBlank(message) then None
    else if ContainsAnyIgnoreCase(message, DISPUTE_TERMS) then Some(Route(DISPUTE_PLANNING, true))
    else if ContainsAnyIgnoreCase(message, SUSPICIOUS_TERMS) then
      Some(Route(SUSPICIOUS_ACTIVITY, ContainsAnyIgnoreCase(message, SENSITIVE_ACTION_TERMS)))
    else Some(Route(TRANSACTION_EXPLANATION, false))
  }

  /** ApproveAsync's test for opening a support case. */
  predicate IsDispute(message: string) {
    Decide(message).Some? && EqualsIgnoreCase(Decide(message).value.agent, DISPUTE_PLANNING)
  }

  predicate PolicyRequiresApproval(message: string) {
    Decide(message).Some? && Decide(message).value.requiresApproval
  }

  // ---- the policy as its words read ----

  predicate MentionsDispute(message: string) {
    || ContainsIgnoreCase(message, "dispute")
    || ContainsIgnoreCase(message, "chargeback")
    || ContainsIgnoreCase(message, "refund this charge")
  }

  predicate MentionsSuspicion(message: string) {
    || ContainsIgnoreCase(message, "fraud")
    || ContainsIgnoreCase(message, "suspicious")
    || ContainsIgnoreCase(message, "not my transaction")
    || ContainsIgnoreCase(message, "not mine")
  }

  predicate MentionsSensitiveAction(message: string) {
    || ContainsIgnoreCase(message, "freeze")
    || ContainsIgnoreCase(message, "block")
    || ContainsIgnoreCase(message, "close")
  }

  /** A dispute, or a suspicion together with a protective action. */
  predicate MustAsk(message: string) {
    MentionsDispute(message) || (MentionsSuspicion(message) && MentionsSensitiveAction(message))
  }

  lemma TermsSpelled(message: string)
    ensures ContainsAnyIgnoreCase(message, DISPUTE_TERMS) <==> MentionsDispute(message)
    ensures ContainsAnyIgnoreCase(message, SUSPICIOUS_TERMS) <==> MentionsSuspicion(message)
    ensures ContainsAnyIgnoreCase(message, SENSITIVE_ACTION_TERMS) <==> MentionsSensitiveAction(message)
  {
    var d, s, a := DISPUTE_TERMS, SUSPICIOUS_TERMS, SENSITIVE_ACTION_TERMS;
    assert d[0] == "dispute" && d[1] == "chargeback" && d[2] == "refund this charge";
    assert s[0] == "fraud" && s[1] == "suspicious" && s[2] == "not my transaction" && s[3] == "not mine";
    assert a[0] == "freeze" && a[1] == "block" && a[2] == "close";
  }

  lemma AgentNamesDiffer()
    ensures |TRANSACTION_EXPLANATION| == 23 && |SUSPICIOUS_ACTIVITY| == 19 && |DISPUTE_PLANNING| == 16
  {
  }

  /** The policy over the words of the message: who answers it, who must be asked, and that
      only a blank message is refused. */
  lemma DecideMeaning(message: string)
    ensures Decide(message).None? <==> IsBlank(message)
    ensures !IsBlank(message) ==>
              var route := Decide(message).value;
              && (route.agent == DISPUTE_PLANNING <==> MentionsDispute(message))
              && (route.agent == SUSPICIOUS_ACTIVITY <==> !MentionsDispute(message) && MentionsSuspicion(message))
              && (route.agent == TRANSACTION_EXPLANATION <==> !MentionsDispute(message) && !MentionsSuspicion(message))
              && (route.requiresApproval <==> MustAsk(message))
  {
    TermsSpelled(message);
    AgentNamesDiffer();
  }

  function PolicyAgent(message: string): string {
    if MentionsDispute(message) then "dispute-planning"
    else if MentionsSuspicion(message) then "suspicious-activity"
    else "transaction-explanation"
  }

  lemma DecidedByWords(message: string)
    requires !IsBlank(message)
    ensures Decide(message) == Some(Route(PolicyAgent(message), MustAsk(message)))
  {
    TermsSpelled(message);
  }

  lemma BlankMentionsNothing(message: string)
    requires IsBlank(message)
    ensures !MentionsDispute(message) && !MentionsSuspicion(message)
  {
    BlankHoldsNothing(message, "dispute");
    BlankHoldsNothing(message, "chargeback");
    BlankHoldsNothing(message, "refund this charge");
    BlankHoldsNothing(message, "fraud");
    BlankHoldsNothing(message, "suspicious");
    BlankHoldsNothing(message, "not my transaction");
    BlankHoldsNothing(message, "not mine");
  }

  /** Approval is required by the policy exactly on those words, and a case is opened for
      exactly the dispute words. */
  lemma PolicyMeaning(message: string)
    ensures PolicyRequiresApproval(message) <==> MustAsk(message)
    ensures IsDispute(message) <==> MentionsDispute(message)
  {
    DecideMeaning(message);
    if IsBlank(message) {
      BlankMentionsNothing(message);
    } else {
      NamesFoldApart(Decide(message).value.agent);
    }
  }

  lemma NamesFoldApart(agent: string)
    requires agent == TRANSACTION_EXPLANATION || agent == SUSPICIOUS_ACTIVITY || agent == DISPUTE_PLANNING
    ensures EqualsIgnoreCase(agent, DISPUTE_PLANNING) <==> agent == DISPUTE_PLANNING
  {
    AgentNamesDiffer();
    assert |Lower(agent)| == |agent|;
  }
}
