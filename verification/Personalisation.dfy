/** What the customer's recalled preferences, and what the deployment can do about the
    contact channel they name, can and cannot change: two runs of one workflow with the same
    agent answers, and different memories or channels. */
module Personalisation {
  import opened Wrappers
  import opened Text
  import opened Domain
  import opened RoutingPolicy
  import opened Orchestrator
  import opened Service
  import Agents
  import ContactChannel
  import Profile

  // ---- two runs ----

  /** The two worlds give the same answers and differ at most in what the profile recalls
      and which channels are configured. */
  predicate SameAnswers(one: World, other: World) {
    one.(profile := other.profile, channels := other.channels) == other
  }

  predicate IsPersonal(kind: EventKind) {
    kind.ProfileRecalled? || kind.ChannelUnavailable?
  }

  function Strip(kinds: seq<EventKind>): seq<EventKind> {
    if kinds == [] then []
    else Strip(kinds[..|kinds| - 1]) + if IsPersonal(kinds[|kinds| - 1]) then [] else [kinds[|kinds| - 1]]
  }

  function Kinds(events: seq<Event>): seq<EventKind> {
    seq(|events|, i requires 0 <= i < |events| => events[i].kind)
  }

  /** Equal in every column but the time of the last write, and in the whole log once its
      times and the two personal event types are removed. */
  predicate Alike(one: Workflow, other: Workflow) {
    && one.row.(updatedAt := 0) == other.row.(updatedAt := 0)
    && Strip(Kinds(one.events)) == Strip(Kinds(other.events))
  }

  /** The run that recalls nothing and has no channel to offer. */
  function Bare(world: World): World {
    world.(profile := Profile.NotConfigured, channels := [])
  }

  predicate Fails(workflow: Workflow, world: World) {
    Execute(workflow, world).None? || Execute(workflow, world).value.failed
  }

  /** The recalled preferences, or the channel they name, hold the cancellation marker. */
  predicate Trips(workflow: Workflow, world: World) {
    var preferences := Profile.Recall(workflow.row.customerId, world.profile);
    || AnyCarries(preferences)
    || TextCarries(ContactChannel.AssessOf(preferences, world.channels, IsLetterOrDigit).channel)
  }

  // ---- the personal events ----

  lemma {:induction false} StripAppend(left: seq<EventKind>, right: seq<EventKind>)
    ensures Strip(left + right) == Strip(left) + Strip(right)
    decreases |right|
  {
    if right == [] {
      assert left + right == left;
    } else {
      assert (left + right)[..|left + right| - 1] == left + right[..|right| - 1];
      StripAppend(left, right[..|right| - 1]);
    }
  }

  lemma StripOne(kind: EventKind)
    ensures Strip([kind]) == if IsPersonal(kind) then [] else [kind]
  {
    assert [kind][..0] == [] && Strip([]) == [];
  }

  lemma PlannedAlike(context: Context)
    ensures Strip(PlannedEvents(context)) == [Planned]
  {
    StripAppend(ProfileEvents(context), [Planned]);
    StripOne(Planned);
    if context.preferences != [] {
      StripOne(ProfileRecalled(context.preferences));
    }
  }

  lemma ChannelVanishes(context: Context)
    ensures Strip(ChannelEvents(context)) == []
  {
    if ChannelEvents(context) != [] {
      StripOne(ChannelUnavailable(context.channel.value.channel));
    }
  }

  lemma RoutedAlike(one: Context, other: Context, planner: AgentDecision, policy: Route, route: Route)
    requires one.fallbackReason == other.fallbackReason
    ensures Strip(RoutedEvents(one, planner, policy, route)) == Strip(RoutedEvents(other, planner, policy, route))
  {
    var head := AuditEvents(planner, policy, one.fallbackReason) + [RouteSelected(route.agent, route.requiresApproval)];
    StripAppend(head, ChannelEvents(one));
    StripAppend(head, ChannelEvents(other));
    ChannelVanishes(one);
    ChannelVanishes(other);
  }

  // ---- the steps ----

  /** The context without what the profile put into it. */
  function Impersonal(context: Context): Context {
    context.(preferences := [], channel := None)
  }

  predicate SameImpersonal(one: Option<Context>, other: Option<Context>) {
    && (one.None? <==> other.None?)
    && (one.Some? ==> Impersonal(one.value) == Impersonal(other.value))
  }

  lemma PlannerAlike(one: Context, other: Context, w: World, v: World)
    requires Impersonal(one) == Impersonal(other) && SameAnswers(w, v)
    ensures SameImpersonal(PlannerStep(one, w), PlannerStep(other, v))
    ensures PlannerStep(one, w).Some? ==> PlannerStep(one, w).value.preferences == one.preferences
  {
  }

  lemma RoutingAlike(one: Context, other: Context, message: string)
    requires Impersonal(one) == Impersonal(other)
    ensures SameImpersonal(RoutingStep(one, message), RoutingStep(other, message))
    ensures RoutingStep(one, message).Some? ==> RoutingStep(one, message).value.preferences == one.preferences
  {
  }

  lemma SpecialistAlike(one: Context, other: Context, w: World, v: World)
    requires Impersonal(one) == Impersonal(other) && SameAnswers(w, v)
    ensures SameImpersonal(SpecialistStep(one, w), SpecialistStep(other, v))
  {
  }

  lemma SpecialistPersonal(one: Context, w: World)
    requires SpecialistStep(one, w).Some?
    ensures SpecialistStep(one, w).value.preferences == one.preferences
    ensures !SpecialistStep(one, w).value.failed && one.plannerDecision.Some? && one.route.Some? ==>
              SpecialistStep(one, w).value.channel == Some(ContactChannel.AssessOf(one.preferences, w.channels, IsLetterOrDigit))
  {
  }

  lemma TerminalAlike(one: Context, other: Context)
    requires Impersonal(one) == Impersonal(other)
    ensures Impersonal(TerminalStep(one)) == Impersonal(TerminalStep(other))
  {
  }

  function Recalled(workflow: Workflow, world: World): Context {
    INITIAL_CONTEXT.(preferences := Profile.Recall(workflow.row.customerId, world.profile))
  }

  lemma StepsAlike(workflow: Workflow, one: World, other: World)
    requires SameAnswers(one, other)
    ensures SameImpersonal(Steps(workflow, one), Steps(workflow, other))
  {
    var w, v := Recalled(workflow, one), Recalled(workflow, other);
    PlannerAlike(w, v, one, other);
    var p, q := PlannerStep(w, one), PlannerStep(v, other);
    if p.Some? {
      RoutingAlike(p.value, q.value, workflow.row.userMessage);
      var r, s := RoutingStep(p.value, workflow.row.userMessage), RoutingStep(q.value, workflow.row.userMessage);
      if r.Some? {
        SpecialistAlike(r.value, s.value, one, other);
        var t, u := SpecialistStep(r.value, one), SpecialistStep(s.value, other);
        if t.Some? {
          TerminalAlike(t.value, u.value);
        }
      }
    }
  }

  /** In a run whose steps succeed, the personal part of the context is what Trips reads. */
  lemma StepsPersonal(workflow: Workflow, world: World)
    requires Steps(workflow, world).Some? && !Steps(workflow, world).value.failed
    ensures PersonalCarries(Steps(workflow, world).value) <==> Trips(workflow, world)
  {
    var message := workflow.row.userMessage;
    var start := Recalled(workflow, world);
    PlannerAlike(start, start, world, world);
    var planned := PlannerStep(start, world).value;
    RoutingAlike(planned, planned, message);
    var routed := RoutingStep(planned, message).value;
    SpecialistPersonal(routed, world);
    PlannerStepFacts(start, world);
    RoutingStepFacts(planned, message);
    var answered := SpecialistStep(routed, world).value;
    assert Steps(workflow, world).value == TerminalStep(answered);
  }

  lemma BareNeverTrips(workflow: Workflow, world: World)
    ensures !Trips(workflow, Bare(world))
  {
    assert Profile.Recall(workflow.row.customerId, Profile.NotConfigured) == [];
    assert ContactChannel.AssessOf([], [], IsLetterOrDigit).channel == None;
  }

  /** Why a run fails, in terms of its steps. */
  lemma FailsAsSteps(workflow: Workflow, world: World)
    ensures var steps := Steps(workflow, world);
            Fails(workflow, world)
            <==> (world.cancelled || steps.None? || steps.value.failed
                  || BaseCarries(workflow, steps.value) || Trips(workflow, world))
  {
    if !world.cancelled && Steps(workflow, world).Some? && !Steps(workflow, world).value.failed {
      StepsPersonal(workflow, world);
    }
  }

  // ---- when a run fails, read off its inputs ----

  /** The planner's answer, if it is one the orchestrator accepts. */
  function PlannerRead(world: World): Option<AgentDecision> {
    match Invoke(world.fault, world.planner)
    case Got(result) => TryRead(result, Agents.WORKFLOW_PLANNING)
    case _ => None
  }

  /** The specialist the router picks for an accepted planner answer. */
  function RoutedAgent(message: string, planner: AgentDecision): string
    requires Decide(message).Some?
  {
    if FallbackReason(planner.selectedAgent).None? then NormalizeSpecialist(planner.selectedAgent).value
    else Decide(message).value.agent
  }

  /** The answer of that specialist, if it is one the orchestrator accepts. */
  function SpecialistRead(workflow: Workflow, world: World): Option<AgentDecision>
    requires PlannerRead(world).Some? && Decide(workflow.row.userMessage).Some?
  {
    match Invoke(world.fault, world.specialist)
    case Got(result) => TryRead(result, RoutedAgent(workflow.row.userMessage, PlannerRead(world).value))
    case _ => None
  }

  predicate AnswersAccepted(workflow: Workflow, world: World) {
    PlannerRead(world).Some? && Decide(workflow.row.userMessage).Some? && SpecialistRead(workflow, world).Some?
  }

  /** The marker in the workflow itself or in an agent's answer. */
  predicate InputCarries(workflow: Workflow, world: World) {
    || Contains(workflow.row.userMessage, MARKER)
    || TextCarries(workflow.row.customerId)
    || TextCarries(workflow.row.lastErrorCode)
    || (exists k | 0 <= k < |workflow.events| :: EventCarries(workflow.events[k].kind))
    || (Invoke(world.fault, world.planner).Got? && ResultCarries(Some(Invoke(world.fault, world.planner).result)))
    || (Invoke(world.fault, world.specialist).Got? && ResultCarries(Some(Invoke(world.fault, world.specialist).result)))
  }

  /** What fails a run whatever is recalled: the caller's cancellation, a blank message, an
      agent's answer that is missing or refused, or the marker outside the preferences. */
  predicate Fruitless(workflow: Workflow, world: World) {
    world.cancelled || !AnswersAccepted(workflow, world) || InputCarries(workflow, world)
  }

  lemma PlannerAtInputs(context: Context, world: World)
    requires !context.failed && context.plannerDecision.None?
    ensures var next := PlannerStep(context, world);
            && ((next.Some? && !next.value.failed) <==> PlannerRead(world).Some?)
            && (PlannerRead(world).Some? ==>
                  && next.value.plannerDecision == PlannerRead(world)
                  && next.value.plannerResult == Some(Invoke(world.fault, world.planner).result)
                  && next.value.requiresApproval == PlannerRead(world).value.requiresApproval)
  {
  }

  lemma RoutingAtInputs(context: Context, message: string)
    requires !context.failed && context.plannerDecision.Some?
    ensures var next := RoutingStep(context, message);
            && (next.Some? <==> Decide(message).Some?)
            && (next.Some? ==>
                  && !next.value.failed && next.value.plannerDecision == context.plannerDecision
                  && next.value.plannerResult == context.plannerResult
                  && next.value.route.Some?
                  && next.value.route.value.agent == RoutedAgent(message, context.plannerDecision.value)
                  && Supported(next.value.route.value.agent))
  {
  }

  lemma SpecialistAtInputs(context: Context, world: World)
    requires !context.failed && context.plannerDecision.Some? && context.route.Some? && Supported(context.route.value.agent)
    ensures var next := SpecialistStep(context, world);
            var answer := Invoke(world.fault, world.specialist);
            && ((next.Some? && !next.value.failed) <==> (answer.Got? && TryRead(answer.result, context.route.value.agent).Some?))
            && (next.Some? && !next.value.failed ==>
                  next.value.plannerResult == context.plannerResult && next.value.specialistResult == Some(answer.result))
  {
  }

  /** A failed context passes through the remaining steps. */
  lemma FailurePasses(context: Context, message: string, world: World)
    requires context.failed
    ensures RoutingStep(context, message) == Some(context) && SpecialistStep(context, world) == Some(context)
    ensures TerminalStep(context) == context
  {
  }

  /** The steps succeed exactly when both agents' answers are accepted. */
  lemma StepsAtInputs(workflow: Workflow, world: World)
    ensures var steps := Steps(workflow, world);
            && ((steps.Some? && !steps.value.failed) <==> AnswersAccepted(workflow, world))
            && (AnswersAccepted(workflow, world) ==>
                  && steps.value.plannerResult == Some(Invoke(world.fault, world.planner).result)
                  && steps.value.specialistResult == Some(Invoke(world.fault, world.specialist).result))
  {
    var message := workflow.row.userMessage;
    var start := Recalled(workflow, world);
    PlannerAtInputs(start, world);
    if PlannerRead(world).Some? {
      var planned := PlannerStep(start, world).value;
      RoutingAtInputs(planned, message);
      if Decide(message).Some? {
        var routed := RoutingStep(planned, message).value;
        SpecialistAtInputs(routed, world);
      }
    } else if PlannerStep(start, world).Some? {
      FailurePasses(PlannerStep(start, world).value, message, world);
    }
  }

  /** A run fails exactly when its inputs already fail it, or what is recalled trips the scan. */
  lemma FailsAtInputs(workflow: Workflow, world: World)
    ensures Fails(workflow, world) <==> Fruitless(workflow, world) || Trips(workflow, world)
  {
    FailsAsSteps(workflow, world);
    StepsAtInputs(workflow, world);
    if AnswersAccepted(workflow, world) {
      CarriesAtInputs(workflow, world, Steps(workflow, world).value);
    }
  }

  lemma CarriesAtInputs(workflow: Workflow, world: World, context: Context)
    requires Invoke(world.fault, world.planner).Got? && Invoke(world.fault, world.specialist).Got?
    requires context.plannerResult == Some(Invoke(world.fault, world.planner).result)
    requires context.specialistResult == Some(Invoke(world.fault, world.specialist).result)
    ensures BaseCarries(workflow, context) <==> InputCarries(workflow, world)
  {
  }

  /** A run fails exactly when it would fail with no memory at all, or trips. */
  lemma FailsExactly(workflow: Workflow, world: World)
    ensures Fails(workflow, world) <==> Fails(workflow, Bare(world)) || Trips(workflow, world)
    ensures Fails(workflow, Bare(world)) <==> Fruitless(workflow, world)
  {
    FailsAtInputs(workflow, world);
    FailsAtInputs(workflow, Bare(world));
    BareNeverTrips(workflow, world);
    SameInputs(workflow, world, Bare(world));
  }

  lemma SameInputs(workflow: Workflow, one: World, other: World)
    requires SameAnswers(one, other)
    ensures Fruitless(workflow, one) <==> Fruitless(workflow, other)
  {
    assert one.cancelled == other.cancelled && one.fault == other.fault;
    assert one.planner == other.planner && one.specialist == other.specialist;
  }

  // ---- the writes ----

  predicate AlikeWrites(one: Write, other: Write) {
    && Strip(one.events) == Strip(other.events)
    && (one.Advance? <==> other.Advance?) && (one.Fail? <==> other.Fail?)
    && (one.Finish? ==> one.intent == other.intent && one.requiresApproval == other.requiresApproval)
  }

  /** A failed run makes one write, which fails the workflow. */
  lemma FailedWrites(workflow: Workflow, world: World)
    requires Fails(workflow, world)
    ensures var writes := RoutingWrites(workflow, world);
            && |writes| == 1 && writes[0].Fail? && Strip(writes[0].events) == []
            && forall k | 0 <= k < |writes[0].events| :: writes[0].events[k].ProfileRecalled?
  {
    if Execute(workflow, world).Some? {
      var context := Execute(workflow, world).value.context;
      if context.preferences != [] {
        StripOne(ProfileRecalled(context.preferences));
      }
    }
  }

  predicate Ended(context: Context) {
    context.plannerDecision.Some? && context.policyRoute.Some? && context.route.Some?
  }

  /** The three writes of a run that reached its end. */
  function EndedWrites(context: Context): seq<Write>
    requires Ended(context)
  {
    [Advance(PlannedEvents(context)),
     Advance(RoutedEvents(context, context.plannerDecision.value, context.policyRoute.value, context.route.value)),
     Finish([SpecialistInvoked], context.finalIntent, context.finalRequiresApproval || context.route.value.requiresApproval)]
  }

  lemma CoherentShape(message: string, context: Context)
    requires Coherent(message, context)
    ensures Ended(context) && WritesOf(message, context) == EndedWrites(context)
  {
    LowerNames();
  }

  /** What the writes of an ended run read of the context, besides its personal part. */
  predicate SameDecisions(c: Context, d: Context) {
    && c.fallbackReason == d.fallbackReason
    && c.plannerDecision == d.plannerDecision
    && c.policyRoute == d.policyRoute
    && c.route == d.route
    && c.finalIntent == d.finalIntent
    && c.finalRequiresApproval == d.finalRequiresApproval
  }

  lemma ImpersonalDecides(c: Context, d: Context)
    requires Impersonal(c) == Impersonal(d)
    ensures SameDecisions(c, d)
  {
    assert SameDecisions(c, Impersonal(c)) && SameDecisions(d, Impersonal(d));
  }

  lemma ThreeAlike(w0: Write, w1: Write, w2: Write, v0: Write, v1: Write, v2: Write)
    requires AlikeWrites(w0, v0) && AlikeWrites(w1, v1) && AlikeWrites(w2, v2)
    ensures forall k | 0 <= k < 3 :: AlikeWrites([w0, w1, w2][k], [v0, v1, v2][k])
  {
  }

  lemma EndedAlike(c: Context, d: Context)
    requires Ended(c) && Ended(d) && SameDecisions(c, d)
    ensures forall k | 0 <= k < 3 :: AlikeWrites(EndedWrites(c)[k], EndedWrites(d)[k])
  {
    var planner, policy, route := c.plannerDecision.value, c.policyRoute.value, c.route.value;
    var planned, routed := PlannedEvents(c), RoutedEvents(c, planner, policy, route);
    var planned', routed' := PlannedEvents(d), RoutedEvents(d, planner, policy, route);
    var finish := Finish([SpecialistInvoked], c.finalIntent, c.finalRequiresApproval || route.requiresApproval);
    PlannedAlike(c);
    PlannedAlike(d);
    RoutedAlike(c, d, planner, policy, route);
    ThreeAlike(Advance(planned), Advance(routed), finish, Advance(planned'), Advance(routed'), finish);
  }

  /** The writes of a run that does not fail. */
  lemma SucceededShape(workflow: Workflow, world: World)
    requires !Fails(workflow, world)
    ensures Steps(workflow, world).Some? && Ended(Steps(workflow, world).value)
    ensures RoutingWrites(workflow, world) == EndedWrites(Steps(workflow, world).value)
  {
    StepsCoherent(workflow, world);
    CoherentShape(workflow.row.userMessage, Steps(workflow, world).value);
  }

  lemma SucceededWrites(workflow: Workflow, one: World, other: World)
    requires SameAnswers(one, other) && !Fails(workflow, one) && !Fails(workflow, other)
    ensures var ws, vs := RoutingWrites(workflow, one), RoutingWrites(workflow, other);
            && |ws| == |vs| == 3
            && forall k | 0 <= k < 3 :: AlikeWrites(ws[k], vs[k])
  {
    StepsAlike(workflow, one, other);
    SucceededShape(workflow, one);
    SucceededShape(workflow, other);
    ImpersonalDecides(Steps(workflow, one).value, Steps(workflow, other).value);
    EndedAlike(Steps(workflow, one).value, Steps(workflow, other).value);
  }

  // ---- the persisted states ----

  lemma NextAlike(a: Workflow, b: Workflow, w: Write, v: Write, s: int, t: int)
    requires Alike(a, b) && AlikeWrites(w, v)
    ensures Alike(NextState(a, w, s), NextState(b, v, t))
  {
    StripNext(a, w, s);
    StripNext(b, v, t);
  }

  lemma StripNext(a: Workflow, w: Write, s: int)
    ensures Strip(Kinds(NextState(a, w, s).events)) == Strip(Kinds(a.events)) + Strip(w.events) + Strip(ClosingEvents(w))
  {
    assert Kinds(NextState(a, w, s).events) == Kinds(a.events) + (w.events + ClosingEvents(w));
    StripAppend(Kinds(a.events), w.events + ClosingEvents(w));
    StripAppend(w.events, ClosingEvents(w));
  }

  lemma {:induction false} PersistAlike(a: Workflow, b: Workflow, ws: seq<Write>, vs: seq<Write>, ss: seq<int>, ts: seq<int>)
    requires Alike(a, b) && |ws| == |vs| <= |ss| && |ws| <= |ts|
    requires forall k | 0 <= k < |ws| :: AlikeWrites(ws[k], vs[k])
    ensures Alike(Persist(a, ws, ss), Persist(b, vs, ts))
    decreases |ws|
  {
    if ws != [] {
      NextAlike(a, b, ws[0], vs[0], ss[0], ts[0]);
      PersistAlike(NextState(a, ws[0], ss[0]), NextState(b, vs[0], ts[0]), ws[1..], vs[1..], ss[1..], ts[1..]);
    }
  }

  lemma {:induction false} PersistVersion(a: Workflow, ws: seq<Write>, ss: seq<int>)
    requires |ws| <= |ss|
    ensures Persist(a, ws, ss).row.version == a.row.version + |ws|
    decreases |ws|
  {
    if ws != [] {
      PersistVersion(NextState(a, ws[0], ss[0]), ws[1..], ss[1..]);
    }
  }

  /** Whatever two memories recall and two configurations offer, the two runs leave the same
      route, gate, status, intent and impersonal log if and only if both trip the marker
      scan, or neither does, or the run is fruitless whatever is recalled. */
  lemma NonInterference(workflow: Workflow, one: World, other: World, ss: seq<int>, ts: seq<int>)
    requires SameAnswers(one, other)
    requires |RoutingWrites(workflow, one)| <= |ss| && |RoutingWrites(workflow, other)| <= |ts|
    ensures Alike(Persist(workflow, RoutingWrites(workflow, one), ss), Persist(workflow, RoutingWrites(workflow, other), ts))
            <==> ((Trips(workflow, one) <==> Trips(workflow, other)) || Fruitless(workflow, one))
  {
    FailsAtInputs(workflow, one);
    FailsAtInputs(workflow, other);
    SameInputs(workflow, one, other);
    if Fails(workflow, one) == Fails(workflow, other) {
      SameFate(workflow, one, other, ss, ts);
    } else if Fails(workflow, one) {
      OtherFate(workflow, one, other, ss, ts);
    } else {
      OtherFate(workflow, other, one, ts, ss);
    }
  }

  lemma SameFate(workflow: Workflow, one: World, other: World, ss: seq<int>, ts: seq<int>)
    requires SameAnswers(one, other) && (Fails(workflow, one) <==> Fails(workflow, other))
    requires |RoutingWrites(workflow, one)| <= |ss| && |RoutingWrites(workflow, other)| <= |ts|
    ensures Alike(Persist(workflow, RoutingWrites(workflow, one), ss), Persist(workflow, RoutingWrites(workflow, other), ts))
  {
    var ws, vs := RoutingWrites(workflow, one), RoutingWrites(workflow, other);
    if Fails(workflow, one) {
      FailedWrites(workflow, one);
      FailedWrites(workflow, other);
    } else {
      SucceededWrites(workflow, one, other);
    }
    PersistAlike(workflow, workflow, ws, vs, ss, ts);
  }

  lemma OtherFate(workflow: Workflow, one: World, other: World, ss: seq<int>, ts: seq<int>)
    requires Fails(workflow, one) && !Fails(workflow, other)
    requires |RoutingWrites(workflow, one)| <= |ss| && |RoutingWrites(workflow, other)| <= |ts|
    ensures !Alike(Persist(workflow, RoutingWrites(workflow, one), ss), Persist(workflow, RoutingWrites(workflow, other), ts))
    ensures !Alike(Persist(workflow, RoutingWrites(workflow, other), ts), Persist(workflow, RoutingWrites(workflow, one), ss))
  {
    FailedWrites(workflow, one);
    SucceededWrites(workflow, other, other);
    PersistVersion(workflow, RoutingWrites(workflow, one), ss);
    PersistVersion(workflow, RoutingWrites(workflow, other), ts);
  }
}
