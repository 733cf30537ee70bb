/** A run that a memory, or the name of a channel, fails: the cancellation marker at work on
    a dispute that the policy gates. */
module CancellationMarker {
  import opened Wrappers
  import opened Text
  import opened Domain
  import opened EventTable
  import opened RoutingPolicy
  import opened Orchestrator
  import opened Service
  import opened Store
  import opened Protocol
  import opened Personalisation
  import Agents
  import ContactChannel
  import Json
  import Mcp
  import Profile
  import Scanning
  import Theorems

  // ---- two plain answers ----

  function PlainDocument(agent: string): Json.Value {
    Json.Obj(map["agent" := Json.Str(agent), "status" := Json.Str("ok"), "intent" := Json.Str("i"), "summary" := Json.Str("s")])
  }

  function PlainResult(agent: string): Mcp.ToolResult {
    Mcp.ToolResult("ok", "", Mcp.Document(PlainDocument(agent)), Json.Null, None, "", 1)
  }

  function PlainDecision(agent: string): AgentDecision {
    AgentDecision(Some(agent), Some("ok"), Some("i"), Some("s"), false, None, None, None)
  }

  lemma PlainFields(agent: string)
    ensures var d := PlainDocument(agent);
            && TextField(d, "agent") == Some(agent) && TextField(d, "status") == Some("ok")
            && TextField(d, "intent") == Some("i") && TextField(d, "summary") == Some("s")
            && Json.ValueAt(d, "selected_agent") == Json.ValueAt(d, "contract_version") == Json.ValueAt(d, "execution_mode") == Json.Null
            && Json.Get(d, "requires_approval") == None && Json.ValueAt(d, "evidence") == Json.Null
  {
    assert |"agent"| == 5 && |"status"| == 6 && |"intent"| == 6 && |"summary"| == 7 && |"selected_agent"| == 14;
    assert |"contract_version"| == 16 && |"execution_mode"| == 14 && |"requires_approval"| == 17 && |"evidence"| == 8;
    assert "status"[0] == 's' && "intent"[0] == 'i';
  }

  lemma PlainRead(agent: string)
    ensures TryRead(PlainResult(agent), agent) == Some(PlainDecision(agent))
  {
    PlainFields(agent);
    assert Decode(PlainDocument(agent)) == Some(PlainDecision(agent));
    assert !IsSpace("i"[0]) && !IsSpace("s"[0]);
  }

  lemma ShortIsClean(text: string)
    requires |text| < |MARKER|
    ensures !Contains(text, MARKER)
  {
  }

  lemma PlainIsClean(agent: string)
    requires |agent| < |MARKER|
    ensures !ResultCarries(Some(PlainResult(agent)))
  {
    assert |MARKER| == 26;
    var fields := PlainDocument(agent).fields;
    forall name | name in fields
      ensures !Contains(name, MARKER) && !Carries(fields[name])
    {
      assert name == "agent" || name == "status" || name == "intent" || name == "summary";
      ShortIsClean(name);
      assert fields[name].Str? && |fields[name].s| < 26;
      ShortIsClean(fields[name].s);
    }
  }

  // ---- the workflow ----

  /** A dispute of customer c, started at 0 and claimed by the immediate trigger at 1. */
  const DRAFT_DISPUTE := NewDraft(0, "dispute", Some("c"), None, 0)

  const CLAIMED_DISPUTE := Workflow(
    Row(0, "dispute", Some("c"), 0, Recovering, None, false, None, None, 1, 1, 0, None, None),
    [Event(Started, 0), Event(RecoveryClaimed, 1)])

  const DRAFT_STATE := State(MapToEntity(DRAFT_DISPUTE), map[], History({}, {}, {}, []))

  lemma DraftIsInitial()
    ensures Initial(DRAFT_STATE) && MapToDomain(DRAFT_STATE.stored) == DRAFT_DISPUTE && Scanning.ValidStored(DRAFT_STATE.stored)
  {
    MappingRoundTrip(DRAFT_DISPUTE);
    ToTableDense(DRAFT_DISPUTE.events);
  }

  lemma TriggerClaims(config: Config)
    ensures ActClaiming(config, DRAFT_STATE.stored, Claiming(DRAFT_DISPUTE, 1, false)).0
         == CommitClaim(DRAFT_STATE.stored, DRAFT_DISPUTE, 1, false, config.options).stored
    ensures MapToDomain(ActClaiming(config, DRAFT_STATE.stored, Claiming(DRAFT_DISPUTE, 1, false)).0) == CLAIMED_DISPUTE
  {
    DraftIsInitial();
    Scanning.CurrentClaim(DRAFT_STATE.stored, 1, false, config.options);
    assert DRAFT_DISPUTE.events + [Event(RecoveryClaimed, 1)] == CLAIMED_DISPUTE.events;
  }

  /** The store holds it: from the new Draft the trigger's two steps lead there. */
  lemma ClaimedDisputeIsReached(config: Config)
    ensures var moves := [Move(0, Trigger(1)), Move(0, Proceed(1))];
            && Initial(DRAFT_STATE) && Legal(config, DRAFT_STATE, moves)
            && MapToDomain(Run(config, DRAFT_STATE, moves).stored) == CLAIMED_DISPUTE
  {
    DraftIsInitial();
    TriggerClaims(config);
    Theorems.RunOfTwo(config, DRAFT_STATE, Move(0, Trigger(1)), Move(0, Proceed(1)));
    var seen := Step(config, DRAFT_STATE, 0, Trigger(1));
    assert Act(config, DRAFT_STATE.stored, Idle, Trigger(1)) == (DRAFT_STATE.stored, Claiming(DRAFT_DISPUTE, 1, false));
    assert seen.stored == DRAFT_STATE.stored && ActorAt(seen, 0) == Claiming(DRAFT_DISPUTE, 1, false);
  }

  function DisputeWorld(profile: Profile.ProfileAnswer, channels: seq<ContactChannel.ChannelDefinition>): World {
    World(false, NoFault, profile, Got(PlainResult(Agents.WORKFLOW_PLANNING)), Got(PlainResult(DISPUTE_PLANNING)), channels)
  }

  lemma DisputePolicy()
    ensures Decide("dispute") == Some(Route(DISPUTE_PLANNING, true))
  {
    assert !IsSpace("dispute"[0]);
    assert OccursAt(Lower("dispute"), Lower("dispute"), 0);
    assert DISPUTE_TERMS[0] == "dispute";
  }

  lemma DisputeIsAnswered(profile: Profile.ProfileAnswer, channels: seq<ContactChannel.ChannelDefinition>)
    ensures AnswersAccepted(CLAIMED_DISPUTE, DisputeWorld(profile, channels))
  {
    PlainRead(Agents.WORKFLOW_PLANNING);
    PlainRead(DISPUTE_PLANNING);
    DisputePolicy();
    assert FallbackReason(PlainDecision(Agents.WORKFLOW_PLANNING).selectedAgent) == Some("missing_selected_agent");
  }

  /** Neither event of the claimed dispute carries the marker. */
  lemma ClaimedDisputeIsClean()
    ensures forall k | 0 <= k < |CLAIMED_DISPUTE.events| :: !EventCarries(CLAIMED_DISPUTE.events[k].kind)
    ensures !Contains("dispute", MARKER) && !Contains("c", MARKER)
  {
    assert |MARKER| == 26;
    ShortIsClean("dispute");
    ShortIsClean("c");
  }

  lemma DisputeIsFruitful(profile: Profile.ProfileAnswer, channels: seq<ContactChannel.ChannelDefinition>)
    ensures !Fruitless(CLAIMED_DISPUTE, DisputeWorld(profile, channels))
  {
    DisputeIsAnswered(profile, channels);
    ClaimedDisputeIsClean();
    assert |MARKER| == 26;
    PlainIsClean(Agents.WORKFLOW_PLANNING);
    PlainIsClean(DISPUTE_PLANNING);
  }

  // ---- what the two kinds of run leave ----

  predicate NoRouteLogged(workflow: Workflow) {
    forall k | 0 <= k < |workflow.events| :: !workflow.events[k].kind.RouteSelected?
  }

  /** The dispute that is gated: it waits for a person and its route is in the log. */
  predicate WaitsOnDispute(workflow: Workflow) {
    && workflow.row.status == WaitingForApproval && workflow.row.requiresApproval
    && exists k | 0 <= k < |workflow.events| :: workflow.events[k].kind == RouteSelected(DISPUTE_PLANNING, true)
  }

  /** The dispute that is lost: failed, with no gate and no route. */
  predicate FailsUnrouted(workflow: Workflow) {
    workflow.row.status == Failed && !workflow.row.requiresApproval && NoRouteLogged(workflow)
  }

  lemma UntrippedWaits(profile: Profile.ProfileAnswer, channels: seq<ContactChannel.ChannelDefinition>, times: seq<int>)
    requires !Trips(CLAIMED_DISPUTE, DisputeWorld(profile, channels))
    requires |times| >= 3
    ensures |RoutingWrites(CLAIMED_DISPUTE, DisputeWorld(profile, channels))| == 3
    ensures WaitsOnDispute(Persist(CLAIMED_DISPUTE, RoutingWrites(CLAIMED_DISPUTE, DisputeWorld(profile, channels)), times))
  {
    var world := DisputeWorld(profile, channels);
    DisputeIsFruitful(profile, channels);
    FailsAtInputs(CLAIMED_DISPUTE, world);
    SucceededShape(CLAIMED_DISPUTE, world);
    StepsAtInputs(CLAIMED_DISPUTE, world);
    StepsCoherent(CLAIMED_DISPUTE, world);
    DisputeRoute(Steps(CLAIMED_DISPUTE, world).value);
    var writes := RoutingWrites(CLAIMED_DISPUTE, world);
    GatedLog(writes, times, Steps(CLAIMED_DISPUTE, world).value);
  }

  /** The planner named no agent, so the route is the policy's. */
  lemma DisputeRoute(context: Context)
    requires Coherent("dispute", context)
    requires context.plannerResult == Some(PlainResult(Agents.WORKFLOW_PLANNING))
    ensures context.route == Some(Route(DISPUTE_PLANNING, true))
  {
    PlainRead(Agents.WORKFLOW_PLANNING);
    DisputePolicy();
  }

  lemma GatedLog(writes: seq<Write>, times: seq<int>, context: Context)
    requires Ended(context) && writes == EndedWrites(context) && |times| >= 3
    requires context.route == Some(Route(DISPUTE_PLANNING, true))
    ensures WaitsOnDispute(Persist(CLAIMED_DISPUTE, writes, times))
  {
    RouteIsLogged(context, context.plannerDecision.value, context.policyRoute.value, context.route.value);
    var kinds := writes[1].events;
    var at :| 0 <= at < |kinds| && kinds[at] == RouteSelected(DISPUTE_PLANNING, true);
    PersistThree(CLAIMED_DISPUTE, writes, times);
    var first := NextState(CLAIMED_DISPUTE, writes[0], times[0]);
    var second := NextState(first, writes[1], times[1]);
    var third := NextState(second, writes[2], times[2]);
    var k := |first.events| + at;
    assert second.events[k] == NewEvents(writes[1], times[1])[at];
    assert third.events[k] == second.events[k];
  }

  lemma TrippedFails(profile: Profile.ProfileAnswer, channels: seq<ContactChannel.ChannelDefinition>, times: seq<int>)
    requires Trips(CLAIMED_DISPUTE, DisputeWorld(profile, channels))
    requires |times| >= 1
    ensures |RoutingWrites(CLAIMED_DISPUTE, DisputeWorld(profile, channels))| == 1
    ensures FailsUnrouted(Persist(CLAIMED_DISPUTE, RoutingWrites(CLAIMED_DISPUTE, DisputeWorld(profile, channels)), times))
  {
    var world := DisputeWorld(profile, channels);
    FailsAtInputs(CLAIMED_DISPUTE, world);
    FailedWrites(CLAIMED_DISPUTE, world);
    var write := RoutingWrites(CLAIMED_DISPUTE, world)[0];
    assert RoutingWrites(CLAIMED_DISPUTE, world) == [write];
    PersistOne(CLAIMED_DISPUTE, write, times);
    FailedLog(write, times[0]);
  }

  lemma FailedLog(write: Write, now: int)
    requires write.Fail? && forall k | 0 <= k < |write.events| :: write.events[k].ProfileRecalled?
    ensures FailsUnrouted(NextState(CLAIMED_DISPUTE, write, now))
  {
    var more := NewEvents(write, now);
    forall k | 0 <= k < |more|
      ensures !more[k].kind.RouteSelected?
    {
    }
  }

  // ---- the memory ----

  lemma FilterOne<T>(x: T, keep: T -> bool)
    requires keep(x)
    ensures Profile.Filter([x], keep) == [x]
  {
    assert [x][1..] == [];
  }

  /** A single stored preference of the customer's scope is recalled as it was written. */
  lemma OneRecalled(customerId: string, content: string)
    requires customerId != "" && !IsSpace(customerId[0]) && !IsSpace(customerId[|customerId| - 1])
    requires content != "" && !IsSpace(content[0]) && !IsSpace(content[|content| - 1])
    ensures var memory := Profile.Memory(Profile.PROFILE_KIND, content, customerId);
            Profile.Recall(Some(customerId), Profile.Replied(Profile.ProfileReply([], [], [memory], None))) == [content]
  {
    var memory := Profile.Memory(Profile.PROFILE_KIND, content, customerId);
    assert Trim(customerId) == customerId && Trim(content) == content;
    FilterOne(memory, (m: Profile.Memory) => m.scope == Trim(customerId));
    FilterOne(memory, Profile.HasContent);
    FilterOne(memory, Profile.IsProfileEntry);
    assert [memory][1..] == [];
    assert !Profile.Seen([], content) && [] + [content] == [content];
    assert Profile.DistinctTrimmed([], [content]) == [content];
    assert Profile.DistinctTrimmed([memory], []) == Profile.DistinctTrimmed([memory][1..], [content]) == [content];
  }

  /** One stored preference of customer c. */
  function Remembers(content: string): Profile.ProfileAnswer {
    Profile.Replied(Profile.ProfileReply([], [], [Profile.Memory(Profile.PROFILE_KIND, content, "c")], None))
  }

  lemma NothingTripsNothing()
    ensures !Trips(CLAIMED_DISPUTE, DisputeWorld(Profile.NotConfigured, []))
  {
    BareNeverTrips(CLAIMED_DISPUTE, DisputeWorld(Profile.NotConfigured, []));
  }

  lemma MarkerTrips()
    ensures Trips(CLAIMED_DISPUTE, DisputeWorld(Remembers("OperationCanceledException"), []))
  {
    assert |MARKER| == 26 && !IsSpace(MARKER[0]) && !IsSpace(MARKER[25]) && !IsSpace("c"[0]);
    OneRecalled("c", MARKER);
    assert OccursAt(MARKER, MARKER, 0);
    assert [MARKER][0] == MARKER;
  }

  /** A memory that costs a dispute its route and its gate: with nothing recalled it waits
      for a person, routed to dispute planning; with the exception's name as the one stored
      preference the same answers leave it failed, unrouted and with the approval flag off. */
  lemma MarkerFailsTheRun(ss: seq<int>, ts: seq<int>)
    requires |ss| >= 3 && |ts| >= 1
    ensures var plain, poisoned := DisputeWorld(Profile.NotConfigured, []), DisputeWorld(Remembers("OperationCanceledException"), []);
            && SameAnswers(plain, poisoned)
            && |RoutingWrites(CLAIMED_DISPUTE, plain)| == 3 && |RoutingWrites(CLAIMED_DISPUTE, poisoned)| == 1
            && WaitsOnDispute(Persist(CLAIMED_DISPUTE, RoutingWrites(CLAIMED_DISPUTE, plain), ss))
            && FailsUnrouted(Persist(CLAIMED_DISPUTE, RoutingWrites(CLAIMED_DISPUTE, poisoned), ts))
  {
    NothingTripsNothing();
    MarkerTrips();
    UntrippedWaits(Profile.NotConfigured, [], ss);
    TrippedFails(Remembers("OperationCanceledException"), [], ts);
  }

  // ---- the channel ----

  const FAX := ContactChannel.ChannelDefinition("OperationCanceledException", ContactChannel.Supported, ["fax"])

  lemma FaxRecalled()
    ensures Profile.Recall(Some("c"), Remembers("fax")) == ["fax"]
  {
    assert !IsSpace("fax"[0]) && !IsSpace("fax"[2]) && !IsSpace("c"[0]);
    OneRecalled("c", "fax");
  }

  lemma FaxAssessed()
    ensures ContactChannel.AssessOf(["fax"], [FAX], IsLetterOrDigit).channel == Some("OperationCanceledException")
  {
    assert ContactChannel.Normalize("fax") == "fax";
    assert ContactChannel.CleanAt("fax", "fax", 0, IsLetterOrDigit);
    assert ContactChannel.HasWholeTerm("fax", ContactChannel.Normalize(FAX.aliases[0]), IsLetterOrDigit);
    assert !IsBlank("fax") by { assert !IsSpace("fax"[0]); }
    assert ContactChannel.Names("fax", FAX, IsLetterOrDigit);
    assert ContactChannel.IsFirstMatch(["fax"], [FAX], IsLetterOrDigit, 0, 0);
    ContactChannel.FirstMatchDecides(["fax"], [FAX], false, IsLetterOrDigit, 0, 0);
  }

  lemma NoChannelAssessed()
    ensures ContactChannel.AssessOf(["fax"], [], IsLetterOrDigit).channel == None
  {
    assert ["fax"][1..] == [];
  }

  lemma FaxTrips()
    ensures Trips(CLAIMED_DISPUTE, DisputeWorld(Remembers("fax"), [FAX]))
  {
    FaxRecalled();
    FaxAssessed();
    assert OccursAt(MARKER, MARKER, 0);
  }

  lemma FaxAloneDoesNot()
    ensures !Trips(CLAIMED_DISPUTE, DisputeWorld(Remembers("fax"), []))
  {
    FaxRecalled();
    NoChannelAssessed();
    assert |MARKER| == 26;
    ShortIsClean("fax");
  }

  /** A capability that does the same: one stored preference, and a deployment that offers
      the channel it names under an identifier that is the exception's name. */
  lemma CapabilityFailsTheRun(ss: seq<int>, ts: seq<int>)
    requires |ss| >= 3 && |ts| >= 1
    ensures var without, with := DisputeWorld(Remembers("fax"), []), DisputeWorld(Remembers("fax"), [FAX]);
            && |RoutingWrites(CLAIMED_DISPUTE, without)| == 3 && |RoutingWrites(CLAIMED_DISPUTE, with)| == 1
            && WaitsOnDispute(Persist(CLAIMED_DISPUTE, RoutingWrites(CLAIMED_DISPUTE, without), ss))
            && FailsUnrouted(Persist(CLAIMED_DISPUTE, RoutingWrites(CLAIMED_DISPUTE, with), ts))
  {
    FaxTrips();
    FaxAloneDoesNot();
    UntrippedWaits(Remembers("fax"), [], ss);
    TrippedFails(Remembers("fax"), [FAX], ts);
  }
}
