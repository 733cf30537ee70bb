/** The processes that race on one workflow, as atomic steps over the database.

    An actor is one call: a worker scan or an immediate trigger that turns into a routing
    run when its claim commits, or an approval. Reading the version, counting the events
    and committing are separate steps, any interleaving is allowed, and an actor may die
    at any point. Workflows share no row, so a system of many is the product of these. */
module Protocol {
  import opened Wrappers
  import opened Text
  import opened Domain
  import opened Store
  import opened Service
  import RoutingPolicy
  import Orchestrator
  import EndToEnd

  /** hostedPlanner: every planner answer comes from the planner graph's host. */
  datatype Config = Config(options: RecoveryOptions, hostedPlanner: bool)

  datatype Verdict = Verdict(decision: string, reason: string, at: int)

  datatype Actor =
    | Idle
    | Claiming(candidate: Workflow, claimedAt: int, byWorker: bool)
    | Claimed                                                        // about to call RecoverAsync
    | Running(current: Workflow, todo: seq<Write>)                   // between two updates
    | VersionRead(current: Workflow, next: Workflow, todo: seq<Write>)
    | EventsCounted(current: Workflow, next: Workflow, count: nat, todo: seq<Write>)
    | Deciding(current: Workflow, verdict: Verdict)                  // about to call RecordDecisionAsync
    | NoDecisionSeen(current: Workflow, verdict: Verdict)
    | DecisionVersionRead(current: Workflow, verdict: Verdict)
    | DecisionCounted(current: Workflow, verdict: Verdict, count: nat)
    | DecisionLost(verdict: Verdict)                                 // about to look for the winner
    | Answered(decision: string)                                     // ApproveAsync returned
    | Stopped

  datatype Input =
    | Crash
    | Scan(staleBefore: int, claimedAt: int)
    | Trigger(triggeredAt: int)
    | Recover(writes: seq<Write>)
    | Approve(verdict: Verdict)
    | Proceed(now: int)

  // ---- ApproveAsync ----

  function DecisionEvents(message: string, verdict: Verdict): seq<EventKind> {
    [ApprovalGiven(verdict.decision)] + if OpensCase(message, verdict.decision) then [ActionCompleted] else []
  }

  /** An approved dispute opens a case and records the action that opened it. */
  predicate OpensCase(message: string, decision: string) {
    IsApprove(decision) && RoutingPolicy.IsDispute(message)
  }

  function DecidedState(current: Workflow, verdict: Verdict): Workflow {
    Workflow(
      current.row.(status := if IsApprove(verdict.decision) then Completed else Rejected,
                   approvalDecision := Some(verdict.decision),
                   approvalReason := Some(verdict.reason),
                   updatedAt := verdict.at,
                   version := current.row.version + 1),
      current.events + Stamp(DecisionEvents(current.row.userMessage, verdict), verdict.at))
  }

  function DecisionCommit(stored: Stored, current: Workflow, verdict: Verdict, count: nat): Commit {
    var opens := OpensCase(current.row.userMessage, verdict.decision);
    CommitDecision(
      stored,
      DecidedState(current, verdict),
      Decision(verdict.decision, verdict.reason, verdict.at),
      if opens then Some(ActionExecution(current.row.id, verdict.at)) else None,
      if opens then Some(SupportCase(current.row.id, verdict.at)) else None,
      current.row.version,
      count)
  }

  /** What an approval does when a decision is already stored. */
  function Against(stored: string, wanted: string): Actor {
    if EqualsIgnoreCase(stored, wanted) then Answered(wanted) else Stopped
  }

  // ---- one step of one actor ----

  function ActIdle(stored: Stored, input: Input): Actor {
    match input
    case Scan(staleBefore, claimedAt) =>
      if IsEligible(stored.row, staleBefore, claimedAt) then Claiming(MapToDomain(stored), claimedAt, true) else Stopped
    case Trigger(at) =>
      if stored.row.status == Draft then Claiming(MapToDomain(stored), at, false) else Stopped
    case Approve(verdict) =>
      if stored.row.approvalDecision.Some? then Against(stored.row.approvalDecision.value, verdict.decision)
      else if stored.row.status != WaitingForApproval || IsBlank(stored.row.userMessage) then Stopped
      else Deciding(MapToDomain(stored), verdict)
    case _ => Idle
  }

  function Settled(commit: Commit, stored: Stored, won: Actor, lost: Actor): (Stored, Actor) {
    if commit.Committed? then (commit.stored, won) else (stored, lost)
  }

  function ActClaiming(config: Config, stored: Stored, actor: Actor): (Stored, Actor)
    requires actor.Claiming?
  {
    if actor.byWorker && actor.candidate.row.attempts >= config.options.maxAttempts
    then Settled(CommitExhaust(stored, actor.candidate, actor.claimedAt), stored, Stopped, Stopped)
    else Settled(CommitClaim(stored, actor.candidate, actor.claimedAt, actor.byWorker, config.options), stored, Claimed, Stopped)
  }

  function ActClaimed(stored: Stored, writes: seq<Write>): Actor {
    if Unsettled(stored.row.status) then Running(MapToDomain(stored), writes) else Stopped
  }

  function ActRunning(stored: Stored, actor: Actor, now: int): Actor
    requires actor.Running?
  {
    if actor.todo == [] || stored.row.version != actor.current.row.version then Stopped
    else VersionRead(actor.current, NextState(actor.current, actor.todo[0], now), actor.todo)
  }

  function ActUpdate(stored: Stored, actor: Actor): (Stored, Actor)
    requires actor.EventsCounted? && actor.todo != []
  {
    Settled(CommitUpdate(stored, actor.next, actor.current.row.version, actor.count), stored,
            Running(actor.next, actor.todo[1..]), Stopped)
  }

  function FindDecision(stored: Stored, verdict: Verdict, absent: Actor): Actor {
    if stored.decisions == [] then absent else Against(stored.decisions[0].decision, verdict.decision)
  }

  function Act(config: Config, stored: Stored, actor: Actor, input: Input): (Stored, Actor) {
    if input.Crash? then (stored, Stopped)
    else match actor
      case Idle => (stored, ActIdle(stored, input))
      case Claimed => (stored, if input.Recover? then ActClaimed(stored, input.writes) else actor)
      case Answered(_) => (stored, actor)
      case Stopped => (stored, actor)
      case _ => if input.Proceed? then ActProceed(config, stored, actor, input.now) else (stored, actor)
  }

  function ActProceed(config: Config, stored: Stored, actor: Actor, now: int): (Stored, Actor) {
    match actor
    case Claiming(_, _, _) => ActClaiming(config, stored, actor)
    case Running(_, _) => (stored, ActRunning(stored, actor, now))
    case VersionRead(current, next, todo) => (stored, EventsCounted(current, next, |stored.events|, todo))
    case EventsCounted(_, _, _, todo) => if todo == [] then (stored, Stopped) else ActUpdate(stored, actor)
    case Deciding(current, verdict) => (stored, FindDecision(stored, verdict, NoDecisionSeen(current, verdict)))
    case NoDecisionSeen(current, verdict) =>
      (stored, if stored.row.version == current.row.version then DecisionVersionRead(current, verdict) else Stopped)
    case DecisionVersionRead(current, verdict) => (stored, DecisionCounted(current, verdict, |stored.events|))
    case DecisionCounted(current, verdict, count) =>
      Settled(DecisionCommit(stored, current, verdict, count), stored, Answered(verdict.decision), DecisionLost(verdict))
    case DecisionLost(verdict) => (stored, FindDecision(stored, verdict, Stopped))
    case _ => (stored, actor)
  }

  // ---- the system ----

  type ActorId = nat

  /** What the proofs remember: who has claimed, who has made a first and a second progress
      write, and when the worker claims happened. */
  datatype History = History(claimants: set<ActorId>, planners: set<ActorId>, routers: set<ActorId>, workerClaims: seq<int>)

  datatype State = State(stored: Stored, actors: map<ActorId, Actor>, history: History)

  function ActorAt(s: State, a: ActorId): Actor {
    if a in s.actors then s.actors[a] else Idle
  }

  function Remember(h: History, a: ActorId, actor: Actor, before: Stored, after: Stored): History {
    if after.row.version == before.row.version then h
    else match actor
      case Claiming(_, claimedAt, byWorker) =>
        if after.row.status != Recovering then h
        else h.(claimants := h.claimants + {a},
                workerClaims := if byWorker then h.workerClaims + [claimedAt] else h.workerClaims)
      case EventsCounted(_, _, _, todo) =>
        if todo == [] || Settles(todo[0]) then h
        else if a in h.planners then h.(routers := h.routers + {a})
        else h.(planners := h.planners + {a})
      case _ => h
  }

  function Step(config: Config, s: State, a: ActorId, input: Input): State {
    var (stored, actor) := Act(config, s.stored, ActorAt(s, a), input);
    State(stored, s.actors[a := actor], Remember(s.history, a, ActorAt(s, a), s.stored, stored))
  }

  /** The writes some routing run on this workflow would make. */
  ghost predicate Producible(config: Config, workflow: Workflow, writes: seq<Write>) {
    exists world: Orchestrator.World ::
      && (config.hostedPlanner ==> EndToEnd.PlannerIsHosted(workflow.row.userMessage, world.planner))
      && writes == RoutingWrites(workflow, world)
  }

  /** A routing run writes what its orchestration produced; nothing else restricts a step. */
  ghost predicate Enabled(config: Config, s: State, a: ActorId, input: Input) {
    input.Recover? ==> Producible(config, MapToDomain(s.stored), input.writes)
  }

  datatype Move = Move(actor: ActorId, input: Input)

  function Run(config: Config, s: State, moves: seq<Move>): State
    decreases |moves|
  {
    if moves == [] then s else Run(config, Step(config, s, moves[0].actor, moves[0].input), moves[1..])
  }

  ghost predicate Legal(config: Config, s: State, moves: seq<Move>)
    decreases |moves|
  {
    moves != [] ==>
      && Enabled(config, s, moves[0].actor, moves[0].input)
      && Legal(config, Step(config, s, moves[0].actor, moves[0].input), moves[1..])
  }

  ghost predicate Initial(s: State) {
    && s.actors == map[] && s.history == History({}, {}, {}, [])
    && exists id, message, customerId, scenario, now ::
         s.stored == MapToEntity(NewDraft(id, message, customerId, scenario, now))
  }
}
