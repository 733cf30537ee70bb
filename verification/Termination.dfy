/** Why the workers come to rest: over any run of the protocol, with every other kind of
    process interleaved, each effective worker step spends part of a bounded budget. */
module Termination {
  import opened Domain
  import opened Store
  import opened Service
  import opened Protocol
  import opened Invariant
  import opened Reachability
  import opened Recovery

  /** A worker's claim or exhaustion that committed. */
  predicate WorkerCommit(config: Config, s: State, move: Move) {
    && ActorAt(s, move.actor).Claiming? && ActorAt(s, move.actor).byWorker && move.input.Proceed?
    && Step(config, s, move.actor, move.input).stored != s.stored
  }

  lemma ClaimSpends(config: Config, stored: Stored, candidate: Workflow, at: int, byWorker: bool)
    requires StoredOk(config, stored) && SnapshotOk(stored, candidate) && Unsettled(candidate.row.status)
    requires byWorker ==> candidate.row.attempts < config.options.maxAttempts
    requires CommitClaim(stored, candidate, at, byWorker, config.options).Committed?
    ensures var after := CommitClaim(stored, candidate, at, byWorker, config.options).stored;
            && Unsettled(stored.row.status) && after.row.status == Recovering
            && after.row.attempts == stored.row.attempts + (if byWorker then 1 else 0)
            && (byWorker ==> stored.row.attempts < config.options.maxAttempts)
  {
  }

  lemma ClaimingSpends(config: Config, stored: Stored, h: History, a: ActorId, actor: Actor)
    requires StoredOk(config, stored) && ActorOk(config, stored, h, a, actor) && actor.Claiming?
    ensures var after := ActClaiming(config, stored, actor).0;
            && Weight(after, config.options) <= Weight(stored, config.options)
            && (actor.byWorker && after != stored ==> Weight(after, config.options) < Weight(stored, config.options))
  {
    if actor.byWorker && actor.candidate.row.attempts >= config.options.maxAttempts {
      ExhaustKeepsStored(config, stored, actor.candidate, actor.claimedAt);
    } else if CommitClaim(stored, actor.candidate, actor.claimedAt, actor.byWorker, config.options).Committed? {
      ClaimSpends(config, stored, actor.candidate, actor.claimedAt, actor.byWorker);
    }
  }

  lemma UpdateSpendsNothing(config: Config, stored: Stored, h: History, a: ActorId, actor: Actor)
    requires StoredOk(config, stored) && ActorOk(config, stored, h, a, actor)
    requires actor.EventsCounted? && actor.todo != []
    ensures Weight(ActUpdate(stored, actor).0, config.options) <= Weight(stored, config.options)
  {
    var now :| actor.next == NextState(actor.current, actor.todo[0], now);
    UpdateCommits(stored, actor.current, actor.todo[0], now, actor.count);
  }

  /** One step of one actor, whatever it is. */
  lemma ActSpends(config: Config, stored: Stored, h: History, a: ActorId, actor: Actor, input: Input)
    requires StoredOk(config, stored) && HistoryOk(config, stored, h) && ActorOk(config, stored, h, a, actor)
    ensures var after := Act(config, stored, actor, input).0;
            && Weight(after, config.options) <= Weight(stored, config.options)
            && (actor.Claiming? && actor.byWorker && input.Proceed? && after != stored ==>
                  Weight(after, config.options) < Weight(stored, config.options))
  {
    if input.Proceed? {
      if actor.Claiming? {
        ClaimingSpends(config, stored, h, a, actor);
      } else if actor.EventsCounted? && actor.todo != [] {
        UpdateSpendsNothing(config, stored, h, a, actor);
      } else if actor.DecisionCounted? {
        DecisionKeeps(config, stored, h, actor.current, actor.verdict, actor.count);
      }
    }
  }

  lemma StepSpends(config: Config, s: State, move: Move)
    requires Inv(config, s) && Enabled(config, s, move.actor, move.input)
    ensures var after := Step(config, s, move.actor, move.input).stored;
            Weight(after, config.options) + (if WorkerCommit(config, s, move) then 1 else 0) <= Weight(s.stored, config.options)
  {
    assert ActorOk(config, s.stored, s.history, move.actor, ActorAt(s, move.actor));
    ActSpends(config, s.stored, s.history, move.actor, ActorAt(s, move.actor), move.input);
  }

  function WorkerCommits(config: Config, s: State, moves: seq<Move>): nat
    decreases |moves|
  {
    if moves == [] then 0
    else (if WorkerCommit(config, s, moves[0]) then 1 else 0)
         + WorkerCommits(config, Step(config, s, moves[0].actor, moves[0].input), moves[1..])
  }

  /** However the run goes on, workers commit no more claims and exhaustions on a workflow
      than it has left to spend: MaxAttempts + 1 from the start. */
  lemma {:induction false} WorkersComeToRest(config: Config, s: State, moves: seq<Move>)
    requires Inv(config, s) && Legal(config, s, moves)
    ensures WorkerCommits(config, s, moves) + Weight(Run(config, s, moves).stored, config.options)
         <= Weight(s.stored, config.options) <= config.options.maxAttempts + 1
    decreases |moves|
  {
    if moves != [] {
      StepSpends(config, s, moves[0]);
      StepKeeps(config, s, moves[0].actor, moves[0].input);
      WorkersComeToRest(config, Step(config, s, moves[0].actor, moves[0].input), moves[1..]);
    }
  }
}
