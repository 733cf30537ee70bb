/** Every step of every run keeps the invariant. */
module Reachability {
  import opened Domain
  import opened EventTable
  import opened Store
  import opened Service
  import opened Protocol
  import opened Invariant

  /** Steps that only move the actor. */
  lemma QuietStep(config: Config, stored: Stored, h: History, a: ActorId, actor: Actor, next: Actor)
    requires StoredOk(config, stored) && HistoryOk(config, stored, h)
    requires ActorOk(config, stored, h, a, next)
    ensures StepOk(config, stored, h, a, actor, (stored, next))
  {
  }

  lemma SnapshotNow(stored: Stored)
    ensures SnapshotOk(stored, MapToDomain(stored))
  {
  }

  lemma ScanStep(config: Config, stored: Stored, h: History, a: ActorId, input: Input)
    requires StoredOk(config, stored) && a !in h.claimants && (input.Scan? || input.Trigger?)
    ensures ActorOk(config, stored, h, a, ActIdle(stored, input))
  {
    SnapshotNow(stored);
  }

  lemma ApproveStep(config: Config, stored: Stored, h: History, a: ActorId, input: Input)
    requires DecisionsOk(stored) && a !in h.claimants && input.Approve?
    ensures ActorOk(config, stored, h, a, ActIdle(stored, input))
  {
    SnapshotNow(stored);
  }

  lemma IdleStep(config: Config, stored: Stored, h: History, a: ActorId, input: Input)
    requires StoredOk(config, stored) && HistoryOk(config, stored, h) && a !in h.claimants
    ensures ActorOk(config, stored, h, a, ActIdle(stored, input))
  {
    if input.Approve? {
      ApproveStep(config, stored, h, a, input);
    } else if input.Scan? || input.Trigger? {
      ScanStep(config, stored, h, a, input);
    }
  }

  lemma RecoverStep(config: Config, stored: Stored, h: History, a: ActorId, writes: seq<Write>)
    requires StoredOk(config, stored) && HistoryOk(config, stored, h)
    requires a in h.claimants && a !in h.planners && a !in h.routers
    requires Producible(config, MapToDomain(stored), writes)
    ensures ActorOk(config, stored, h, a, ActClaimed(stored, writes))
  {
    ProducibleOk(config, MapToDomain(stored), writes);
    SnapshotNow(stored);
  }

  /** Reading the version and counting the events. */
  lemma ReadingStep(config: Config, stored: Stored, h: History, a: ActorId, actor: Actor, now: int)
    requires StoredOk(config, stored) && ActorOk(config, stored, h, a, actor)
    requires actor.Running? || actor.VersionRead?
    ensures ActProceed(config, stored, actor, now).0 == stored
    ensures ActorOk(config, stored, h, a, ActProceed(config, stored, actor, now).1)
  {
  }

  /** Everything an approval does before its transaction, and after losing one. */
  lemma LookingStep(config: Config, stored: Stored, h: History, a: ActorId, actor: Actor, now: int)
    requires StoredOk(config, stored) && ActorOk(config, stored, h, a, actor)
    requires actor.Deciding? || actor.NoDecisionSeen? || actor.DecisionVersionRead? || actor.DecisionLost?
    ensures ActProceed(config, stored, actor, now).0 == stored
    ensures ActorOk(config, stored, h, a, ActProceed(config, stored, actor, now).1)
  {
  }

  lemma ProceedStep(config: Config, stored: Stored, h: History, a: ActorId, actor: Actor, now: int)
    requires StoredOk(config, stored) && HistoryOk(config, stored, h) && ActorOk(config, stored, h, a, actor)
    requires !actor.Idle? && !actor.Claimed? && !actor.Answered? && !actor.Stopped?
    ensures StepOk(config, stored, h, a, actor, ActProceed(config, stored, actor, now))
  {
    if actor.Claiming? {
      ClaimingStep(config, stored, h, a, actor);
    } else if actor.EventsCounted? {
      if actor.todo != [] {
        UpdateStep(config, stored, h, a, actor);
      } else {
        QuietStep(config, stored, h, a, actor, Stopped);
      }
    } else if actor.DecisionCounted? {
      DecisionStep(config, stored, h, a, actor);
    } else {
      if actor.Running? || actor.VersionRead? {
        ReadingStep(config, stored, h, a, actor, now);
      } else {
        LookingStep(config, stored, h, a, actor, now);
      }
      QuietStep(config, stored, h, a, actor, ActProceed(config, stored, actor, now).1);
    }
  }

  /** The acting actor's step, whatever it is. */
  lemma ActKeeps(config: Config, stored: Stored, h: History, a: ActorId, actor: Actor, input: Input)
    requires StoredOk(config, stored) && HistoryOk(config, stored, h) && ActorOk(config, stored, h, a, actor)
    requires input.Recover? ==> Producible(config, MapToDomain(stored), input.writes)
    ensures StepOk(config, stored, h, a, actor, Act(config, stored, actor, input))
  {
    if input.Crash? {
      QuietStep(config, stored, h, a, actor, Stopped);
    } else if actor.Idle? {
      IdleStep(config, stored, h, a, input);
      QuietStep(config, stored, h, a, actor, ActIdle(stored, input));
    } else if actor.Claimed? && input.Recover? {
      RecoverStep(config, stored, h, a, input.writes);
      QuietStep(config, stored, h, a, actor, ActClaimed(stored, input.writes));
    } else if actor.Claimed? || actor.Answered? || actor.Stopped? || !input.Proceed? {
      QuietStep(config, stored, h, a, actor, actor);
    } else {
      ProceedStep(config, stored, h, a, actor, input.now);
    }
  }

  /** A snapshot, a count and an answer survive the other actors' commits. */
  lemma BystanderKeeps(config: Config, before: Stored, after: Stored, h: History, next: History, a: ActorId, b: ActorId, actor: Actor)
    requires ActorOk(config, before, h, b, actor) && a != b
    requires Progress(before, after) && DecisionsOk(after)
    requires forall c: ActorId | c != a :: (c in h.claimants <==> c in next.claimants)
                && (c in h.planners <==> c in next.planners) && (c in h.routers <==> c in next.routers)
    ensures ActorOk(config, after, next, b, actor)
  {
  }

  lemma RememberOnlyActor(h: History, a: ActorId, actor: Actor, before: Stored, after: Stored)
    ensures var next := Remember(h, a, actor, before, after);
            forall c: ActorId | c != a :: (c in h.claimants <==> c in next.claimants)
              && (c in h.planners <==> c in next.planners) && (c in h.routers <==> c in next.routers)
  {
  }

  /** Every other actor survives the step. */
  lemma OthersKeep(config: Config, s: State, a: ActorId, input: Input, b: ActorId)
    requires ActorOk(config, s.stored, s.history, b, ActorAt(s, b)) && a != b
    requires Progress(s.stored, Step(config, s, a, input).stored) && DecisionsOk(Step(config, s, a, input).stored)
    ensures var after := Step(config, s, a, input);
            ActorOk(config, after.stored, after.history, b, ActorAt(after, b))
  {
    var after := Step(config, s, a, input);
    RememberOnlyActor(s.history, a, ActorAt(s, a), s.stored, after.stored);
    BystanderKeeps(config, s.stored, after.stored, s.history, after.history, a, b, ActorAt(s, b));
  }

  lemma StepKeeps(config: Config, s: State, a: ActorId, input: Input)
    requires Inv(config, s) && Enabled(config, s, a, input)
    ensures Inv(config, Step(config, s, a, input))
    ensures Progress(s.stored, Step(config, s, a, input).stored)
  {
    var after := Step(config, s, a, input);
    ActKeeps(config, s.stored, s.history, a, ActorAt(s, a), input);
    forall b: ActorId
      ensures ActorOk(config, after.stored, after.history, b, ActorAt(after, b))
    {
      if b != a {
        OthersKeep(config, s, a, input, b);
      }
    }
  }

  lemma DraftLog(draft: Workflow)
    requires forall i | 0 <= i < |draft.events| :: IsProgress(draft.events[i].kind)
    requires draft.row.status == Draft
    ensures LogOk(MapToEntity(draft)) && ClaimTimes(Log(ToTable(draft.events))) == []
  {
    ToTableDense(draft.events);
    RoundTrip(draft.events);
    ProgressKeeps(Draft, draft.events);
  }

  lemma InitialOk(config: Config, s: State)
    requires Initial(s)
    ensures Inv(config, s)
  {
    var id, message, customerId, scenario, now :|
      s.stored == MapToEntity(NewDraft(id, message, customerId, scenario, now));
    DraftLog(NewDraft(id, message, customerId, scenario, now));
    forall a: ActorId
      ensures ActorOk(config, s.stored, s.history, a, ActorAt(s, a))
    {
      assert ActorAt(s, a) == Idle;
    }
  }

  /** Every run of every length. */
  lemma {:induction false} RunKeeps(config: Config, s: State, moves: seq<Move>)
    requires Inv(config, s) && Legal(config, s, moves)
    ensures Inv(config, Run(config, s, moves))
    decreases |moves|
  {
    if moves != [] {
      StepKeeps(config, s, moves[0].actor, moves[0].input);
      RunKeeps(config, Step(config, s, moves[0].actor, moves[0].input), moves[1..]);
    }
  }
}
