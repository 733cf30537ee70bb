/** What holds of one workflow in every run of the protocol: any number of scans,
    triggers, routing runs and approvals, interleaved in any way and dying anywhere. */
module Theorems {
  import opened Wrappers
  import opened Text
  import opened Domain
  import opened EventTable
  import opened Store
  import opened Service
  import opened Protocol
  import opened Invariant
  import opened Reachability
  import RoutingPolicy

  /** s is reached from the start by some run. */
  ghost predicate Reached(config: Config, start: State, moves: seq<Move>, s: State) {
    Initial(start) && Legal(config, start, moves) && s == Run(config, start, moves)
  }

  lemma ReachedOk(config: Config, start: State, moves: seq<Move>, s: State)
    requires Reached(config, start, moves, s)
    ensures Inv(config, s)
  {
    InitialOk(config, start);
    RunKeeps(config, start, moves);
  }

  // ---- optimistic concurrency ----

  /** The table of events is the log, numbered 0..n-1. */
  lemma SequencesAreDense(config: Config, start: State, moves: seq<Move>, s: State)
    requires Reached(config, start, moves, s)
    ensures Dense(s.stored.events)
    ensures forall i | 0 <= i < |s.stored.events| :: Log(s.stored.events)[i] == s.stored.events[i]
  {
    ReachedOk(config, start, moves, s);
    forall i | 0 <= i < |s.stored.events|
      ensures Log(s.stored.events)[i] == s.stored.events[i]
    {
      ReadAt(s.stored.events, i);
    }
  }

  /** An update meets no unique index, and one that commits adds exactly the writer's events
      after an unchanged log and stores exactly the writer's state. */
  lemma UpdateAppendsExactly(config: Config, start: State, moves: seq<Move>, s: State, a: ActorId)
    requires Reached(config, start, moves, s)
    requires ActorAt(s, a).EventsCounted?
    ensures var actor := ActorAt(s, a);
            var commit := CommitUpdate(s.stored, actor.next, actor.current.row.version, actor.count);
            && actor.current.events <= actor.next.events
            && !commit.IndexViolated?
            && (commit.Committed? ==>
                  && Log(commit.stored.events) == Log(s.stored.events) + actor.next.events[|actor.current.events|..]
                  && MapToDomain(commit.stored) == actor.next
                  && commit.stored.row.version == s.stored.row.version + 1)
  {
    ReachedOk(config, start, moves, s);
    assert ActorOk(config, s.stored, s.history, a, ActorAt(s, a));
    UpdateAppends(config, s.stored, s.history, a, ActorAt(s, a));
  }

  lemma UpdateAppends(config: Config, stored: Stored, h: History, a: ActorId, actor: Actor)
    requires LogOk(stored) && ActorOk(config, stored, h, a, actor) && actor.EventsCounted?
    ensures var commit := CommitUpdate(stored, actor.next, actor.current.row.version, actor.count);
            && actor.current.events <= actor.next.events
            && !commit.IndexViolated?
            && (commit.Committed? ==>
                  && Log(commit.stored.events) == Log(stored.events) + actor.next.events[|actor.current.events|..]
                  && MapToDomain(commit.stored) == actor.next
                  && commit.stored.row.version == stored.row.version + 1)
  {
    var now :| actor.next == NextState(actor.current, actor.todo[0], now);
    UpdateCommits(stored, actor.current, actor.todo[0], now, actor.count);
    assert actor.next.events[|actor.current.events|..] == NewEvents(actor.todo[0], now);
  }

  /** The same for a claim or an exhaustion. */
  lemma ClaimAppendsExactly(config: Config, start: State, moves: seq<Move>, s: State, a: ActorId)
    requires Reached(config, start, moves, s)
    requires ActorAt(s, a).Claiming?
    ensures var actor := ActorAt(s, a);
            var claim := CommitClaim(s.stored, actor.candidate, actor.claimedAt, actor.byWorker, config.options);
            var exhaust := CommitExhaust(s.stored, actor.candidate, actor.claimedAt);
            && !claim.IndexViolated? && !exhaust.IndexViolated?
            && (claim.Committed? ==> Log(claim.stored.events) == Log(s.stored.events) + [Event(RecoveryClaimed, actor.claimedAt)])
            && (exhaust.Committed? ==> Log(exhaust.stored.events) == Log(s.stored.events) + [Event(Abandoned, actor.claimedAt)])
  {
    ReachedOk(config, start, moves, s);
    var actor := ActorAt(s, a);
    ClaimKeepsStored(config, s.stored, actor.candidate, actor.claimedAt, actor.byWorker);
    ExhaustKeepsStored(config, s.stored, actor.candidate, actor.claimedAt);
  }

  /** The same for a decision, whose four tables all have unique indexes. */
  lemma DecisionAppendsExactly(config: Config, start: State, moves: seq<Move>, s: State, a: ActorId)
    requires Reached(config, start, moves, s)
    requires ActorAt(s, a).DecisionCounted?
    ensures var actor := ActorAt(s, a);
            var commit := DecisionCommit(s.stored, actor.current, actor.verdict, actor.count);
            && !commit.IndexViolated?
            && (commit.Committed? ==>
                  && s.stored.row.status == WaitingForApproval && s.stored.decisions == []
                  && Log(commit.stored.events)
                     == Log(s.stored.events) + Stamp(DecisionEvents(s.stored.row.userMessage, actor.verdict), actor.verdict.at))
  {
    ReachedOk(config, start, moves, s);
    var actor := ActorAt(s, a);
    DecisionKeeps(config, s.stored, s.history, actor.current, actor.verdict, actor.count);
  }

  /** A routing run or a claim that comes back to a settled workflow changes nothing. */
  lemma StaleWriterIsRefused(config: Config, start: State, moves: seq<Move>, s: State, a: ActorId)
    requires Reached(config, start, moves, s) && !Unsettled(s.stored.row.status)
    ensures var actor := ActorAt(s, a);
            && (actor.EventsCounted? ==>
                  CommitUpdate(s.stored, actor.next, actor.current.row.version, actor.count).NoRowMatched?)
            && (actor.Claiming? ==>
                  CommitClaim(s.stored, actor.candidate, actor.claimedAt, actor.byWorker, config.options).NoRowMatched?)
  {
    ReachedOk(config, start, moves, s);
    assert ActorOk(config, s.stored, s.history, a, ActorAt(s, a));
  }

  // ---- bounds ----

  lemma SubsetSize(small: set<ActorId>, large: set<ActorId>)
    requires small <= large
    ensures |small| <= |large|
  {
    assert large == small + (large - small);
  }

  /** No run pushes the version past 3 * (MaxAttempts + 1) + 2. */
  lemma WritesAreBounded(config: Config, start: State, moves: seq<Move>, s: State)
    requires Reached(config, start, moves, s)
    ensures s.stored.row.version <= 3 * (config.options.maxAttempts + 1) + 2
  {
    ReachedOk(config, start, moves, s);
    SubsetSize(s.history.planners, s.history.claimants);
    SubsetSize(s.history.routers, s.history.planners);
  }

  /** Attempts stay within their limit, and the log holds one claim per attempt plus at
      most one, the immediate claim out of Draft. */
  lemma AttemptsAreConserved(config: Config, start: State, moves: seq<Move>, s: State)
    requires Reached(config, start, moves, s)
    ensures s.stored.row.attempts <= config.options.maxAttempts
    ensures var claims := Count(Log(s.stored.events), IsClaim);
            claims == s.stored.row.attempts || claims == s.stored.row.attempts + 1
    ensures s.stored.row.status == Draft ==> Count(Log(s.stored.events), IsClaim) == 0
  {
    ReachedOk(config, start, moves, s);
    ClaimsAreCounted(Log(s.stored.events));
  }

  function DelaySum(options: RecoveryOptions, k: nat): nat {
    if k == 0 then 0 else DelaySum(options, k - 1) + Delay(options, k)
  }

  lemma {:induction false} SpacedSum(options: RecoveryOptions, claims: seq<int>, k: nat)
    requires Spaced(options, claims) && k < |claims|
    ensures claims[k] >= claims[0] + DelaySum(options, k)
    decreases |claims|
  {
    var earlier := claims[..|claims| - 1];
    if k < |claims| - 1 {
      SpacedSum(options, earlier, k);
    } else if k > 0 {
      SpacedSum(options, earlier, k - 1);
    }
  }

  /** The first k waits together. */
  function WaitSum(options: RecoveryOptions, k: nat): nat {
    if k == 0 then 0 else WaitSum(options, k - 1) + Wait(options, k)
  }

  lemma {:induction false} DelaysAreWaits(options: RecoveryOptions, k: nat)
    ensures DelaySum(options, k) == WaitSum(options, k)
  {
    if k > 0 {
      DelayIsWait(options, k);
      DelaysAreWaits(options, k - 1);
    }
  }

  /** The worker claims of a log: its last `attempts` claim events. */
  function WorkerClaims(stored: Stored): seq<int>
    requires stored.row.attempts <= |ClaimTimes(Log(stored.events))|
  {
    var claims := ClaimTimes(Log(stored.events));
    claims[|claims| - stored.row.attempts..]
  }

  /** Worker claim k + 1 is logged at least the sum of the first k delays after the first,
      whatever the claiming replicas' clocks say, and the next attempt waits out one more. At
      most one claim, the first, is no worker's. */
  lemma ClaimsAreSpaced(config: Config, start: State, moves: seq<Move>, s: State)
    requires Reached(config, start, moves, s)
    ensures s.stored.row.attempts <= |ClaimTimes(Log(s.stored.events))| <= s.stored.row.attempts + 1
    ensures forall k | 0 <= k < s.stored.row.attempts ::
              WorkerClaims(s.stored)[k] >= WorkerClaims(s.stored)[0] + WaitSum(config.options, k)
    ensures s.stored.row.nextAttemptAt
         == if s.stored.row.attempts == 0 then None
            else Some(WorkerClaims(s.stored)[s.stored.row.attempts - 1] + Wait(config.options, s.stored.row.attempts))
  {
    ReachedOk(config, start, moves, s);
    assert WorkerClaims(s.stored) == s.history.workerClaims;
    if s.stored.row.attempts > 0 {
      DelayIsWait(config.options, s.stored.row.attempts);
    }
    forall k | 0 <= k < s.stored.row.attempts
      ensures WorkerClaims(s.stored)[k] >= WorkerClaims(s.stored)[0] + WaitSum(config.options, k)
    {
      DelaysAreWaits(config.options, k);
      SpacedSum(config.options, s.history.workerClaims, k);
    }
  }

  // ---- the status and its log ----

  /** The status is what the log replays to, and a settling event is in the log exactly once
      from the moment the workflow leaves Draft and Recovering. */
  lemma StatusIsReplay(config: Config, start: State, moves: seq<Move>, s: State)
    requires Reached(config, start, moves, s)
    ensures s.stored.row.status == Replay(Log(s.stored.events))
    ensures Count(Log(s.stored.events), IsSettling) == if Unsettled(s.stored.row.status) then 0 else 1
    ensures s.stored.row.status != Approved
  {
    ReachedOk(config, start, moves, s);
  }

  /** The lifecycle's edges. */
  predicate MayFollow(before: Status, after: Status) {
    match before
    case Draft => after == Recovering || after == Failed
    case Recovering => after == Recovering || after == WaitingForApproval || after == Completed || after == Failed
    case WaitingForApproval => after == Completed || after == Rejected
    case _ => false
  }

  lemma ClaimingEdge(config: Config, stored: Stored, h: History, a: ActorId, actor: Actor)
    requires StoredOk(config, stored) && HistoryOk(config, stored, h) && ActorOk(config, stored, h, a, actor)
    requires actor.Claiming?
    ensures var after := ActClaiming(config, stored, actor).0;
            after == stored || MayFollow(stored.row.status, after.row.status)
  {
    ClaimKeepsStored(config, stored, actor.candidate, actor.claimedAt, actor.byWorker);
    ExhaustKeepsStored(config, stored, actor.candidate, actor.claimedAt);
  }

  lemma UpdateEdge(config: Config, stored: Stored, h: History, a: ActorId, actor: Actor)
    requires StoredOk(config, stored) && HistoryOk(config, stored, h) && ActorOk(config, stored, h, a, actor)
    requires actor.EventsCounted? && actor.todo != []
    ensures var after := ActUpdate(stored, actor).0;
            after == stored || MayFollow(stored.row.status, after.row.status)
  {
    var now :| actor.next == NextState(actor.current, actor.todo[0], now);
    UpdateCommits(stored, actor.current, actor.todo[0], now, actor.count);
    assert a in h.claimants;
  }

  /** Every step leaves the stored workflow alone or follows an edge of the lifecycle. */
  lemma StepFollowsEdge(config: Config, s: State, a: ActorId, input: Input)
    requires Inv(config, s) && Enabled(config, s, a, input)
    ensures var after := Step(config, s, a, input).stored;
            after == s.stored || MayFollow(s.stored.row.status, after.row.status)
  {
    var actor := ActorAt(s, a);
    assert ActorOk(config, s.stored, s.history, a, actor);
    if input.Proceed? {
      if actor.Claiming? {
        ClaimingEdge(config, s.stored, s.history, a, actor);
      } else if actor.EventsCounted? && actor.todo != [] {
        UpdateEdge(config, s.stored, s.history, a, actor);
      } else if actor.DecisionCounted? {
        DecisionKeeps(config, s.stored, s.history, actor.current, actor.verdict, actor.count);
      }
    }
  }

  predicate Final(status: Status) {
    status == Completed || status == Rejected || status == Failed
  }

  /** A final workflow is frozen: no continuation of any run changes any of its rows. */
  lemma {:induction false} FinalIsFrozen(config: Config, s: State, moves: seq<Move>)
    requires Inv(config, s) && Legal(config, s, moves) && Final(s.stored.row.status)
    ensures Run(config, s, moves).stored == s.stored
    decreases |moves|
  {
    if moves != [] {
      StepFollowsEdge(config, s, moves[0].actor, moves[0].input);
      StepKeeps(config, s, moves[0].actor, moves[0].input);
      FinalIsFrozen(config, Step(config, s, moves[0].actor, moves[0].input), moves[1..]);
    }
  }

  /** Draft, once left, is not entered again; the log and the decisions only grow. */
  lemma {:induction false} HistoryIsKept(config: Config, s: State, moves: seq<Move>)
    requires Inv(config, s) && Legal(config, s, moves)
    ensures var after := Run(config, s, moves).stored;
            && (s.stored.row.status != Draft ==> after.row.status != Draft)
            && Log(s.stored.events) <= Log(after.events)
            && s.stored.decisions <= after.decisions
            && s.stored.row.version <= after.row.version
            && (s.stored.row.version == after.row.version ==> after == s.stored)
    decreases |moves|
  {
    if moves != [] {
      StepFollowsEdge(config, s, moves[0].actor, moves[0].input);
      StepKeeps(config, s, moves[0].actor, moves[0].input);
      HistoryIsKept(config, Step(config, s, moves[0].actor, moves[0].input), moves[1..]);
    }
  }

  // ---- the human gate ----

  /** Who completed what: a gated completion has exactly one stored decision, an approval; an
      ungated one has none; a rejection has exactly one, and it is no approval. */
  lemma HumanGate(config: Config, start: State, moves: seq<Move>, s: State)
    requires Reached(config, start, moves, s)
    ensures s.stored.row.status == Completed && s.stored.row.requiresApproval ==>
              |s.stored.decisions| == 1 && EqualsIgnoreCase(s.stored.decisions[0].decision, "approve")
    ensures s.stored.row.status == Completed && !s.stored.row.requiresApproval ==> s.stored.decisions == []
    ensures s.stored.row.status == Rejected ==>
              |s.stored.decisions| == 1 && !EqualsIgnoreCase(s.stored.decisions[0].decision, "approve")
    ensures s.stored.decisions != [] ==> s.stored.row.status == Completed || s.stored.row.status == Rejected
  {
    ReachedOk(config, start, moves, s);
  }

  /** From the customer's message to the stored row: if the policy asks for approval, or the
      planner is hosted and the message holds one of its action terms, then in no run, and
      for no answer of any model, is the workflow Completed without a stored approval. */
  lemma GatedNeverCompletesUnapproved(config: Config, start: State, moves: seq<Move>, s: State)
    requires Reached(config, start, moves, s)
    requires Gated(config, s.stored.row.userMessage)
    ensures s.stored.row.status == Completed ==>
              |s.stored.decisions| == 1 && EqualsIgnoreCase(s.stored.decisions[0].decision, "approve")
  {
    ReachedOk(config, start, moves, s);
  }

  /** At most one decision is stored, every approval call that returned asked for it, and a
      case and an action exist exactly when it approves a dispute. */
  lemma DecisionIsExactlyOnce(config: Config, start: State, moves: seq<Move>, s: State)
    requires Reached(config, start, moves, s)
    ensures |s.stored.decisions| <= 1
    ensures s.stored.row.approvalDecision
         == (if s.stored.decisions == [] then None else Some(s.stored.decisions[0].decision))
    ensures forall a: ActorId | ActorAt(s, a).Answered? ::
              |s.stored.decisions| == 1 && EqualsIgnoreCase(s.stored.decisions[0].decision, ActorAt(s, a).decision)
    ensures |s.stored.cases| == |s.stored.actions| <= 1
    ensures |s.stored.cases| == 1 <==> (|s.stored.decisions| == 1
              && EqualsIgnoreCase(s.stored.decisions[0].decision, "approve") && RoutingPolicy.MentionsDispute(s.stored.row.userMessage))
  {
    RoutingPolicy.PolicyMeaning(s.stored.row.userMessage);
    ReachedOk(config, start, moves, s);
    forall a: ActorId | ActorAt(s, a).Answered?
      ensures |s.stored.decisions| == 1 && EqualsIgnoreCase(s.stored.decisions[0].decision, ActorAt(s, a).decision)
    {
      assert ActorOk(config, s.stored, s.history, a, ActorAt(s, a));
    }
  }

  // ---- no workflow is stuck ----

  /** An actor that has not acted yet. */
  lemma FreshActor(actors: map<ActorId, Actor>) returns (a: ActorId)
    ensures a !in actors
  {
    a := AboveAll(actors.Keys);
  }

  lemma {:induction false} AboveAll(ids: set<ActorId>) returns (a: ActorId)
    ensures forall b | b in ids :: b < a
  {
    if ids == {} {
      a := 0;
    } else {
      var b :| b in ids;
      var c := AboveAll(ids - {b});
      a := if b < c then c else b + 1;
      forall d | d in ids
        ensures d < a
      {
        assert d == b || d in ids - {b};
      }
    }
  }

  /** The scan of a new worker takes an eligible workflow as its candidate. */
  lemma ScanSees(config: Config, s: State, a: ActorId, late: int)
    requires a !in s.actors && IsEligible(s.stored.row, late, late)
    ensures var seen := Step(config, s, a, Scan(late, late));
            seen.stored == s.stored && ActorAt(seen, a) == Claiming(MapToDomain(s.stored), late, true)
  {
    assert Act(config, s.stored, ActorAt(s, a), Scan(late, late)) == (s.stored, ActIdle(s.stored, Scan(late, late)));
  }

  /** A candidate that is still the stored workflow is claimed or, out of attempts, failed. */
  lemma CandidateBites(config: Config, stored: Stored, late: int)
    requires StoredOk(config, stored) && Unsettled(stored.row.status)
    ensures var after := ActClaiming(config, stored, Claiming(MapToDomain(stored), late, true)).0;
            if stored.row.attempts >= config.options.maxAttempts then after.row.status == Failed
            else Unsettled(after.row.status) && after.row.attempts == stored.row.attempts + 1
  {
    SnapshotNow(stored);
    ClaimKeepsStored(config, stored, MapToDomain(stored), late, true);
    ExhaustKeepsStored(config, stored, MapToDomain(stored), late);
  }

  lemma RunOfTwo(config: Config, s: State, first: Move, second: Move)
    requires !first.input.Recover? && !second.input.Recover?
    ensures Legal(config, s, [first, second])
    ensures Run(config, s, [first, second])
         == Step(config, Step(config, s, first.actor, first.input), second.actor, second.input)
  {
    var between := Step(config, s, first.actor, first.input);
    var after := Step(config, between, second.actor, second.input);
    assert [first, second][1..] == [second] && [second][1..] == [];
    assert Run(config, after, []) == after && Legal(config, after, []);
    assert Run(config, between, [second]) == after && Legal(config, between, [second]);
  }

  /** A late enough scan by a new worker claims the workflow or, out of attempts, fails it. */
  lemma ScanBites(config: Config, s: State, a: ActorId) returns (moves: seq<Move>)
    requires Inv(config, s) && Unsettled(s.stored.row.status) && a !in s.actors
    ensures Legal(config, s, moves)
    ensures var after := Run(config, s, moves).stored;
            if s.stored.row.attempts >= config.options.maxAttempts then after.row.status == Failed
            else Unsettled(after.row.status) && after.row.attempts == s.stored.row.attempts + 1
  {
    var row := s.stored.row;
    var late := if row.nextAttemptAt.Some? && row.nextAttemptAt.value > row.updatedAt then row.nextAttemptAt.value else row.updatedAt;
    moves := [Move(a, Scan(late, late)), Move(a, Proceed(late))];
    ScanSees(config, s, a, late);
    CandidateBites(config, s.stored, late);
    RunOfTwo(config, s, moves[0], moves[1]);
    var seen := Step(config, s, a, Scan(late, late));
    assert Act(config, seen.stored, ActorAt(seen, a), Proceed(late)) == ActClaiming(config, s.stored, ActorAt(seen, a));
  }

  lemma {:induction false} RunJoins(config: Config, s: State, first: seq<Move>, second: seq<Move>)
    requires Legal(config, s, first) && Legal(config, Run(config, s, first), second)
    ensures Legal(config, s, first + second)
    ensures Run(config, s, first + second) == Run(config, Run(config, s, first), second)
    decreases |first|
  {
    if first == [] {
      assert first + second == second;
    } else {
      assert (first + second)[1..] == first[1..] + second;
      RunJoins(config, Step(config, s, first[0].actor, first[0].input), first[1..], second);
    }
  }

  /** From every reachable state, whoever died where, recovery alone still settles the
      workflow. */
  lemma {:induction false} NeverStuck(config: Config, s: State) returns (moves: seq<Move>)
    requires Inv(config, s)
    ensures Legal(config, s, moves) && !Unsettled(Run(config, s, moves).stored.row.status)
    decreases config.options.maxAttempts + 1 - s.stored.row.attempts
  {
    if !Unsettled(s.stored.row.status) {
      moves := [];
    } else {
      var a := FreshActor(s.actors);
      var first := ScanBites(config, s, a);
      RunKeeps(config, s, first);
      var next := Run(config, s, first);
      if s.stored.row.attempts >= config.options.maxAttempts {
        moves := first;
      } else {
        var rest := NeverStuck(config, next);
        RunJoins(config, s, first, rest);
        moves := first + rest;
      }
    }
  }
}
