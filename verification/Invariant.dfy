/** What every reachable state of the protocol satisfies, and that every step keeps it. */
module Invariant {
  import opened Wrappers
  import opened Text
  import opened Domain
  import opened EventTable
  import opened Store
  import opened Service
  import opened Protocol
  import RoutingPolicy
  import Agents
  import EndToEnd
  import Orchestrator

  /** Messages whose workflow must pass a person before it completes. */
  predicate Gated(config: Config, message: string) {
    || RoutingPolicy.MustAsk(message)
    || (config.hostedPlanner && Agents.AsksForAction(message))
  }

  // ---- the stored workflow ----

  ghost predicate LogOk(stored: Stored) {
    && Dense(stored.events)
    && stored.row.status == Replay(Log(stored.events))
    && Count(Log(stored.events), IsSettling) == if Unsettled(stored.row.status) then 0 else 1
  }

  /** The decision tables in each status. */
  predicate DecisionsOk(stored: Stored) {
    && (match stored.row.status
        case Draft => stored.decisions == [] && !stored.row.requiresApproval
        case Recovering => stored.decisions == [] && !stored.row.requiresApproval
        case WaitingForApproval => stored.decisions == [] && stored.row.requiresApproval
        case Failed => stored.decisions == [] && !stored.row.requiresApproval
        case Completed =>
          if stored.row.requiresApproval then |stored.decisions| == 1 && IsApprove(stored.decisions[0].decision)
          else stored.decisions == []
        case Rejected =>
          stored.row.requiresApproval && |stored.decisions| == 1 && !IsApprove(stored.decisions[0].decision)
        case Approved => false)
    && stored.row.approvalDecision == (if stored.decisions == [] then None else Some(stored.decisions[0].decision))
    && |stored.actions| == |stored.cases|
    && |stored.cases| == (if stored.decisions != [] && OpensCase(stored.row.userMessage, stored.decisions[0].decision) then 1 else 0)
  }

  ghost predicate StoredOk(config: Config, stored: Stored) {
    && LogOk(stored)
    && DecisionsOk(stored)
    && (stored.row.status == Completed && !stored.row.requiresApproval ==> !Gated(config, stored.row.userMessage))
  }

  // ---- the history ----

  /** Each worker claim waits out the delay of the one before it. */
  predicate Spaced(options: RecoveryOptions, claims: seq<int>) {
    |claims| < 2
    || (Spaced(options, claims[..|claims| - 1])
        && claims[|claims| - 2] + Delay(options, |claims| - 1) <= claims[|claims| - 1])
  }

  function NextAfter(options: RecoveryOptions, claims: seq<int>): Option<int> {
    if claims == [] then None else Some(claims[|claims| - 1] + Delay(options, |claims|))
  }

  /** The claims by workers are all claims, or all but the first. */
  predicate WorkersOf(claims: seq<int>, workers: seq<int>) {
    claims == workers || (|claims| == |workers| + 1 && claims[1..] == workers)
  }

  lemma WorkersGrow(claims: seq<int>, workers: seq<int>, at: int)
    requires WorkersOf(claims, workers)
    ensures WorkersOf(claims + [at], workers + [at])
    ensures workers == [] && claims == [] ==> WorkersOf(claims + [at], workers)
  {
    if claims != workers {
      assert (claims + [at])[1..] == claims[1..] + [at];
    }
  }

  /** Who wrote how often. */
  predicate CountsOk(config: Config, stored: Stored, h: History) {
    && h.routers <= h.planners <= h.claimants
    && stored.row.attempts <= config.options.maxAttempts
    && stored.row.attempts <= |h.claimants| <= stored.row.attempts + 1
    && (stored.row.status == Draft ==> h.claimants == {})
    && stored.row.version == |h.claimants| + |h.planners| + |h.routers|
                             + (if Unsettled(stored.row.status) then 0 else 1) + |stored.decisions|
  }

  /** When the claims were, as the log has them, and when the next one may be. */
  ghost predicate ScheduleOk(config: Config, stored: Stored, h: History) {
    && |ClaimTimes(Log(stored.events))| == |h.claimants|
    && WorkersOf(ClaimTimes(Log(stored.events)), h.workerClaims)
    && stored.row.attempts == |h.workerClaims|
    && stored.row.nextAttemptAt == NextAfter(config.options, h.workerClaims)
    && Spaced(config.options, h.workerClaims)
  }

  ghost predicate HistoryOk(config: Config, stored: Stored, h: History) {
    CountsOk(config, stored, h) && ScheduleOk(config, stored, h)
  }

  // ---- the actors ----

  /** A snapshot is the stored workflow as long as the version is still the same. */
  ghost predicate SnapshotOk(stored: Stored, w: Workflow) {
    && w.row.version <= stored.row.version
    && w.row.userMessage == stored.row.userMessage
    && (w.row.version == stored.row.version ==> w == MapToDomain(stored))
  }

  function Advances(todo: seq<Write>): nat {
    if todo == [] then 0 else (if todo[0].Advance? then 1 else 0) + Advances(todo[1..])
  }

  predicate TodoOk(config: Config, message: string, todo: seq<Write>) {
    && (forall k | 0 <= k < |todo| - 1 :: todo[k].Advance?)
    && (forall k | 0 <= k < |todo| :: ProgressOnly(todo[k].events))
    && (Gated(config, message) ==> forall k | 0 <= k < |todo| && todo[k].Finish? :: todo[k].requiresApproval)
  }

  predicate CreditOk(h: History, a: ActorId, todo: seq<Write>) {
    && a in h.claimants
    && Advances(todo) + (if a in h.planners then 1 else 0) + (if a in h.routers then 1 else 0) <= 2
  }

  ghost predicate RunningOk(config: Config, stored: Stored, h: History, a: ActorId, current: Workflow, todo: seq<Write>) {
    && SnapshotOk(stored, current)
    && TodoOk(config, stored.row.userMessage, todo)
    && CreditOk(h, a, todo)
    && (todo != [] ==> Unsettled(current.row.status))
  }

  /** A count taken while the version held is the length of the log as long as it holds. */
  predicate CountOk(stored: Stored, current: Workflow, count: nat) {
    current.row.version == stored.row.version ==> count == |stored.events|
  }

  ghost predicate IsNextState(current: Workflow, todo: seq<Write>, next: Workflow) {
    todo != [] && exists now :: next == NextState(current, todo[0], now)
  }

  ghost predicate WaitingSnapshot(stored: Stored, current: Workflow) {
    SnapshotOk(stored, current) && current.row.status == WaitingForApproval
  }

  ghost predicate ActorOk(config: Config, stored: Stored, h: History, a: ActorId, actor: Actor) {
    match actor
    case Idle => a !in h.claimants
    case Claiming(candidate, claimedAt, byWorker) =>
      && a !in h.claimants
      && SnapshotOk(stored, candidate)
      && (if byWorker then Unsettled(candidate.row.status)
                           && (candidate.row.nextAttemptAt.None? || candidate.row.nextAttemptAt.value <= claimedAt)
          else candidate.row.status == Draft)
    case Claimed => a in h.claimants && a !in h.planners && a !in h.routers
    case Running(current, todo) => RunningOk(config, stored, h, a, current, todo)
    case VersionRead(current, next, todo) =>
      RunningOk(config, stored, h, a, current, todo) && IsNextState(current, todo, next)
    case EventsCounted(current, next, count, todo) =>
      RunningOk(config, stored, h, a, current, todo) && IsNextState(current, todo, next) && CountOk(stored, current, count)
    case Deciding(current, _) => WaitingSnapshot(stored, current)
    case NoDecisionSeen(current, _) => WaitingSnapshot(stored, current)
    case DecisionVersionRead(current, _) => WaitingSnapshot(stored, current)
    case DecisionCounted(current, _, count) => WaitingSnapshot(stored, current) && CountOk(stored, current, count)
    case DecisionLost(_) => true
    case Answered(decision) => |stored.decisions| == 1 && EqualsIgnoreCase(stored.decisions[0].decision, decision)
    case Stopped => true
  }

  ghost predicate Inv(config: Config, s: State) {
    && StoredOk(config, s.stored)
    && HistoryOk(config, s.stored, s.history)
    && forall a: ActorId :: ActorOk(config, s.stored, s.history, a, ActorAt(s, a))
  }

  // ---- one committed write ----

  /** How a stored workflow may change: not at all, or to the next version with a longer
      log and no fewer decisions. */
  ghost predicate Progress(before: Stored, after: Stored) {
    || after == before
    || (&& after.row.version == before.row.version + 1
        && after.row.userMessage == before.row.userMessage
        && Log(before.events) <= Log(after.events)
        && before.decisions <= after.decisions)
  }

  lemma AppendedLog(stored: Stored, events: Table, more: seq<Event>)
    requires LogOk(stored) && Dense(events) && Log(events) == Log(stored.events) + more
    ensures Replay(Log(events)) == ReplayFrom(stored.row.status, more)
    ensures Count(Log(events), IsSettling) == Count(Log(stored.events), IsSettling) + Count(more, IsSettling)
    ensures ClaimTimes(Log(events)) == ClaimTimes(Log(stored.events)) + ClaimTimes(more)
    ensures ClaimTimes(more) == [] ==> ClaimTimes(Log(events)) == ClaimTimes(Log(stored.events))
    ensures Log(stored.events) <= Log(events)
  {
    ReplayAppend(Draft, Log(stored.events), more);
    CountAppend(Log(stored.events), more, IsSettling);
    ClaimTimesAppend(Log(stored.events), more);
  }

  lemma OneEvent(status: Status, event: Event)
    ensures ReplayFrom(status, [event]) == StatusAfter(status, event.kind)
    ensures Count([event], IsSettling) == if IsSettling(event.kind) then 1 else 0
    ensures ClaimTimes([event]) == if IsClaim(event.kind) then [event.at] else []
  {
    assert [event][..0] == [];
    assert ReplayFrom(status, [event][..0]) == status;
    assert Count([event][..0], IsSettling) == 0 && ClaimTimes([event][..0]) == [];
  }

  /** The event of a claim or an exhaustion lands right after the log the candidate saw. */
  lemma CandidateEvent(stored: Stored, candidate: Workflow, event: Event)
    requires LogOk(stored) && SnapshotOk(stored, candidate) && StillCandidate(stored, candidate)
    ensures |candidate.events| == |stored.events| && |candidate.events| !in stored.events
    ensures var table := stored.events[|candidate.events| := event];
            Dense(table) && Log(table) == Log(stored.events) + [event]
  {
    DenseExtends(stored.events, event);
    AppendOne(stored.events, event);
  }

  /** The events of an update or a decision land right after the log the writer saw. */
  lemma WriterEvents(stored: Stored, current: Workflow, next: Workflow, count: nat)
    requires LogOk(stored) && SnapshotOk(stored, current) && CountOk(stored, current, count)
    requires current.row.version == stored.row.version && current.events <= next.events
    ensures var inserted := Insert(stored.events, next.events, count);
            && inserted.Some? && Dense(inserted.value)
            && Log(inserted.value) == next.events
            && Log(inserted.value) == Log(stored.events) + next.events[|current.events|..]
  {
    assert count == |stored.events| == |current.events|;
    InsertAppends(stored.events, next.events);
    assert next.events == current.events + next.events[|current.events|..];
  }

  // ---- claims and exhaustions ----

  lemma ExhaustKeepsStored(config: Config, stored: Stored, candidate: Workflow, at: int)
    requires StoredOk(config, stored)
    requires SnapshotOk(stored, candidate) && Unsettled(candidate.row.status)
    ensures !CommitExhaust(stored, candidate, at).IndexViolated?
    ensures CommitExhaust(stored, candidate, at).Committed? ==>
              var after := CommitExhaust(stored, candidate, at).stored;
              && StoredOk(config, after) && Progress(stored, after)
              && Unsettled(stored.row.status) && after.row.status == Failed
              && after.row.version == stored.row.version + 1
              && after.row.attempts == stored.row.attempts && after.row.nextAttemptAt == stored.row.nextAttemptAt
              && after.decisions == stored.decisions
              && Log(after.events) == Log(stored.events) + [Event(Abandoned, at)]
              && ClaimTimes(Log(after.events)) == ClaimTimes(Log(stored.events))
  {
    if StillCandidate(stored, candidate) {
      var event := Event(Abandoned, at);
      CandidateEvent(stored, candidate, event);
      AppendedLog(stored, stored.events[|candidate.events| := event], [event]);
      OneEvent(stored.row.status, event);
    }
  }

  /** Settling without a claim or a progress write takes exactly the one version reserved for it. */
  lemma SettlingKeepsHistory(config: Config, stored: Stored, h: History, after: Stored)
    requires HistoryOk(config, stored, h)
    requires Unsettled(stored.row.status) && !Unsettled(after.row.status)
    requires after.row.version == stored.row.version + 1
    requires after.row.attempts == stored.row.attempts && after.row.nextAttemptAt == stored.row.nextAttemptAt
    requires after.decisions == stored.decisions
    requires ClaimTimes(Log(after.events)) == ClaimTimes(Log(stored.events))
    ensures HistoryOk(config, after, h)
  {
  }

  lemma ClaimKeepsStored(config: Config, stored: Stored, candidate: Workflow, at: int, byWorker: bool)
    requires StoredOk(config, stored)
    requires SnapshotOk(stored, candidate) && Unsettled(candidate.row.status)
    ensures !CommitClaim(stored, candidate, at, byWorker, config.options).IndexViolated?
    ensures CommitClaim(stored, candidate, at, byWorker, config.options).Committed? ==>
              var after := CommitClaim(stored, candidate, at, byWorker, config.options).stored;
              && StoredOk(config, after) && Progress(stored, after)
              && after.row.status == Recovering
              && after.row == ClaimedRow(stored.row, stored.row, at, byWorker, config.options)
              && after.decisions == stored.decisions
              && Log(after.events) == Log(stored.events) + [Event(RecoveryClaimed, at)]
              && ClaimTimes(Log(after.events)) == ClaimTimes(Log(stored.events)) + [at]
  {
    if StillCandidate(stored, candidate) {
      var event := Event(RecoveryClaimed, at);
      CandidateEvent(stored, candidate, event);
      AppendedLog(stored, stored.events[|candidate.events| := event], [event]);
      OneEvent(stored.row.status, event);
    }
  }

  /** A claim that waited out the last delay keeps the claims spaced. */
  lemma SpacedClaim(options: RecoveryOptions, claims: seq<int>, at: int)
    requires Spaced(options, claims)
    requires NextAfter(options, claims).None? || NextAfter(options, claims).value <= at
    ensures Spaced(options, claims + [at])
    ensures NextAfter(options, claims + [at]) == Some(at + Delay(options, |claims| + 1))
  {
    assert (claims + [at])[..|claims|] == claims;
  }

  lemma ClaimKeepsCounts(config: Config, stored: Stored, h: History, a: ActorId, byWorker: bool, after: Stored, next: History)
    requires CountsOk(config, stored, h) && a !in h.claimants
    requires Unsettled(stored.row.status) && after.row.status == Recovering && stored.decisions == after.decisions
    requires after.row.version == stored.row.version + 1
    requires after.row.attempts == stored.row.attempts + (if byWorker then 1 else 0)
    requires if byWorker then stored.row.attempts < config.options.maxAttempts else stored.row.status == Draft
    requires next.claimants == h.claimants + {a} && next.planners == h.planners && next.routers == h.routers
    ensures CountsOk(config, after, next)
  {
    assert |h.claimants + {a}| == |h.claimants| + 1;
  }

  lemma ClaimKeepsSchedule(config: Config, stored: Stored, h: History, a: ActorId, at: int, byWorker: bool, after: Stored, next: History)
    requires ScheduleOk(config, stored, h) && a !in h.claimants && (!byWorker ==> h.claimants == {})
    requires after.row.attempts == stored.row.attempts + (if byWorker then 1 else 0)
    requires after.row.nextAttemptAt == if byWorker then Some(at + Delay(config.options, after.row.attempts)) else stored.row.nextAttemptAt
    requires byWorker ==> stored.row.nextAttemptAt.None? || stored.row.nextAttemptAt.value <= at
    requires ClaimTimes(Log(after.events)) == ClaimTimes(Log(stored.events)) + [at]
    requires next.claimants == h.claimants + {a}
    requires next.workerClaims == if byWorker then h.workerClaims + [at] else h.workerClaims
    ensures ScheduleOk(config, after, next)
  {
    assert |h.claimants + {a}| == |h.claimants| + 1;
    WorkersGrow(ClaimTimes(Log(stored.events)), h.workerClaims, at);
    if byWorker {
      SpacedClaim(config.options, h.workerClaims, at);
    }
  }

  lemma ClaimedColumns(row: Row, at: int, byWorker: bool, options: RecoveryOptions, after: Row)
    requires after == ClaimedRow(row, row, at, byWorker, options)
    ensures after.attempts == row.attempts + (if byWorker then 1 else 0)
    ensures after.nextAttemptAt == if byWorker then Some(at + Delay(options, after.attempts)) else row.nextAttemptAt
  {
  }

  /** A committed claim is one more claimant, and a worker's claim one more attempt that
      waited out the last delay. */
  lemma ClaimKeepsHistory(config: Config, stored: Stored, h: History, a: ActorId, at: int, byWorker: bool, after: Stored)
    requires HistoryOk(config, stored, h) && a !in h.claimants
    requires Unsettled(stored.row.status) && stored.decisions == after.decisions
    requires after.row == ClaimedRow(stored.row, stored.row, at, byWorker, config.options)
    requires ClaimTimes(Log(after.events)) == ClaimTimes(Log(stored.events)) + [at]
    requires if byWorker then stored.row.attempts < config.options.maxAttempts
                              && (stored.row.nextAttemptAt.None? || stored.row.nextAttemptAt.value <= at)
             else stored.row.status == Draft
    ensures var next := h.(claimants := h.claimants + {a}, workerClaims := if byWorker then h.workerClaims + [at] else h.workerClaims);
            HistoryOk(config, after, next)
  {
    var next := h.(claimants := h.claimants + {a}, workerClaims := if byWorker then h.workerClaims + [at] else h.workerClaims);
    ClaimKeepsCounts(config, stored, h, a, byWorker, after, next);
    ClaimedColumns(stored.row, at, byWorker, config.options, after.row);
    ClaimKeepsSchedule(config, stored, h, a, at, byWorker, after, next);
  }

  // ---- updates ----

  lemma StampedProgress(kinds: seq<EventKind>, now: int)
    requires ProgressOnly(kinds)
    ensures forall i | 0 <= i < |kinds| :: IsProgress(Stamp(kinds, now)[i].kind)
  {
  }

  lemma ClosingEffect(status: Status, write: Write, now: int)
    requires Unsettled(status)
    ensures var closing := Stamp(ClosingEvents(write), now);
            && ReplayFrom(status, closing) == EffectOf(status, write)
            && Count(closing, IsSettling) == (if Settles(write) then 1 else 0)
            && ClaimTimes(closing) == []
  {
    var closing := Stamp(ClosingEvents(write), now);
    if Settles(write) {
      assert closing == [Event(ClosingEvents(write)[0], now)];
      OneEvent(status, closing[0]);
    } else {
      assert closing == [];
    }
  }

  function EffectOf(status: Status, write: Write): Status {
    match write
    case Advance(_) => status
    case Fail(_) => Failed
    case Finish(_, _, gate) => if gate then WaitingForApproval else Completed
  }

  /** What the events of one write do to the status and the counts. */
  lemma WriteEvents(status: Status, write: Write, now: int)
    requires ProgressOnly(write.events) && Unsettled(status)
    ensures ReplayFrom(status, NewEvents(write, now)) == EffectOf(status, write)
    ensures Count(NewEvents(write, now), IsSettling) == if Settles(write) then 1 else 0
    ensures ClaimTimes(NewEvents(write, now)) == []
  {
    var progress := Stamp(write.events, now);
    var closing := Stamp(ClosingEvents(write), now);
    assert NewEvents(write, now) == progress + closing;
    StampedProgress(write.events, now);
    ProgressKeeps(status, progress);
    ClosingEffect(status, write, now);
    ReplayAppend(status, progress, closing);
    CountAppend(progress, closing, IsSettling);
    ClaimTimesAppend(progress, closing);
  }

  /** An update that commits stores exactly the writer's state, on top of the log it read. */
  lemma UpdateCommits(stored: Stored, current: Workflow, write: Write, now: int, count: nat)
    requires LogOk(stored)
    requires SnapshotOk(stored, current) && CountOk(stored, current, count)
    ensures var commit := CommitUpdate(stored, NextState(current, write, now), current.row.version, count);
            && !commit.IndexViolated?
            && (commit.Committed? <==> stored.row.version == current.row.version)
            && (commit.Committed? ==>
                  && MapToDomain(commit.stored) == NextState(current, write, now)
                  && Dense(commit.stored.events)
                  && Log(commit.stored.events) == Log(stored.events) + NewEvents(write, now)
                  && commit.stored.decisions == stored.decisions
                  && commit.stored.actions == stored.actions && commit.stored.cases == stored.cases)
  {
    if stored.row.version == current.row.version {
      var next := NextState(current, write, now);
      assert next.events == current.events + NewEvents(write, now);
      assert next.events[|current.events|..] == NewEvents(write, now);
      WriterEvents(stored, current, next, count);
    }
  }

  lemma UpdateKeepsStored(config: Config, stored: Stored, current: Workflow, write: Write, now: int, count: nat)
    requires StoredOk(config, stored)
    requires SnapshotOk(stored, current) && CountOk(stored, current, count) && Unsettled(current.row.status)
    requires ProgressOnly(write.events)
    requires Gated(config, stored.row.userMessage) && write.Finish? ==> write.requiresApproval
    requires stored.row.version == current.row.version
    ensures var commit := CommitUpdate(stored, NextState(current, write, now), current.row.version, count);
            && commit.Committed?
            && var after := commit.stored;
               && StoredOk(config, after) && Progress(stored, after)
               && (Unsettled(after.row.status) <==> write.Advance?)
               && ClaimTimes(Log(after.events)) == ClaimTimes(Log(stored.events))
  {
    UpdateCommits(stored, current, write, now, count);
    var after := CommitUpdate(stored, NextState(current, write, now), current.row.version, count).stored;
    WriteEvents(stored.row.status, write, now);
    UpdatedStored(config, stored, write, now, after);
  }

  /** Status and gate after an update: progress, a failure, a closed gate, or an open one. */
  predicate UpdateOutcome(before: Row, after: Row, ungated: bool) {
    || (after.status == before.status && after.requiresApproval == before.requiresApproval)
    || (after.status == Failed && after.requiresApproval == before.requiresApproval)
    || (after.status == WaitingForApproval && after.requiresApproval)
    || (after.status == Completed && !after.requiresApproval && ungated)
  }

  /** The status a write leaves is settled unless the write only advances. */
  lemma UpdatedStatus(current: Workflow, write: Write, now: int)
    requires Unsettled(current.row.status)
    ensures var next := NextState(current, write, now).row;
            && (Unsettled(next.status) <==> write.Advance?)
            && next.userMessage == current.row.userMessage && next.version == current.row.version + 1
            && next.approvalDecision == current.row.approvalDecision
            && UpdateOutcome(current.row, next, write.Finish? && !write.requiresApproval)
  {
  }

  lemma UpdatedStored(config: Config, stored: Stored, write: Write, now: int, after: Stored)
    requires StoredOk(config, stored) && Unsettled(stored.row.status)
    requires Gated(config, stored.row.userMessage) && write.Finish? ==> write.requiresApproval
    requires after.row == NextState(MapToDomain(stored), write, now).row
    requires Dense(after.events) && Log(after.events) == Log(stored.events) + NewEvents(write, now)
    requires after.decisions == stored.decisions && after.actions == stored.actions && after.cases == stored.cases
    requires ReplayFrom(stored.row.status, NewEvents(write, now)) == after.row.status
    requires Count(NewEvents(write, now), IsSettling) == if Settles(write) then 1 else 0
    requires ClaimTimes(NewEvents(write, now)) == []
    ensures StoredOk(config, after) && Progress(stored, after)
    ensures Unsettled(after.row.status) <==> write.Advance?
    ensures ClaimTimes(Log(after.events)) == ClaimTimes(Log(stored.events))
  {
    UpdatedStatus(MapToDomain(stored), write, now);
    UpdatedRows(config, stored, after, NewEvents(write, now), Settles(write));
  }

  /** The same with the write reduced to what it did to the row. */
  lemma UpdatedRows(config: Config, stored: Stored, after: Stored, more: seq<Event>, settles: bool)
    requires StoredOk(config, stored) && Unsettled(stored.row.status)
    requires (Unsettled(after.row.status) <==> !settles)
    requires after.row.userMessage == stored.row.userMessage && after.row.version == stored.row.version + 1
    requires after.row.approvalDecision == stored.row.approvalDecision
    requires UpdateOutcome(stored.row, after.row, !Gated(config, stored.row.userMessage))
    requires Dense(after.events) && Log(after.events) == Log(stored.events) + more
    requires after.decisions == stored.decisions && after.actions == stored.actions && after.cases == stored.cases
    requires ReplayFrom(stored.row.status, more) == after.row.status
    requires Count(more, IsSettling) == (if settles then 1 else 0) && ClaimTimes(more) == []
    ensures StoredOk(config, after) && Progress(stored, after)
    ensures ClaimTimes(Log(after.events)) == ClaimTimes(Log(stored.events))
  {
    AppendedLog(stored, after.events, more);
  }

  /** The progress write spends one of the two credits its claim gave. */
  lemma UpdateKeepsHistory(config: Config, stored: Stored, h: History, a: ActorId, todo: seq<Write>, after: Stored, next: History)
    requires HistoryOk(config, stored, h) && CreditOk(h, a, todo) && todo != []
    requires Unsettled(stored.row.status) && (Unsettled(after.row.status) <==> todo[0].Advance?)
    requires todo[0].Advance? ==> after.row.status == stored.row.status
    requires after.row.status != Draft || after.row.status == stored.row.status
    requires after.decisions == stored.decisions
    requires after.row.attempts == stored.row.attempts && after.row.nextAttemptAt == stored.row.nextAttemptAt
    requires after.row.version == stored.row.version + 1
    requires ClaimTimes(Log(after.events)) == ClaimTimes(Log(stored.events))
    requires next == if Settles(todo[0]) then h
                     else if a in h.planners then h.(routers := h.routers + {a})
                     else h.(planners := h.planners + {a})
    ensures HistoryOk(config, after, next)
    ensures CreditOk(next, a, todo[1..])
  {
    if todo[0].Advance? {
      if a in h.planners {
        assert a !in h.routers;
        assert |h.routers + {a}| == |h.routers| + 1;
      } else {
        assert |h.planners + {a}| == |h.planners| + 1;
      }
    }
  }

  // ---- decisions ----

  lemma DecisionEventsReplay(message: string, verdict: Verdict)
    ensures var more := Stamp(DecisionEvents(message, verdict), verdict.at);
            && ReplayFrom(WaitingForApproval, more) == (if IsApprove(verdict.decision) then Completed else Rejected)
            && Count(more, IsSettling) == 0 && ClaimTimes(more) == []
  {
    var first := Event(ApprovalGiven(verdict.decision), verdict.at);
    var more := Stamp(DecisionEvents(message, verdict), verdict.at);
    OneEvent(WaitingForApproval, first);
    if OpensCase(message, verdict.decision) {
      var second := Event(ActionCompleted, verdict.at);
      assert more == [first] + [second];
      OneEvent(StatusAfter(WaitingForApproval, first.kind), second);
      ReplayAppend(WaitingForApproval, [first], [second]);
      CountAppend([first], [second], IsSettling);
      ClaimTimesAppend([first], [second]);
    } else {
      assert more == [first];
    }
  }

  /** The transaction of a decision on the workflow it was taken on. */
  lemma DecisionCommits(config: Config, stored: Stored, current: Workflow, verdict: Verdict, count: nat)
    requires StoredOk(config, stored) && WaitingSnapshot(stored, current) && CountOk(stored, current, count)
    requires stored.row.version == current.row.version
    ensures var commit := DecisionCommit(stored, current, verdict, count);
            var opens := OpensCase(stored.row.userMessage, verdict.decision);
            && commit.Committed?
            && var after := commit.stored;
               && after.row == DecidedState(current, verdict).row
               && Dense(after.events) && Log(after.events) == DecidedState(current, verdict).events
               && Log(after.events) == Log(stored.events) + Stamp(DecisionEvents(stored.row.userMessage, verdict), verdict.at)
               && after.decisions == [Decision(verdict.decision, verdict.reason, verdict.at)]
               && |after.actions| == |after.cases| == if opens then 1 else 0
  {
    var next := DecidedState(current, verdict);
    var more := Stamp(DecisionEvents(current.row.userMessage, verdict), verdict.at);
    assert current == MapToDomain(stored);
    assert next.events[|current.events|..] == more;
    WriterEvents(stored, current, next, count);
  }

  lemma DecidedStored(config: Config, stored: Stored, verdict: Verdict, after: Stored)
    requires StoredOk(config, stored) && stored.row.status == WaitingForApproval
    requires after.row == DecidedState(MapToDomain(stored), verdict).row
    requires Dense(after.events)
    requires Log(after.events) == Log(stored.events) + Stamp(DecisionEvents(stored.row.userMessage, verdict), verdict.at)
    requires after.decisions == [Decision(verdict.decision, verdict.reason, verdict.at)]
    requires |after.actions| == |after.cases| == if OpensCase(stored.row.userMessage, verdict.decision) then 1 else 0
    ensures StoredOk(config, after) && Progress(stored, after)
    ensures ClaimTimes(Log(after.events)) == ClaimTimes(Log(stored.events))
  {
    AppendedLog(stored, after.events, Stamp(DecisionEvents(stored.row.userMessage, verdict), verdict.at));
    DecisionEventsReplay(stored.row.userMessage, verdict);
  }

  /** A decision commits only on a workflow that waits and has none yet, so the three unique
      indexes stay silent. */
  lemma DecisionKeeps(config: Config, stored: Stored, h: History, current: Workflow, verdict: Verdict, count: nat)
    requires StoredOk(config, stored) && HistoryOk(config, stored, h)
    requires WaitingSnapshot(stored, current) && CountOk(stored, current, count)
    ensures var commit := DecisionCommit(stored, current, verdict, count);
            && !commit.IndexViolated?
            && (commit.Committed? ==>
                  var after := commit.stored;
                  && StoredOk(config, after) && HistoryOk(config, after, h) && Progress(stored, after)
                  && stored.row.status == WaitingForApproval
                  && after.decisions == [Decision(verdict.decision, verdict.reason, verdict.at)]
                  && MapToDomain(after) == DecidedState(current, verdict)
                  && Log(after.events) == Log(stored.events) + Stamp(DecisionEvents(stored.row.userMessage, verdict), verdict.at))
  {
    if stored.row.version == current.row.version {
      DecisionCommits(config, stored, current, verdict, count);
      DecidedStored(config, stored, verdict, DecisionCommit(stored, current, verdict, count).stored);
    }
  }

  // ---- one step of one actor ----

  /** What the acting actor's step leaves behind. */
  ghost predicate StepOk(config: Config, stored: Stored, h: History, a: ActorId, actor: Actor, outcome: (Stored, Actor)) {
    var next := Remember(h, a, actor, stored, outcome.0);
    && StoredOk(config, outcome.0)
    && HistoryOk(config, outcome.0, next)
    && ActorOk(config, outcome.0, next, a, outcome.1)
    && Progress(stored, outcome.0)
  }

  lemma CommittedExhaustStep(config: Config, stored: Stored, h: History, a: ActorId, actor: Actor)
    requires StoredOk(config, stored) && HistoryOk(config, stored, h) && ActorOk(config, stored, h, a, actor)
    requires actor.Claiming? && actor.byWorker
    requires CommitExhaust(stored, actor.candidate, actor.claimedAt).Committed?
    ensures StepOk(config, stored, h, a, actor, (CommitExhaust(stored, actor.candidate, actor.claimedAt).stored, Stopped))
  {
    var after := CommitExhaust(stored, actor.candidate, actor.claimedAt).stored;
    ExhaustKeepsStored(config, stored, actor.candidate, actor.claimedAt);
    SettlingKeepsHistory(config, stored, h, after);
    assert Remember(h, a, actor, stored, after) == h;
  }

  lemma ExhaustStep(config: Config, stored: Stored, h: History, a: ActorId, actor: Actor)
    requires StoredOk(config, stored) && HistoryOk(config, stored, h) && ActorOk(config, stored, h, a, actor)
    requires actor.Claiming? && actor.byWorker
    ensures StepOk(config, stored, h, a, actor,
              Settled(CommitExhaust(stored, actor.candidate, actor.claimedAt), stored, Stopped, Stopped))
  {
    if CommitExhaust(stored, actor.candidate, actor.claimedAt).Committed? {
      CommittedExhaustStep(config, stored, h, a, actor);
    }
  }

  lemma ClaimIsRemembered(h: History, a: ActorId, actor: Actor, before: Stored, after: Stored)
    requires actor.Claiming? && after.row.version == before.row.version + 1 && after.row.status == Recovering
    ensures Remember(h, a, actor, before, after)
         == h.(claimants := h.claimants + {a}, workerClaims := if actor.byWorker then h.workerClaims + [actor.claimedAt] else h.workerClaims)
  {
  }

  lemma CommittedClaimStep(config: Config, stored: Stored, h: History, a: ActorId, actor: Actor)
    requires StoredOk(config, stored) && HistoryOk(config, stored, h) && ActorOk(config, stored, h, a, actor)
    requires actor.Claiming? && (actor.byWorker ==> actor.candidate.row.attempts < config.options.maxAttempts)
    requires CommitClaim(stored, actor.candidate, actor.claimedAt, actor.byWorker, config.options).Committed?
    ensures StepOk(config, stored, h, a, actor,
              (CommitClaim(stored, actor.candidate, actor.claimedAt, actor.byWorker, config.options).stored, Claimed))
  {
    var after := CommitClaim(stored, actor.candidate, actor.claimedAt, actor.byWorker, config.options).stored;
    assert StillCandidate(stored, actor.candidate) && actor.candidate == MapToDomain(stored);
    ClaimKeepsStored(config, stored, actor.candidate, actor.claimedAt, actor.byWorker);
    ClaimKeepsHistory(config, stored, h, a, actor.claimedAt, actor.byWorker, after);
    ClaimIsRemembered(h, a, actor, stored, after);
    assert a !in h.planners && a !in h.routers;
  }

  lemma ClaimStep(config: Config, stored: Stored, h: History, a: ActorId, actor: Actor)
    requires StoredOk(config, stored) && HistoryOk(config, stored, h) && ActorOk(config, stored, h, a, actor)
    requires actor.Claiming? && (actor.byWorker ==> actor.candidate.row.attempts < config.options.maxAttempts)
    ensures StepOk(config, stored, h, a, actor,
              Settled(CommitClaim(stored, actor.candidate, actor.claimedAt, actor.byWorker, config.options), stored, Claimed, Stopped))
  {
    if CommitClaim(stored, actor.candidate, actor.claimedAt, actor.byWorker, config.options).Committed? {
      CommittedClaimStep(config, stored, h, a, actor);
    }
  }

  lemma ClaimingStep(config: Config, stored: Stored, h: History, a: ActorId, actor: Actor)
    requires StoredOk(config, stored) && HistoryOk(config, stored, h) && ActorOk(config, stored, h, a, actor)
    requires actor.Claiming?
    ensures StepOk(config, stored, h, a, actor, ActClaiming(config, stored, actor))
  {
    if actor.byWorker && actor.candidate.row.attempts >= config.options.maxAttempts {
      ExhaustStep(config, stored, h, a, actor);
    } else {
      ClaimStep(config, stored, h, a, actor);
    }
  }

  lemma UpdateStep(config: Config, stored: Stored, h: History, a: ActorId, actor: Actor)
    requires StoredOk(config, stored) && HistoryOk(config, stored, h) && ActorOk(config, stored, h, a, actor)
    requires actor.EventsCounted? && actor.todo != []
    ensures StepOk(config, stored, h, a, actor, ActUpdate(stored, actor))
  {
    var current, todo, count := actor.current, actor.todo, actor.count;
    var now :| actor.next == NextState(current, todo[0], now);
    UpdateCommits(stored, current, todo[0], now, count);
    if stored.row.version == current.row.version {
      UpdateKeepsStored(config, stored, current, todo[0], now, count);
      var after := CommitUpdate(stored, actor.next, current.row.version, count).stored;
      UpdateKeepsHistory(config, stored, h, a, todo, after, Remember(h, a, actor, stored, after));
      TodoTail(config, stored.row.userMessage, todo);
    }
  }

  lemma TodoTail(config: Config, message: string, todo: seq<Write>)
    requires TodoOk(config, message, todo) && todo != []
    ensures TodoOk(config, message, todo[1..])
    ensures todo[1..] != [] ==> todo[0].Advance?
  {
  }

  lemma DecisionStep(config: Config, stored: Stored, h: History, a: ActorId, actor: Actor)
    requires StoredOk(config, stored) && HistoryOk(config, stored, h) && ActorOk(config, stored, h, a, actor)
    requires actor.DecisionCounted?
    ensures StepOk(config, stored, h, a, actor,
              Settled(DecisionCommit(stored, actor.current, actor.verdict, actor.count), stored,
                      Actor.Answered(actor.verdict.decision), DecisionLost(actor.verdict)))
  {
    DecisionKeeps(config, stored, h, actor.current, actor.verdict, actor.count);
  }

  lemma ProducibleOk(config: Config, workflow: Workflow, writes: seq<Write>)
    requires Producible(config, workflow, writes)
    ensures WellShaped(writes) && TodoOk(config, workflow.row.userMessage, writes) && Advances(writes) <= 2
  {
    var world: Orchestrator.World :|
      && (config.hostedPlanner ==> EndToEnd.PlannerIsHosted(workflow.row.userMessage, world.planner))
      && writes == RoutingWrites(workflow, world);
    RunsAreWellShaped(workflow, world);
    if Gated(config, workflow.row.userMessage) {
      EndToEnd.GateHoldsForEveryAnswer(workflow, world);
    }
    AdvancesOfShaped(writes);
  }

  lemma {:induction false} AdvancesOfShaped(writes: seq<Write>)
    requires WellShaped(writes)
    ensures Advances(writes) <= 2
  {
    if |writes| > 0 {
      assert Advances(writes) == (if writes[0].Advance? then 1 else 0) + Advances(writes[1..]);
      if |writes| > 1 {
        assert Advances(writes[1..]) == (if writes[1].Advance? then 1 else 0) + Advances(writes[1..][1..]);
        if |writes| > 2 {
          assert Advances(writes[1..][1..]) == (if writes[2].Advance? then 1 else 0) + Advances(writes[1..][1..][1..]);
        }
      }
    }
  }
}
