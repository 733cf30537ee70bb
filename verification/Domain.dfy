/** The workflow record and its event log (src/domain/WorkflowState.cs). */
module Domain {
  import opened Wrappers
  import opened Text

  type WorkflowId = nat

  datatype Status = Draft | Recovering | WaitingForApproval | Approved | Rejected | Completed | Failed

  /** The event types the code writes, each with the data a property needs. */
  datatype EventKind =
    | Started
    | DemoScenario(scenarioId: string)
    | RecoveryClaimed
    | ProfileRecalled(preferences: seq<string>)
    | Planned
    | RouteFallback(reason: string)
    | RouteDisagreement
    | RouteSelected(agent: string, approval: bool)
    | ChannelUnavailable(channel: Option<string>)
    | SpecialistInvoked
    | ApprovalRequired
    | CompletedWithoutApproval
    | RoutingFailed
    | Abandoned
    | ApprovalGiven(decision: string)
    | ActionCompleted

  datatype Event = Event(kind: EventKind, at: int)

  /** The scalar columns of one workflow. Times are seconds on the UTC line. */
  datatype Row = Row(
    id: WorkflowId,
    userMessage: string,
    customerId: Option<string>,
    createdAt: int,
    status: Status,
    intent: Option<string>,
    requiresApproval: bool,
    approvalDecision: Option<string>,
    approvalReason: Option<string>,
    updatedAt: int,
    version: nat,
    attempts: nat,
    nextAttemptAt: Option<int>,
    lastErrorCode: Option<string>)

  /** WorkflowState: the columns and the events in order. */
  datatype Workflow = Workflow(row: Row, events: seq<Event>)

  predicate IsApprove(decision: string) {
    EqualsIgnoreCase(decision, "approve")
  }

  predicate Unsettled(status: Status) {
    status == Draft || status == Recovering
  }

  /** Draft and Recovering end exactly with these events. */
  predicate IsSettling(kind: EventKind) {
    kind.ApprovalRequired? || kind.CompletedWithoutApproval? || kind.RoutingFailed? || kind.Abandoned?
  }

  predicate IsClaim(kind: EventKind) {
    kind.RecoveryClaimed?
  }

  /** Events that record progress and move no status. */
  predicate IsProgress(kind: EventKind) {
    !IsSettling(kind) && !IsClaim(kind) && !kind.ApprovalGiven?
  }

  /** The status an event leaves behind. */
  function StatusAfter(status: Status, kind: EventKind): Status {
    match kind
    case RecoveryClaimed => Recovering
    case ApprovalRequired => WaitingForApproval
    case CompletedWithoutApproval => Completed
    case RoutingFailed => Failed
    case Abandoned => Failed
    case ApprovalGiven(decision) => if IsApprove(decision) then Completed else Rejected
    case _ => status
  }

  function ReplayFrom(status: Status, log: seq<Event>): Status
    decreases |log|
  {
    if log == [] then status else StatusAfter(ReplayFrom(status, log[..|log| - 1]), log[|log| - 1].kind)
  }

  /** The status the event log tells, read from the start. */
  function Replay(log: seq<Event>): Status {
    ReplayFrom(Draft, log)
  }

  function Count(log: seq<Event>, p: EventKind -> bool): nat {
    if log == [] then 0
    else Count(log[..|log| - 1], p) + if p(log[|log| - 1].kind) then 1 else 0
  }

  /** The times of the claims in a log, in order. */
  function ClaimTimes(log: seq<Event>): seq<int> {
    if log == [] then []
    else ClaimTimes(log[..|log| - 1]) + if IsClaim(log[|log| - 1].kind) then [log[|log| - 1].at] else []
  }

  lemma {:induction false} ClaimsAreCounted(log: seq<Event>)
    ensures Count(log, IsClaim) == |ClaimTimes(log)|
    decreases |log|
  {
    if log != [] {
      ClaimsAreCounted(log[..|log| - 1]);
    }
  }

  lemma {:induction false} ClaimTimesAppend(log: seq<Event>, more: seq<Event>)
    ensures ClaimTimes(log + more) == ClaimTimes(log) + ClaimTimes(more)
    decreases |more|
  {
    if more == [] {
      assert log + more == log;
    } else {
      assert (log + more)[..|log + more| - 1] == log + more[..|more| - 1];
      ClaimTimesAppend(log, more[..|more| - 1]);
    }
  }

  lemma {:induction false} ReplayAppend(status: Status, log: seq<Event>, more: seq<Event>)
    ensures ReplayFrom(status, log + more) == ReplayFrom(ReplayFrom(status, log), more)
    decreases |more|
  {
    if more == [] {
      assert log + more == log;
    } else {
      assert (log + more)[..|log + more| - 1] == log + more[..|more| - 1];
      ReplayAppend(status, log, more[..|more| - 1]);
    }
  }

  lemma {:induction false} CountAppend(log: seq<Event>, more: seq<Event>, p: EventKind -> bool)
    ensures Count(log + more, p) == Count(log, p) + Count(more, p)
    decreases |more|
  {
    if more == [] {
      assert log + more == log;
    } else {
      assert (log + more)[..|log + more| - 1] == log + more[..|more| - 1];
      CountAppend(log, more[..|more| - 1], p);
    }
  }

  /** Progress events leave the status, the claims and the settlements alone. */
  lemma {:induction false} ProgressKeeps(status: Status, more: seq<Event>)
    requires forall i | 0 <= i < |more| :: IsProgress(more[i].kind)
    ensures ReplayFrom(status, more) == status
    ensures Count(more, IsSettling) == 0 && ClaimTimes(more) == []
    decreases |more|
  {
    if more != [] {
      ProgressKeeps(status, more[..|more| - 1]);
    }
  }
}
