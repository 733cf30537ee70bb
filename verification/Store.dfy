/** One workflow as the database holds it, and the transactions the repositories
    commit against it. A transaction is atomic: it returns the row it found with the
    new row in place, or says why it rolled back. */
module Store {
  import opened Wrappers
  import opened Domain
  import opened EventTable
  import opened Powers

  datatype Decision = Decision(decision: string, reason: string, at: int)

  /** Keyed by the workflow, as the idempotency key and the case number are. */
  datatype ActionExecution = ActionExecution(idempotencyKey: WorkflowId, at: int)

  datatype SupportCase = SupportCase(caseNumber: WorkflowId, at: int)

  datatype Stored = Stored(
    row: Row,
    events: Table,
    decisions: seq<Decision>,
    actions: seq<ActionExecution>,
    cases: seq<SupportCase>)

  datatype Commit =
    | Committed(stored: Stored)
    | NoRowMatched           // the conditional update affected no row
    | IndexViolated          // a unique index refused an insert

  /** The recovery worker's options after WorkflowRecoveryWorker.Validate. */
  datatype RecoveryOptions = RecoveryOptions(maxAttempts: nat, backoffBase: nat, backoffMax: nat)

  predicate ValidOptions(options: RecoveryOptions) {
    && 1 <= options.maxAttempts <= 100
    && 1 <= options.backoffBase <= 3600
    && options.backoffBase <= options.backoffMax <= 86400
  }

  function MapToDomain(stored: Stored): Workflow {
    Workflow(stored.row, Log(stored.events))
  }

  function MapToEntity(workflow: Workflow): Stored {
    Stored(workflow.row, ToTable(workflow.events), [], [], [])
  }

  lemma MappingRoundTrip(workflow: Workflow)
    ensures MapToDomain(MapToEntity(workflow)) == workflow
  {
    RoundTrip(workflow.events);
  }

  // ---- WorkflowService.StartCoreAsync ----

  /** The Draft that is persisted before any agent is invoked. */
  function NewDraft(id: WorkflowId, message: string, customerId: Option<string>, scenario: Option<string>, now: int): Workflow {
    Workflow(
      Row(id, message, customerId, now, Draft, None, false, None, None, now, 0, 0, None, None),
      [Event(Started, now)]
      + if scenario.Some? then [Event(DemoScenario(scenario.value), now)] else [])
  }

  // ---- EfWorkflowRepository.UpdateAsync ----

  /** The columns UpdateAsync writes; the others keep the stored value. */
  function UpdatedRow(row: Row, workflow: Row): Row {
    row.(status := workflow.status,
         intent := workflow.intent,
         requiresApproval := workflow.requiresApproval,
         approvalDecision := workflow.approvalDecision,
         approvalReason := workflow.approvalReason,
         updatedAt := workflow.updatedAt,
         attempts := workflow.attempts,
         nextAttemptAt := workflow.nextAttemptAt,
         lastErrorCode := workflow.lastErrorCode,
         version := workflow.version)
  }

  function CommitUpdate(stored: Stored, workflow: Workflow, expectedVersion: nat, eventCount: nat): Commit {
    if stored.row.version != expectedVersion then NoRowMatched
    else
      var table := Insert(stored.events, workflow.events, eventCount);
      if table.None? then IndexViolated
      else Committed(stored.(row := UpdatedRow(stored.row, workflow.row), events := table.value))
  }

  // ---- EfWorkflowRepository.ClaimNextAsync / ClaimAsync ----

  /** min(base * 2^min(count - 1, 8), max). */
  function Delay(options: RecoveryOptions, attempt: nat): nat
    requires attempt >= 1
  {
    var doubled := Shifted(options.backoffBase, if attempt - 1 <= 8 then attempt - 1 else 8);
    if doubled <= options.backoffMax then doubled else options.backoffMax
  }

  /** base * (1 << exponent). */
  function Shifted(base: nat, exponent: nat): nat {
    if exponent == 0 then base else 2 * Shifted(base, exponent - 1)
  }

  /** Candidates of a worker scan. */
  predicate IsEligible(row: Row, staleBefore: int, claimedAt: int) {
    && Unsettled(row.status)
    && row.updatedAt <= staleBefore
    && (row.nextAttemptAt.None? || row.nextAttemptAt.value <= claimedAt)
  }

  /** The conditional update of a claim or an exhaustion still finds the candidate's row. */
  predicate StillCandidate(stored: Stored, candidate: Workflow) {
    stored.row.version == candidate.row.version && stored.row.status == candidate.row.status
  }

  function ClaimedRow(row: Row, candidate: Row, claimedAt: int, byWorker: bool, options: RecoveryOptions): Row {
    row.(status := Recovering,
         updatedAt := claimedAt,
         attempts := if byWorker then candidate.attempts + 1 else candidate.attempts,
         nextAttemptAt := if byWorker then Some(claimedAt + Delay(options, candidate.attempts + 1))
                          else candidate.nextAttemptAt,
         lastErrorCode := candidate.lastErrorCode,
         version := candidate.version + 1)
  }

  function CommitOneEvent(stored: Stored, candidate: Workflow, row: Row, kind: EventKind, at: int): Commit {
    if !StillCandidate(stored, candidate) then NoRowMatched
    else if |candidate.events| in stored.events then IndexViolated
    else Committed(stored.(row := row, events := stored.events[|candidate.events| := Event(kind, at)]))
  }

  function CommitClaim(stored: Stored, candidate: Workflow, claimedAt: int, byWorker: bool, options: RecoveryOptions): Commit {
    CommitOneEvent(stored, candidate,
      ClaimedRow(stored.row, candidate.row, claimedAt, byWorker, options), RecoveryClaimed, claimedAt)
  }

  function CommitExhaust(stored: Stored, candidate: Workflow, failedAt: int): Commit {
    CommitOneEvent(stored, candidate,
      stored.row.(status := Failed,
                  updatedAt := failedAt,
                  lastErrorCode := Some("workflow_recovery_attempts_exhausted"),
                  version := candidate.row.version + 1),
      Abandoned, failedAt)
  }

  // ---- EfWorkflowActionRepository.RecordDecisionAsync ----

  function DecidedRow(row: Row, workflow: Row): Row {
    row.(status := workflow.status,
         approvalDecision := workflow.approvalDecision,
         approvalReason := workflow.approvalReason,
         updatedAt := workflow.updatedAt,
         version := workflow.version)
  }

  /** The decision row, and for a dispute the action and the case beside it. Each of
      the three tables has a unique index on the workflow. */
  function CommitDecision(stored: Stored, workflow: Workflow, decision: Decision,
                          action: Option<ActionExecution>, supportCase: Option<SupportCase>,
                          expectedVersion: nat, eventCount: nat): Commit {
    if stored.row.version != expectedVersion then NoRowMatched
    else
      var table := Insert(stored.events, workflow.events, eventCount);
      if table.None? || stored.decisions != []
         || (action.Some? && stored.actions != []) || (supportCase.Some? && stored.cases != [])
      then IndexViolated
      else Committed(Stored(
        DecidedRow(stored.row, workflow.row),
        table.value,
        stored.decisions + [decision],
        stored.actions + (if action.Some? then [action.value] else []),
        stored.cases + (if supportCase.Some? then [supportCase.value] else [])))
  }

  // ---- facts about the back-off ----

  lemma {:induction false} ShiftedIsProduct(base: nat, exponent: nat)
    ensures Shifted(base, exponent) == base * Power2(exponent)
  {
    if exponent > 0 {
      ShiftedIsProduct(base, exponent - 1);
    }
  }

  lemma {:induction false} ShiftedGrows(base: nat, exponent: nat)
    ensures base <= Shifted(base, exponent) <= Shifted(base, exponent + 1)
  {
    if exponent > 0 {
      ShiftedGrows(base, exponent - 1);
    }
  }

  lemma ShiftedUpTo8(base: nat, exponent: nat)
    requires exponent <= 8
    ensures base <= Shifted(base, exponent) <= 256 * base
  {
    ShiftedGrows(base, exponent);
    assert Shifted(base, 1) == 2 * base && Shifted(base, 3) == 8 * base && Shifted(base, 5) == 32 * base && Shifted(base, 7) == 128 * base;
  }

  /** The worker's option bounds keep the product base * (1 << exponent) inside a
      32-bit integer, so the delay is never a wrapped number, and keep it positive. */
  lemma DelayFitsInt32(options: RecoveryOptions, attempt: nat)
    requires ValidOptions(options) && attempt >= 1
    ensures options.backoffBase * Power2(if attempt - 1 <= 8 then attempt - 1 else 8) < 0x8000_0000
    ensures options.backoffBase <= Delay(options, attempt) <= options.backoffMax
    ensures Delay(options, attempt)
         == Lesser(options.backoffMax, options.backoffBase * Power2(if attempt - 1 <= 8 then attempt - 1 else 8))
  {
    DelayIsWait(options, attempt);
    var exponent := if attempt - 1 <= 8 then attempt - 1 else 8;
    ShiftedIsProduct(options.backoffBase, exponent);
    ShiftedUpTo8(options.backoffBase, exponent);
  }

  /** Successive delays never shrink. */
  lemma DelayGrows(options: RecoveryOptions, attempt: nat)
    requires attempt >= 1
    ensures Delay(options, attempt) <= Delay(options, attempt + 1)
  {
    var e := if attempt - 1 <= 8 then attempt - 1 else 8;
    if e < 8 {
      ShiftedGrows(options.backoffBase, e);
    }
  }

  function Lesser(a: nat, b: nat): nat {
    if a <= b then a else b
  }

  /** The wait before the attempt after this one, as a number: the lesser of the maximum and
      base * 2^min(attempt - 1, 8). */
  function Wait(options: RecoveryOptions, attempt: nat): nat
    requires attempt >= 1
  {
    Lesser(options.backoffMax, options.backoffBase * Power2(Lesser(attempt - 1, 8)))
  }

  lemma DelayIsWait(options: RecoveryOptions, attempt: nat)
    requires attempt >= 1
    ensures Delay(options, attempt) == Wait(options, attempt)
  {
    ShiftedIsProduct(options.backoffBase, Lesser(attempt - 1, 8));
  }

  // ---- the columns each transaction stores ----

  /** The columns no transaction writes. */
  predicate SameIdentity(one: Row, other: Row) {
    && one.id == other.id && one.userMessage == other.userMessage
    && one.customerId == other.customerId && one.createdAt == other.createdAt
  }

  predicate SameApproval(one: Row, other: Row) {
    && one.intent == other.intent && one.requiresApproval == other.requiresApproval
    && one.approvalDecision == other.approvalDecision && one.approvalReason == other.approvalReason
  }

  predicate SameSideTables(one: Stored, other: Stored) {
    one.decisions == other.decisions && one.actions == other.actions && one.cases == other.cases
  }

  /** A claim commits exactly on an unchanged version and status whose next sequence is free.
      A worker's claim counts an attempt and stores the exponential wait from the claim's own
      time; the trigger's claim does neither. */
  lemma ClaimStores(stored: Stored, candidate: Workflow, at: int, byWorker: bool, options: RecoveryOptions)
    ensures var commit := CommitClaim(stored, candidate, at, byWorker, options);
            && (commit.NoRowMatched? <==>
                  stored.row.version != candidate.row.version || stored.row.status != candidate.row.status)
            && (commit.IndexViolated? <==>
                  stored.row.version == candidate.row.version && stored.row.status == candidate.row.status
                  && |candidate.events| in stored.events)
            && (commit.Committed? ==>
                  var after := commit.stored;
                  && after.row.status == Recovering && after.row.updatedAt == at
                  && after.row.version == candidate.row.version + 1
                  && after.row.attempts == candidate.row.attempts + (if byWorker then 1 else 0)
                  && after.row.nextAttemptAt
                     == (if byWorker
                         then Some(at + Lesser(options.backoffMax, options.backoffBase * Power2(Lesser(candidate.row.attempts, 8))))
                         else candidate.row.nextAttemptAt)
                  && after.row.lastErrorCode == candidate.row.lastErrorCode
                  && SameIdentity(after.row, stored.row) && SameApproval(after.row, stored.row) && SameSideTables(after, stored)
                  && after.events == stored.events[|candidate.events| := Event(RecoveryClaimed, at)])
  {
    DelayIsWait(options, candidate.row.attempts + 1);
  }

  /** An exhaustion, on the same conditions, fails the row and says why. */
  lemma ExhaustStores(stored: Stored, candidate: Workflow, at: int)
    ensures var commit := CommitExhaust(stored, candidate, at);
            && (commit.NoRowMatched? <==>
                  stored.row.version != candidate.row.version || stored.row.status != candidate.row.status)
            && (commit.IndexViolated? <==>
                  stored.row.version == candidate.row.version && stored.row.status == candidate.row.status
                  && |candidate.events| in stored.events)
            && (commit.Committed? ==>
                  var after := commit.stored;
                  && after.row.status == Failed && after.row.updatedAt == at
                  && after.row.version == candidate.row.version + 1
                  && after.row.lastErrorCode == Some("workflow_recovery_attempts_exhausted")
                  && after.row.attempts == stored.row.attempts && after.row.nextAttemptAt == stored.row.nextAttemptAt
                  && SameIdentity(after.row, stored.row) && SameApproval(after.row, stored.row) && SameSideTables(after, stored)
                  && after.events == stored.events[|candidate.events| := Event(Abandoned, at)])
  {
  }

  /** An update commits exactly on the expected version with free sequences, and stores the
      writer's value in every column it owns. */
  lemma UpdateStores(stored: Stored, workflow: Workflow, expectedVersion: nat, eventCount: nat)
    ensures var commit := CommitUpdate(stored, workflow, expectedVersion, eventCount);
            var inserted := Insert(stored.events, workflow.events, eventCount);
            && (commit.NoRowMatched? <==> stored.row.version != expectedVersion)
            && (commit.IndexViolated? <==> stored.row.version == expectedVersion && inserted.None?)
            && (commit.Committed? ==>
                  var after := commit.stored;
                  && after.row.status == workflow.row.status && after.row.updatedAt == workflow.row.updatedAt
                  && after.row.version == workflow.row.version && after.row.attempts == workflow.row.attempts
                  && after.row.nextAttemptAt == workflow.row.nextAttemptAt && after.row.lastErrorCode == workflow.row.lastErrorCode
                  && SameApproval(after.row, workflow.row)
                  && SameIdentity(after.row, stored.row) && SameSideTables(after, stored)
                  && Some(after.events) == inserted)
  {
  }

  /** A decision commits exactly on the expected version when no table already holds a row
      for the workflow; it stores its four columns and its three rows, and keeps the rest. */
  lemma DecisionStores(stored: Stored, workflow: Workflow, decision: Decision, action: Option<ActionExecution>,
                       supportCase: Option<SupportCase>, expectedVersion: nat, eventCount: nat)
    ensures var commit := CommitDecision(stored, workflow, decision, action, supportCase, expectedVersion, eventCount);
            var inserted := Insert(stored.events, workflow.events, eventCount);
            && (commit.NoRowMatched? <==> stored.row.version != expectedVersion)
            && (commit.Committed? <==>
                  stored.row.version == expectedVersion && inserted.Some? && stored.decisions == []
                  && (action.Some? ==> stored.actions == []) && (supportCase.Some? ==> stored.cases == []))
            && (commit.Committed? ==>
                  var after := commit.stored;
                  && after.row.status == workflow.row.status && after.row.updatedAt == workflow.row.updatedAt
                  && after.row.version == workflow.row.version
                  && after.row.approvalDecision == workflow.row.approvalDecision
                  && after.row.approvalReason == workflow.row.approvalReason
                  && after.row.intent == stored.row.intent && after.row.requiresApproval == stored.row.requiresApproval
                  && after.row.attempts == stored.row.attempts && after.row.nextAttemptAt == stored.row.nextAttemptAt
                  && after.row.lastErrorCode == stored.row.lastErrorCode && SameIdentity(after.row, stored.row)
                  && Some(after.events) == inserted
                  && after.decisions == [decision]
                  && after.actions == (if action.Some? then [action.value] else stored.actions)
                  && after.cases == (if supportCase.Some? then [supportCase.value] else stored.cases))
  {
  }
}
