/** The two callers that claim and then recover (src/orchestrator), and why a system of
    workers alone comes to rest. */
module Recovery {
  import opened Wrappers
  import opened Domain
  import opened Store
  import opened Service
  import opened Scanning
  import opened Repository
  import opened Operations
  import opened Orchestrator
  import Personalisation

  // ---- the potential of worker-only runs ----

  /** What an unsettled workflow still has to spend. */
  function Weight(stored: Stored, options: RecoveryOptions): nat {
    if !Unsettled(stored.row.status) then 0
    else if stored.row.attempts < options.maxAttempts then options.maxAttempts + 1 - stored.row.attempts
    else 1
  }

  function Potential(rows: Rows, ids: seq<WorkflowId>, options: RecoveryOptions): nat
    requires forall id | id in ids :: id in rows
  {
    if ids == [] then 0
    else Weight(rows[ids[0]], options) + Potential(rows, ids[1..], options)
  }

  /** How many of these rows differ. */
  function Changed(rows: Rows, after: Rows, ids: seq<WorkflowId>): nat
    requires forall id | id in ids :: id in rows && id in after
  {
    if ids == [] then 0
    else (if after[ids[0]] != rows[ids[0]] then 1 else 0) + Changed(rows, after, ids[1..])
  }

  /** Where every change of a row lowers its weight, each takes at least one from the
      potential. */
  lemma {:induction false} ChangesSpend(rows: Rows, after: Rows, ids: seq<WorkflowId>, options: RecoveryOptions)
    requires forall x | x in ids :: x in rows && x in after
    requires forall x | x in ids :: after[x] == rows[x] || Weight(after[x], options) < Weight(rows[x], options)
    ensures Potential(after, ids, options) + Changed(rows, after, ids) <= Potential(rows, ids, options)
  {
    if ids != [] {
      ChangesSpend(rows, after, ids[1..], options);
    }
  }

  lemma {:induction false} ChangeCounts(rows: Rows, after: Rows, ids: seq<WorkflowId>, id: WorkflowId)
    requires (forall x | x in ids :: x in rows && x in after) && id in ids && after[id] != rows[id]
    ensures Changed(rows, after, ids) >= 1
  {
    if ids[0] != id {
      ChangeCounts(rows, after, ids[1..], id);
    }
  }

  lemma ClaimSpends(stored: Stored, after: Stored, at: int, options: RecoveryOptions)
    requires MapToDomain(after) == AsClaimed(MapToDomain(stored), at, true, options)
    requires Unsettled(stored.row.status) && stored.row.attempts < options.maxAttempts
    ensures Weight(after, options) < Weight(stored, options) && after.row.status == Recovering
  {
  }

  lemma ExhaustionSpends(stored: Stored, after: Stored, at: int, options: RecoveryOptions)
    requires MapToDomain(after) == AsExhausted(MapToDomain(stored), at) && Unsettled(stored.row.status)
    ensures Weight(after, options) < Weight(stored, options) && after.row.status == Failed
  {
  }

  lemma EffectSpends(rows: Rows, after: Rows, staleBefore: int, at: int, options: RecoveryOptions, claimed: Option<WorkflowId>, x: WorkflowId)
    requires ScanEffect(rows, after, staleBefore, at, options, claimed) && x in rows
    ensures after[x] == rows[x] || Weight(after[x], options) < Weight(rows[x], options)
    ensures claimed == Some(x) ==> after[x] != rows[x] && after[x].row.status == Recovering
  {
    if claimed == Some(x) {
      ClaimSpends(rows[x], after[x], at, options);
    } else if after[x] != rows[x] {
      ExhaustionSpends(rows[x], after[x], at, options);
    }
  }

  /** Every claim and every exhaustion of a scan takes at least one from what all workflows
      together have left to spend, and a scan with anything due makes one. */
  lemma ScanSpends(rows: Rows, order: seq<WorkflowId>, after: Rows, staleBefore: int, at: int, options: RecoveryOptions,
                   claimed: Option<WorkflowId>)
    requires (forall x :: x in order <==> x in rows) && ScanEffect(rows, after, staleBefore, at, options, claimed)
    ensures forall x | x in order :: x in after
    ensures Potential(after, order, options) + Changed(rows, after, order) <= Potential(rows, order, options)
    ensures claimed.Some? || AnyDue(rows, staleBefore, at) ==> Changed(rows, after, order) >= 1
  {
    forall x | x in order
      ensures after[x] == rows[x] || Weight(after[x], options) < Weight(rows[x], options)
    {
      EffectSpends(rows, after, staleBefore, at, options, claimed, x);
    }
    ChangesSpend(rows, after, order, options);
    if claimed.Some? {
      EffectSpends(rows, after, staleBefore, at, options, claimed, claimed.value);
      ChangeCounts(rows, after, order, claimed.value);
    } else if after != rows {
      var x :| x in rows && after[x] != rows[x];
      ChangeCounts(rows, after, order, x);
    }
  }

  // ---- a routing run that nobody disturbs ----

  lemma {:induction false} PersistKeepsAttempts(current: Workflow, writes: seq<Write>, times: seq<int>)
    requires |writes| <= |times|
    ensures Persist(current, writes, times).row.attempts == current.row.attempts
    ensures Persist(current, writes, times).row.id == current.row.id
    decreases |writes|
  {
    if writes != [] {
      PersistKeepsAttempts(NextState(current, writes[0], times[0]), writes[1..], times[1..]);
    }
  }

  /** Whatever the agents answer, or fail to, the run ends with a settled workflow. */
  lemma RunSettles(workflow: Workflow, world: World, times: seq<int>)
    requires |RoutingWrites(workflow, world)| <= |times|
    ensures !Unsettled(Persist(workflow, RoutingWrites(workflow, world), times).row.status)
  {
    var writes := RoutingWrites(workflow, world);
    if Personalisation.Fails(workflow, world) {
      Personalisation.FailedWrites(workflow, world);
      assert writes == [writes[0]];
      PersistOne(workflow, writes[0], times);
    } else {
      Personalisation.SucceededShape(workflow, world);
      PersistThree(workflow, writes, times);
    }
  }

  lemma RunLeaves(workflow: Workflow, world: World, times: seq<int>)
    requires |times| >= 3
    ensures |RoutingWrites(workflow, world)| <= 3
    ensures var after := Persist(workflow, RoutingWrites(workflow, world), times).row;
            !Unsettled(after.status) && after.attempts == workflow.row.attempts && after.id == workflow.row.id
  {
    RunsAreWellShaped(workflow, world);
    RunSettles(workflow, world, times);
    PersistKeepsAttempts(workflow, RoutingWrites(workflow, world), times);
  }

  lemma TouchesJoin(before: Rows, between: Rows, after: Rows, id: WorkflowId)
    requires id in before && Unsettled(before[id].row.status)
    requires OnlyTouches(before, between, id) && OnlyTouches(between, after, id)
    ensures OnlyTouches(before, after, id) && SettledStay(before, after)
  {
  }

  /** The two clock reads of one turn, and what the outside world does in it. */
  datatype Turn = Turn(seen: int, now: int, world: World, times: seq<int>)

  /** Workflows last updated after this are left alone. */
  function Cutoff(turn: Turn, staleAfter: nat): int {
    turn.seen - staleAfter
  }

  ghost predicate SettledStay(before: Rows, after: Rows) {
    after.Keys == before.Keys
    && forall id | id in before && !Unsettled(before[id].row.status) :: after[id] == before[id]
  }

  /** A run that settles its workflow takes the rest of its weight. */
  lemma RecoveredWeighsLess(before: Rows, after: Rows, order: seq<WorkflowId>, id: WorkflowId, options: RecoveryOptions)
    requires (forall x | x in order :: x in before) && id in before
    requires OnlyTouches(before, after, id)
    requires Unsettled(before[id].row.status) && !Unsettled(after[id].row.status)
    ensures Potential(after, order, options) <= Potential(before, order, options)
  {
    ChangesSpend(before, after, order, options);
  }

  /** How many workflows are not settled. */
  function Unfinished(rows: Rows, ids: seq<WorkflowId>): nat
    requires forall id | id in ids :: id in rows
  {
    if ids == [] then 0
    else (if Unsettled(rows[ids[0]].row.status) then 1 else 0) + Unfinished(rows, ids[1..])
  }

  /** A scan unsettles nothing. */
  lemma {:induction false} FewerUnfinished(rows: Rows, after: Rows, ids: seq<WorkflowId>)
    requires (forall x | x in ids :: x in rows) && SettledStay(rows, after)
    ensures Unfinished(after, ids) <= Unfinished(rows, ids)
  {
    if ids != [] {
      FewerUnfinished(rows, after, ids[1..]);
    }
  }

  lemma {:induction false} SameUnfinished(rows: Rows, after: Rows, ids: seq<WorkflowId>, id: WorkflowId)
    requires (forall x | x in ids :: x in rows) && id !in ids && OnlyTouches(rows, after, id)
    ensures Unfinished(after, ids) == Unfinished(rows, ids)
  {
    if ids != [] {
      SameUnfinished(rows, after, ids[1..], id);
    }
  }

  /** A recovery settles one. */
  lemma {:induction false} OneFinished(rows: Rows, after: Rows, ids: seq<WorkflowId>, id: WorkflowId)
    requires (forall x | x in ids :: x in rows) && Distinct(ids) && id in ids && OnlyTouches(rows, after, id)
    requires Unsettled(rows[id].row.status) && !Unsettled(after[id].row.status)
    ensures Unfinished(after, ids) + 1 == Unfinished(rows, ids)
  {
    if ids[0] == id {
      assert id !in ids[1..];
      SameUnfinished(rows, after, ids[1..], id);
    } else {
      OneFinished(rows, after, ids[1..], id);
    }
  }

  /** RecoverAsync on a workflow its caller has just claimed: the run's row and log are stored
      and the workflow is settled. */
  method RecoverClaimed(service: WorkflowService, initial: Workflow, world: World, times: seq<int>)
    returns (recovered: Result<Workflow, ServiceError>)
    requires service.Wired() && service.db.Valid() && |times| >= 3
    requires Stands(service.db.rows, initial) && Unsettled(initial.row.status)
    modifies service.db`rows
    ensures service.db.Valid() && OnlyTouches(old(service.db.rows), service.db.rows, initial.row.id)
    ensures !Unsettled(service.db.rows[initial.row.id].row.status)
    ensures RunStored(initial, world, times, service.db.rows)
    ensures recovered.Err? <==> world.cancelled
  {
    RunLeaves(initial, world, times);
    recovered := service.Recover(initial.row.id, world, times);
  }

  // ---- one turn of the batch ----

  /** What one turn does to the rows. It claims the oldest row in reach with attempts left and
      leaves it settled, or nothing in reach had any; it fails due rows without attempts left,
      all those in reach if it claims nothing, and changes no other. */
  ghost predicate TurnTaken(before: Rows, after: Rows, staleBefore: int, at: int, options: RecoveryOptions, claimed: Option<WorkflowId>) {
    && after.Keys == before.Keys
    && (claimed.Some? ==>
          && OldestClaimable(before, claimed.value, staleBefore, at, options)
          && !Unsettled(after[claimed.value].row.status))
    && (claimed.None? ==> forall x | InReach(before, x, staleBefore, at) :: Expires(before, after, x, staleBefore, at, options))
    && (forall x | x in before ::
          after[x] == before[x] || claimed == Some(x) || Expires(before, after, x, staleBefore, at, options))
  }

  /** What is left to do after it. */
  ghost predicate TurnSpent(before: Rows, after: Rows, order: seq<WorkflowId>, staleBefore: int, at: int, options: RecoveryOptions,
                            claimed: Option<WorkflowId>) {
    && (forall x | x in order :: x in before && x in after)
    && Potential(after, order, options) + (if claimed.Some? then 1 else 0) <= Potential(before, order, options)
    && (AnyDue(before, staleBefore, at) ==> Potential(after, order, options) < Potential(before, order, options))
    && Unfinished(after, order) + (if claimed.Some? then 1 else 0) <= Unfinished(before, order)
  }

  lemma TurnJoins(before: Rows, between: Rows, after: Rows, staleBefore: int, at: int, options: RecoveryOptions, claimed: Option<WorkflowId>)
    requires ScanEffect(before, between, staleBefore, at, options, claimed)
    requires claimed.None? ==> after == between
    requires claimed.Some? ==> OnlyTouches(between, after, claimed.value) && !Unsettled(after[claimed.value].row.status)
    ensures TurnTaken(before, after, staleBefore, at, options, claimed)
  {
  }

  lemma ScanKeepsSettled(rows: Rows, after: Rows, staleBefore: int, at: int, options: RecoveryOptions, claimed: Option<WorkflowId>)
    requires ScanEffect(rows, after, staleBefore, at, options, claimed)
    ensures SettledStay(rows, after)
    ensures claimed.Some? ==> claimed.value in after && Unsettled(after[claimed.value].row.status)
  {
    if claimed.Some? {
      EffectSpends(rows, after, staleBefore, at, options, claimed, claimed.value);
    }
  }

  lemma TurnKeepsSettled(before: Rows, after: Rows, staleBefore: int, at: int, options: RecoveryOptions, claimed: Option<WorkflowId>)
    requires TurnTaken(before, after, staleBefore, at, options, claimed)
    ensures SettledStay(before, after)
  {
  }

  lemma TurnSpends(before: Rows, between: Rows, after: Rows, order: seq<WorkflowId>, staleBefore: int, at: int, options: RecoveryOptions,
                   claimed: Option<WorkflowId>)
    requires Distinct(order) && (forall x :: x in order <==> x in before)
    requires ScanEffect(before, between, staleBefore, at, options, claimed)
    requires claimed.None? ==> after == between
    requires claimed.Some? ==> OnlyTouches(between, after, claimed.value) && !Unsettled(after[claimed.value].row.status)
    ensures TurnSpent(before, after, order, staleBefore, at, options, claimed)
  {
    ScanKeepsSettled(before, between, staleBefore, at, options, claimed);
    ScanSpends(before, order, between, staleBefore, at, options, claimed);
    FewerUnfinished(before, between, order);
    if claimed.Some? {
      RecoveredWeighsLess(between, after, order, claimed.value, options);
      OneFinished(between, after, order, claimed.value);
    }
  }

  // ---- the whole batch ----

  /** After this many claims. Nothing settled has changed, each claim settled a workflow of its
      own and took something from the potential, and the first one, `oldest`, was the oldest. */
  ghost predicate BatchGoing(start: Rows, rows: Rows, order: seq<WorkflowId>, turns: seq<Turn>, staleAfter: nat, options: RecoveryOptions,
                             claims: nat, oldest: WorkflowId) {
    && claims <= |turns| && (forall x | x in order :: x in start && x in rows)
    && SettledStay(start, rows)
    && Potential(rows, order, options) + claims <= Potential(start, order, options)
    && Unfinished(rows, order) + claims <= Unfinished(start, order)
    && (claims == 0 ==> rows == start)
    && (claims > 0 ==> OldestClaimable(start, oldest, Cutoff(turns[0], staleAfter), turns[0].now, options)
                       && oldest in rows && !Unsettled(rows[oldest].row.status))
  }

  lemma BatchGoesOn(start: Rows, rows: Rows, after: Rows, order: seq<WorkflowId>, turns: seq<Turn>, staleAfter: nat,
                    options: RecoveryOptions, claims: nat, more: nat, oldest: WorkflowId, id: WorkflowId)
    requires more == claims + 1
    requires BatchGoing(start, rows, order, turns, staleAfter, options, claims, oldest) && claims < |turns|
    requires TurnTaken(rows, after, Cutoff(turns[claims], staleAfter), turns[claims].now, options, Some(id))
    requires TurnSpent(rows, after, order, Cutoff(turns[claims], staleAfter), turns[claims].now, options, Some(id))
    ensures BatchGoing(start, after, order, turns, staleAfter, options, more, if claims == 0 then id else oldest)
  {
    TurnKeepsSettled(rows, after, Cutoff(turns[claims], staleAfter), turns[claims].now, options, Some(id));
  }

  /** What a batch has done when it returns.
      - Each claim settles a workflow of its own and takes something from the potential;
        nothing is given back and no settled workflow changes.
      - If anything is due at the first turn, the potential strictly falls.
      - If anything in reach has attempts left then, something is claimed; the first
        workflow claimed is the oldest such one and ends settled. */
  ghost predicate BatchDone(start: Rows, rows: Rows, order: seq<WorkflowId>, turns: seq<Turn>, staleAfter: nat, options: RecoveryOptions,
                            claims: nat, oldest: WorkflowId) {
    && claims <= |turns| && (forall x | x in order :: x in start && x in rows)
    && SettledStay(start, rows)
    && Potential(rows, order, options) + claims <= Potential(start, order, options)
    && Unfinished(rows, order) + claims <= Unfinished(start, order)
    && (turns != [] && AnyDue(start, Cutoff(turns[0], staleAfter), turns[0].now) ==>
          Potential(rows, order, options) < Potential(start, order, options))
    && (turns != [] && AnyClaimable(start, Cutoff(turns[0], staleAfter), turns[0].now, options) ==> claims >= 1)
    && (claims >= 1 ==> OldestClaimable(start, oldest, Cutoff(turns[0], staleAfter), turns[0].now, options)
                        && oldest in rows && !Unsettled(rows[oldest].row.status))
  }

  /** No recovery of the first turns was cancelled. */
  predicate Uncancelled(turns: seq<Turn>, claims: nat) {
    claims <= |turns| && forall k | 0 <= k < claims :: !turns[k].world.cancelled
  }

  predicate LastCancelled(turns: seq<Turn>, claims: nat) {
    0 < claims <= |turns| && turns[claims - 1].world.cancelled
  }

  /** Only the last recovery may have been cancelled. */
  predicate UncancelledBefore(turns: seq<Turn>, claims: nat) {
    claims <= |turns| && forall k | 0 <= k && k + 1 < claims :: !turns[k].world.cancelled
  }

  lemma UncancelledMore(turns: seq<Turn>, claims: nat, more: nat)
    requires Uncancelled(turns, claims) && claims < |turns| && more == claims + 1
    ensures UncancelledBefore(turns, claims) && UncancelledBefore(turns, more)
    ensures LastCancelled(turns, more) <==> turns[claims].world.cancelled
    ensures !turns[claims].world.cancelled ==> Uncancelled(turns, more)
  {
  }

  lemma BatchEnds(start: Rows, rows: Rows, order: seq<WorkflowId>, turns: seq<Turn>, staleAfter: nat, options: RecoveryOptions,
                  claims: nat, oldest: WorkflowId)
    requires BatchGoing(start, rows, order, turns, staleAfter, options, claims, oldest)
    requires claims > 0 || turns == []
    ensures BatchDone(start, rows, order, turns, staleAfter, options, claims, oldest)
  {
  }

  lemma BatchFindsNothing(start: Rows, last: Rows, rows: Rows, order: seq<WorkflowId>, turns: seq<Turn>, staleAfter: nat,
                          options: RecoveryOptions, claims: nat, oldest: WorkflowId)
    requires BatchGoing(start, last, order, turns, staleAfter, options, claims, oldest) && claims < |turns|
    requires TurnTaken(last, rows, Cutoff(turns[claims], staleAfter), turns[claims].now, options, None)
    requires TurnSpent(last, rows, order, Cutoff(turns[claims], staleAfter), turns[claims].now, options, None)
    ensures BatchDone(start, rows, order, turns, staleAfter, options, claims, oldest)
  {
    TurnKeepsSettled(last, rows, Cutoff(turns[claims], staleAfter), turns[claims].now, options, None);
  }

  class WorkflowRecoveryWorker {
    const db: Database
    const repository: EfWorkflowRepository
    const service: WorkflowService
    const options: RecoveryOptions
    const staleAfter: nat

    constructor (database: Database, recoveryOptions: RecoveryOptions, staleAfterSeconds: nat)
      ensures db == database && options == recoveryOptions && staleAfter == staleAfterSeconds && Wired()
    {
      db := database;
      repository := new EfWorkflowRepository(database);
      service := new WorkflowService(database);
      options := recoveryOptions;
      staleAfter := staleAfterSeconds;
    }

    predicate Wired() {
      repository.db == db && service.db == db && service.Wired()
    }

    /** RecoverBatchAsync, one turn for each index of the loop. It stops early only after a
        cancelled turn, or at a turn that finds nothing in reach with attempts left; what is
        in reach then is failed and nothing else changes. `last` is the rows that turn found. */
    method RecoverBatch(turns: seq<Turn>) returns (claims: nat, ghost oldest: WorkflowId, ghost last: Rows)
      requires Wired() && db.Valid()
      requires forall t | t in turns :: |t.times| >= 3
      modifies db`rows
      ensures db.Valid()
      ensures BatchDone(old(db.rows), db.rows, db.order, turns, staleAfter, options, claims, oldest)
      ensures UncancelledBefore(turns, claims)
      ensures claims < |turns| && !LastCancelled(turns, claims) ==>
                SettledStay(old(db.rows), last) && TurnTaken(last, db.rows, Cutoff(turns[claims], staleAfter), turns[claims].now, options, None)
    {
      ghost var start := db.rows;
      claims, oldest, last := 0, 0, start;
      for index := 0 to |turns|
        invariant db.Valid() && claims == index
        invariant BatchGoing(start, db.rows, db.order, turns, staleAfter, options, claims, oldest)
        invariant Uncancelled(turns, claims) && UncancelledBefore(turns, claims)
      {
        var turn, before := turns[index], claims;
        last := db.rows;
        var claimed := TakeTurn(turn);
        if claimed.None? {
          BatchFindsNothing(start, last, db.rows, db.order, turns, staleAfter, options, before, oldest);
          return;
        }
        claims := claims + 1;
        BatchGoesOn(start, last, db.rows, db.order, turns, staleAfter, options, before, claims, oldest, claimed.value);
        oldest := if before == 0 then claimed.value else oldest;
        UncancelledMore(turns, before, claims);
        if turn.world.cancelled {
          break;
        }
      }
      BatchEnds(start, db.rows, db.order, turns, staleAfter, options, claims, oldest);
    }

    /** One turn as far as the batch looks at it. */
    method TakeTurn(turn: Turn) returns (claimed: Option<WorkflowId>)
      requires Wired() && db.Valid() && |turn.times| >= 3
      modifies db`rows
      ensures db.Valid()
      ensures TurnTaken(old(db.rows), db.rows, Cutoff(turn, staleAfter), turn.now, options, claimed)
      ensures TurnSpent(old(db.rows), db.rows, db.order, Cutoff(turn, staleAfter), turn.now, options, claimed)
    {
      claimed := RecoverOne(turn);
    }

    /** One turn: claim, then recover what was claimed. A failure of the recovery is logged
        and the loop goes on. */
    method RecoverOne(turn: Turn) returns (claimed: Option<WorkflowId>)
      requires Wired() && db.Valid() && |turn.times| >= 3
      modifies db`rows
      ensures db.Valid()
      ensures TurnTaken(old(db.rows), db.rows, Cutoff(turn, staleAfter), turn.now, options, claimed)
      ensures TurnSpent(old(db.rows), db.rows, db.order, Cutoff(turn, staleAfter), turn.now, options, claimed)
      ensures claimed.Some? ==>
                && claimed.value in old(db.rows)
                && RunStored(AsClaimed(MapToDomain(old(db.rows)[claimed.value]), turn.now, true, options), turn.world, turn.times, db.rows)
    {
      ghost var start, order := db.rows, db.order;
      var staleBefore := Cutoff(turn, staleAfter);
      var candidate := repository.ClaimNext(staleBefore, turn.now, options);
      claimed := ClaimedId(candidate);
      ghost var between := db.rows;
      assert ScanEffect(start, between, staleBefore, turn.now, options, claimed);
      ScanKeepsSettled(start, between, staleBefore, turn.now, options, claimed);
      if claimed.None? {
        TurnJoins(start, between, between, staleBefore, turn.now, options, claimed);
        TurnSpends(start, between, between, order, staleBefore, turn.now, options, claimed);
        return;
      }
      var recovered := RecoverClaimed(service, candidate.value, turn.world, turn.times);
      ghost var after := db.rows;
      TurnJoins(start, between, after, staleBefore, turn.now, options, claimed);
      TurnSpends(start, between, after, order, staleBefore, turn.now, options, claimed);
    }
  }

  class WorkflowExecutionTrigger {
    const db: Database
    const repository: EfWorkflowRepository
    const service: WorkflowService

    constructor (database: Database)
      ensures db == database && Wired()
    {
      db := database;
      repository := new EfWorkflowRepository(database);
      service := new WorkflowService(database);
    }

    predicate Wired() {
      repository.db == db && service.db == db && service.Wired()
    }

    /** TriggerImmediate: only a Draft is claimed, and what was claimed is settled. */
    method TriggerImmediate(id: WorkflowId, now: int, options: RecoveryOptions, world: World, times: seq<int>) returns (claimed: bool)
      requires Wired() && db.Valid() && |times| >= 3
      modifies db`rows
      ensures db.Valid() && SettledStay(old(db.rows), db.rows)
      ensures claimed <==> id in old(db.rows) && old(db.rows)[id].row.status == Draft
      ensures !claimed ==> db.rows == old(db.rows)
      ensures claimed ==>
                && OnlyTouches(old(db.rows), db.rows, id)
                && !Unsettled(db.rows[id].row.status)
                && RunStored(AsClaimed(MapToDomain(old(db.rows)[id]), now, false, options), world, times, db.rows)
    {
      var candidate := repository.Claim(id, now, options);
      if candidate.None? {
        return false;
      }
      ghost var between := db.rows;
      var recovered := RecoverClaimed(service, candidate.value, world, times);
      TouchesJoin(old(db.rows), between, db.rows, id);
      claimed := true;
    }
  }
}
