/** The workflow repository as it works on the database
    (src/infrastructure/Persistence/EfWorkflowRepository.cs). Each transaction is a method
    of its own, proved against the commit function that the protocol's step uses. */
module Repository {
  import opened Wrappers
  import opened Domain
  import opened EventTable
  import opened Powers
  import opened Store
  import opened Scanning

  datatype RepositoryError = NotFound | Stale | DuplicateKey | DbUpdate | Conflict(stored: string)

  /** All workflows, and the order in which a query happens to return them. */
  class Database {
    var rows: map<WorkflowId, Stored>
    var order: seq<WorkflowId>

    ghost predicate Valid()
      reads this
    {
      ValidRows(rows, order)
    }

    constructor ()
      ensures Valid() && rows == map[]
    {
      rows := map[];
      order := [];
    }
  }

  /** With a fresh count no sequence collides, whatever the writer's own log holds. */
  lemma CountedInsertIsDense(table: Table, events: seq<Event>)
    requires Dense(table)
    ensures Insert(table, events, |table|).Some? && Dense(Insert(table, events, |table|).value)
  {
    if |table| <= |events| {
      InsertAppends(table, events);
    }
  }

  /** AddNewEvents, and the insert that SaveChanges makes of it; None is the unique index
      on (workflow, sequence). */
  method AddNewEvents(table: Table, events: seq<Event>, existingCount: nat) returns (filled: Option<Table>)
    ensures filled == Insert(table, events, existingCount)
  {
    var inserted: Table := table;
    var i: nat := existingCount;
    while i < |events|
      invariant Insert(table, events, existingCount) == Insert(inserted, events, i)
      decreases |events| - i
    {
      if i in inserted {
        return None;
      }
      inserted := inserted[i := events[i]];
      i := i + 1;
    }
    filled := Some(inserted);
  }

  class EfWorkflowRepository {
    const db: Database

    constructor (database: Database)
      ensures db == database
    {
      db := database;
    }

    /** AddAsync; the primary key refuses a second row with the same id. */
    method Add(workflow: Workflow) returns (r: Result<(), RepositoryError>)
      requires db.Valid()
      modifies db
      ensures db.Valid()
      ensures r == if workflow.row.id in old(db.rows) then Err(DuplicateKey) else Ok(())
      ensures r.Ok? ==> db.rows == old(db.rows)[workflow.row.id := MapToEntity(workflow)]
                        && MapToDomain(db.rows[workflow.row.id]) == workflow
      ensures r.Err? ==> unchanged(db)
    {
      var id := workflow.row.id;
      if id in db.rows {
        return Err(DuplicateKey);
      }
      ToTableDense(workflow.events);
      MappingRoundTrip(workflow);
      db.rows := db.rows[id := MapToEntity(workflow)];
      db.order := db.order + [id];
      r := Ok(());
    }

    method Get(id: WorkflowId) returns (workflow: Option<Workflow>)
      ensures workflow.Some? <==> id in db.rows
      ensures workflow.Some? ==> workflow.value == MapToDomain(db.rows[id])
    {
      if id !in db.rows {
        return None;
      }
      workflow := Some(MapToDomain(db.rows[id]));
    }

    /** The transaction of UpdateAsync, given the event count read before it. */
    method SaveUpdate(workflow: Workflow, expectedVersion: nat, existingCount: nat) returns (r: Result<(), RepositoryError>)
      requires db.Valid()
      modifies db`rows
      ensures workflow.row.id !in old(db.rows) ==> r == Err(Stale) && db.rows == old(db.rows)
      ensures workflow.row.id in old(db.rows) ==>
                var commit := CommitUpdate(old(db.rows)[workflow.row.id], workflow, expectedVersion, existingCount);
                && db.rows == old(db.rows)[workflow.row.id := Outcome(old(db.rows)[workflow.row.id], commit)]
                && r == match commit
                        case Committed(_) => Ok(())
                        case NoRowMatched => Err(Stale)
                        case IndexViolated => Err(DbUpdate)
    {
      var id := workflow.row.id;
      if id !in db.rows {
        return Err(Stale);
      }
      var staged := db.rows[id];
      if staged.row.version != expectedVersion {
        assert db.rows == db.rows[id := staged];
        return Err(Stale);
      }
      staged := staged.(row := staged.row.(
        status := workflow.row.status,
        intent := workflow.row.intent,
        requiresApproval := workflow.row.requiresApproval,
        approvalDecision := workflow.row.approvalDecision,
        approvalReason := workflow.row.approvalReason,
        updatedAt := workflow.row.updatedAt,
        attempts := workflow.row.attempts,
        nextAttemptAt := workflow.row.nextAttemptAt,
        lastErrorCode := workflow.row.lastErrorCode,
        version := workflow.row.version));
      var filled := AddNewEvents(staged.events, workflow.events, existingCount);
      if filled.None? {
        assert db.rows == db.rows[id := db.rows[id]];
        return Err(DbUpdate);
      }
      db.rows := db.rows[id := staged.(events := filled.value)];
      r := Ok(());
    }

    /** UpdateAsync with no other process in between. */
    method Update(workflow: Workflow, expectedVersion: nat) returns (r: Result<(), RepositoryError>)
      requires db.Valid()
      modifies db`rows
      ensures workflow.row.id !in old(db.rows) ==> r == Err(NotFound) && db.rows == old(db.rows)
      ensures workflow.row.id in old(db.rows) ==>
                var stored := old(db.rows)[workflow.row.id];
                var commit := CommitUpdate(stored, workflow, expectedVersion, |stored.events|);
                && db.rows == old(db.rows)[workflow.row.id := Outcome(stored, commit)]
                && !commit.IndexViolated?
                && r == (if commit.Committed? then Ok(()) else Err(Stale))
                && (r.Ok? <==> stored.row.version == expectedVersion)
      ensures db.Valid()
    {
      var id := workflow.row.id;
      if id !in db.rows {
        return Err(NotFound);
      }
      var stored := db.rows[id];
      var currentVersion := stored.row.version;
      if currentVersion != expectedVersion {
        assert db.rows == db.rows[id := stored];
        return Err(Stale);
      }
      var existingCount := |db.rows[id].events|;
      CountedInsertIsDense(stored.events, workflow.events);
      r := SaveUpdate(workflow, expectedVersion, existingCount);
      ReplaceKeepsValid(old(db.rows), db.order, id, db.rows[id]);
    }

    /** The conditional update of a claim or an exhaustion and the event beside it; false
        when no row matched. */
    method SaveCandidate(candidate: Workflow, row: Row, event: Event) returns (r: Result<bool, RepositoryError>)
      requires db.Valid()
      modifies db`rows
      ensures candidate.row.id !in old(db.rows) ==> r == Ok(false) && db.rows == old(db.rows)
      ensures candidate.row.id in old(db.rows) ==>
                var stored := old(db.rows)[candidate.row.id];
                var commit := CommitOneEvent(stored, candidate, row, event.kind, event.at);
                && db.rows == old(db.rows)[candidate.row.id := Outcome(stored, commit)]
                && r == match commit
                        case Committed(_) => Ok(true)
                        case NoRowMatched => Ok(false)
                        case IndexViolated => Err(DbUpdate)
    {
      var id := candidate.row.id;
      if id !in db.rows {
        return Ok(false);
      }
      var stored := db.rows[id];
      if !(stored.row.version == candidate.row.version && stored.row.status == candidate.row.status) {
        assert db.rows == db.rows[id := stored];
        return Ok(false);
      }
      var sequence := |candidate.events|;
      if sequence in stored.events {
        assert db.rows == db.rows[id := stored];
        return Err(DbUpdate);
      }
      db.rows := db.rows[id := stored.(row := row, events := stored.events[sequence := event])];
      r := Ok(true);
    }

    /** ClaimCandidateAsync on a candidate read before. */
    method ClaimCandidate(candidate: Workflow, claimedAt: int, byWorker: bool, options: RecoveryOptions)
      returns (claimed: Result<Option<Workflow>, RepositoryError>)
      requires db.Valid()
      modifies db`rows
      ensures candidate.row.id !in old(db.rows) ==> claimed == Ok(None) && db.rows == old(db.rows)
      ensures candidate.row.id in old(db.rows) ==>
                var stored := old(db.rows)[candidate.row.id];
                var commit := CommitClaim(stored, candidate, claimedAt, byWorker, options);
                && db.rows == old(db.rows)[candidate.row.id := Outcome(stored, commit)]
                && claimed == (match commit
                               case Committed(_) => Ok(Some(AsClaimed(candidate, claimedAt, byWorker, options)))
                               case NoRowMatched => Ok(None)
                               case IndexViolated => Err(DbUpdate))
      ensures claimed.Ok? && claimed.value.Some? ==>
                && candidate.row.id in db.rows
                && var row := db.rows[candidate.row.id].row;
                   && row.status == Recovering && row.updatedAt == claimedAt && row.version == candidate.row.version + 1
                   && (byWorker ==>
                         row.attempts == candidate.row.attempts + 1
                         && row.nextAttemptAt == Some(claimedAt + Lesser(options.backoffMax,
                              options.backoffBase * Power2(Lesser(candidate.row.attempts, 8)))))
                   && (!byWorker ==> row.attempts == candidate.row.attempts && row.nextAttemptAt == candidate.row.nextAttemptAt)
    {
      if candidate.row.id in db.rows {
        ClaimStores(db.rows[candidate.row.id], candidate, claimedAt, byWorker, options);
      }
      var attempts := candidate.row.attempts;
      var nextAttemptAt := candidate.row.nextAttemptAt;
      if byWorker {
        attempts := attempts + 1;
        nextAttemptAt := Some(claimedAt + Delay(options, attempts));
      }
      var event := Event(RecoveryClaimed, claimedAt);
      var found := if candidate.row.id in db.rows then db.rows[candidate.row.id].row else candidate.row;
      var row := WithClaim(found, attempts, nextAttemptAt, candidate.row.lastErrorCode, candidate.row.version, claimedAt);
      assert row == ClaimedRow(found, candidate.row, claimedAt, byWorker, options);
      var saved := SaveCandidate(candidate, row, event);
      if saved.Err? {
        return Err(saved.error);
      }
      if !saved.value {
        return Ok(None);
      }
      var claimedRow := WithClaim(candidate.row, attempts, nextAttemptAt, candidate.row.lastErrorCode, candidate.row.version, claimedAt);
      assert claimedRow == ClaimedRow(candidate.row, candidate.row, claimedAt, byWorker, options);
      claimed := Ok(Some(Workflow(claimedRow, candidate.events + [event])));
    }

    /** ExhaustRecoveryAttemptsAsync on a candidate read before. */
    method Exhaust(candidate: Workflow, failedAt: int) returns (r: Result<(), RepositoryError>)
      requires db.Valid()
      modifies db`rows
      ensures candidate.row.id !in old(db.rows) ==> r == Ok(()) && db.rows == old(db.rows)
      ensures candidate.row.id in old(db.rows) ==>
                var stored := old(db.rows)[candidate.row.id];
                var commit := CommitExhaust(stored, candidate, failedAt);
                && db.rows == old(db.rows)[candidate.row.id := Outcome(stored, commit)]
                && r == if commit.IndexViolated? then Err(DbUpdate) else Ok(())
    {
      var found := if candidate.row.id in db.rows then db.rows[candidate.row.id].row else candidate.row;
      var row := found.(
        status := Failed, updatedAt := failedAt, lastErrorCode := Some("workflow_recovery_attempts_exhausted"),
        version := candidate.row.version + 1);
      var saved := SaveCandidate(candidate, row, Event(EventKind.Abandoned, failedAt));
      r := if saved.Err? then Err(saved.error) else Ok(());
    }

    /** The two transactions on a candidate nobody changed since it was read. */
    method ExhaustCurrent(candidate: Workflow, failedAt: int)
      requires db.Valid() && candidate.row.id in db.rows && candidate == MapToDomain(db.rows[candidate.row.id])
      modifies db`rows
      ensures db.Valid()
      ensures db.rows == old(db.rows)[candidate.row.id := AfterExhaust(old(db.rows)[candidate.row.id], failedAt)]
    {
      var id := candidate.row.id;
      AfterExhaustIsSound(db.rows[id], failedAt);
      ReplaceKeepsValid(db.rows, db.order, id, AfterExhaust(db.rows[id], failedAt));
      var exhausted := Exhaust(candidate, failedAt);
    }

    method ClaimCurrent(candidate: Workflow, claimedAt: int, byWorker: bool, options: RecoveryOptions) returns (claimed: Option<Workflow>)
      requires db.Valid() && candidate.row.id in db.rows && candidate == MapToDomain(db.rows[candidate.row.id])
      modifies db`rows
      ensures db.Valid()
      ensures db.rows == old(db.rows)[candidate.row.id := AfterClaim(old(db.rows)[candidate.row.id], claimedAt, byWorker, options)]
      ensures claimed == Some(MapToDomain(db.rows[candidate.row.id]))
    {
      var id := candidate.row.id;
      AfterClaimIsSound(db.rows[id], claimedAt, byWorker, options);
      ReplaceKeepsValid(db.rows, db.order, id, AfterClaim(db.rows[id], claimedAt, byWorker, options));
      var attempt := ClaimCandidate(candidate, claimedAt, byWorker, options);
      claimed := attempt.value;
    }

    /** One turn of the loop of ClaimNextAsync: a candidate out of attempts is failed, any
        other is claimed. */
    method Try(candidate: Workflow, claimedAt: int, options: RecoveryOptions) returns (claimed: Option<Workflow>)
      requires db.Valid() && candidate.row.id in db.rows && candidate == MapToDomain(db.rows[candidate.row.id])
      modifies db`rows
      ensures db.Valid()
      ensures var id := candidate.row.id;
              var stored := old(db.rows)[id];
              if stored.row.attempts >= options.maxAttempts
              then claimed == None && db.rows == old(db.rows)[id := Exhauster(claimedAt)(stored)]
              else claimed == Some(MapToDomain(db.rows[id])) && db.rows == old(db.rows)[id := Claimer(claimedAt, options)(stored)]
    {
      if candidate.row.attempts >= options.maxAttempts {
        ExhaustCurrent(candidate, claimedAt);
        claimed := None;
      } else {
        claimed := ClaimCurrent(candidate, claimedAt, true, options);
      }
    }

    /** The loop of ClaimNextAsync over its candidates, each as it was read before the loop. */
    method ClaimFirst(candidates: seq<Workflow>, claimedAt: int, options: RecoveryOptions) returns (claimed: Option<Workflow>)
      requires db.Valid() && Distinct(Ids(candidates))
      requires AreCurrent(db.rows, candidates) && forall id | id in Ids(candidates) :: id in db.rows
      modifies db`rows
      ensures db.Valid()
      ensures var (after, id) := ScanFrom(old(db.rows), Ids(candidates), options.maxAttempts, Exhauster(claimedAt), Claimer(claimedAt, options));
              && db.rows == after
              && claimed == if id.Some? && id.value in after then Some(MapToDomain(after[id.value])) else None
    {
      ghost var result := ScanFrom(db.rows, Ids(candidates), options.maxAttempts, Exhauster(claimedAt), Claimer(claimedAt, options));
      claimed := None;
      var j := 0;
      assert candidates[0..] == candidates;
      while j < |candidates| && claimed.None?
        invariant 0 <= j <= |candidates|
        invariant db.Valid()
        invariant claimed.None? ==>
                    && Distinct(Ids(candidates[j..]))
                    && AreCurrent(db.rows, candidates[j..])
                    && (forall id | id in Ids(candidates[j..]) :: id in db.rows)
                    && result == ScanFrom(db.rows, Ids(candidates[j..]), options.maxAttempts, Exhauster(claimedAt), Claimer(claimedAt, options))
        invariant claimed.Some? ==>
                    && result.0 == db.rows && result.1.Some? && result.1.value in db.rows
                    && claimed.value == MapToDomain(db.rows[result.1.value])
      {
        ScanStep(db.rows, candidates[j..], options.maxAttempts, Exhauster(claimedAt), Claimer(claimedAt, options));
        assert candidates[j..][1..] == candidates[j + 1..];
        claimed := Try(candidates[j], claimedAt, options);
        j := j + 1;
      }
    }

    /** ClaimNextAsync with no other process in between. */
    method ClaimNext(staleBefore: int, claimedAt: int, options: RecoveryOptions) returns (claimed: Option<Workflow>)
      requires db.Valid()
      modifies db`rows
      ensures db.Valid()
      ensures ScanEffect(old(db.rows), db.rows, staleBefore, claimedAt, options, ClaimedId(claimed))
      ensures claimed.Some? ==>
                && claimed.value.row.id in old(db.rows) && claimed.value.row.id in db.rows
                && claimed.value == MapToDomain(db.rows[claimed.value.row.id])
                && claimed.value == AsClaimed(MapToDomain(old(db.rows)[claimed.value.row.id]), claimedAt, true, options)
    {
      CandidatesAreCurrent(db.rows, db.order, staleBefore, claimedAt);
      ScanLeaves(db.rows, db.order, Window(db.rows, db.order, staleBefore, claimedAt), staleBefore, claimedAt, options);
      claimed := ClaimFirst(Candidates(db.rows, db.order, staleBefore, claimedAt), claimedAt, options);
    }

    /** ClaimAsync with no other process in between. */
    method Claim(id: WorkflowId, claimedAt: int, options: RecoveryOptions) returns (claimed: Option<Workflow>)
      requires db.Valid()
      modifies db`rows
      ensures db.Valid()
      ensures claimed.Some? <==> id in old(db.rows) && old(db.rows)[id].row.status == Draft
      ensures claimed.None? ==> db.rows == old(db.rows)
      ensures claimed.Some? ==>
                && db.rows.Keys == old(db.rows).Keys
                && (forall other | other in old(db.rows) && other != id :: db.rows[other] == old(db.rows)[other])
                && claimed.value == AsClaimed(MapToDomain(old(db.rows)[id]), claimedAt, false, options)
                && MapToDomain(db.rows[id]) == claimed.value && SameSideTables(db.rows[id], old(db.rows)[id])
    {
      if id !in db.rows || db.rows[id].row.status != Draft {
        return None;
      }
      AfterClaimIsSound(db.rows[id], claimedAt, false, options);
      claimed := ClaimCurrent(MapToDomain(db.rows[id]), claimedAt, false, options);
    }
  }
}
