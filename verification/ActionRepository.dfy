/** The decision repository as it works on the database
    (src/infrastructure/Persistence/EfWorkflowActionRepository.cs). */
module ActionRepository {
  import opened Wrappers
  import opened Text
  import opened Domain
  import opened Store
  import opened Scanning
  import opened Repository

  /** An insert into a table whose unique index allows one row per workflow. */
  function InsertOnly<T>(table: seq<T>, row: Option<T>): (r: Option<seq<T>>)
    ensures r.None? <==> row.Some? && table != []
    ensures r.Some? ==> r.value == table + (if row.Some? then [row.value] else [])
  {
    if row.None? then Some(table)
    else if table != [] then None
    else Some(table + [row.value])
  }

  class EfWorkflowActionRepository {
    const db: Database

    constructor (database: Database)
      ensures db == database
    {
      db := database;
    }

    /** The transaction of RecordDecisionAsync, given the event count read before it: one
        conditional update, then inserts into four tables, all or none of it. */
    method SaveDecision(workflow: Workflow, decision: Decision, action: Option<ActionExecution>,
                        supportCase: Option<SupportCase>, expectedVersion: nat, existingCount: nat)
      returns (r: Result<(), RepositoryError>)
      requires db.Valid()
      modifies db`rows
      ensures workflow.row.id !in old(db.rows) ==> r == Err(Stale) && db.rows == old(db.rows)
      ensures workflow.row.id in old(db.rows) ==>
                var stored := old(db.rows)[workflow.row.id];
                var commit := CommitDecision(stored, workflow, decision, action, supportCase, expectedVersion, existingCount);
                && db.rows == old(db.rows)[workflow.row.id := Outcome(stored, commit)]
                && r == match commit
                        case Committed(_) => Ok(())
                        case NoRowMatched => Err(Stale)
                        case IndexViolated => Err(DbUpdate)
    {
      var id := workflow.row.id;
      if id !in db.rows {
        return Err(Stale);
      }
      var stored := db.rows[id];
      assert db.rows == db.rows[id := stored];
      if stored.row.version != expectedVersion {
        return Err(Stale);
      }
      var row := stored.row.(
        status := workflow.row.status,
        approvalDecision := workflow.row.approvalDecision,
        approvalReason := workflow.row.approvalReason,
        updatedAt := workflow.row.updatedAt,
        version := workflow.row.version);
      var events := AddNewEvents(stored.events, workflow.events, existingCount);
      if events.None? {
        return Err(DbUpdate);
      }
      var decisions := InsertOnly(stored.decisions, Some(decision));
      if decisions.None? {
        return Err(DbUpdate);
      }
      var actions := InsertOnly(stored.actions, action);
      if actions.None? {
        return Err(DbUpdate);
      }
      var cases := InsertOnly(stored.cases, supportCase);
      if cases.None? {
        return Err(DbUpdate);
      }
      db.rows := db.rows[id := Stored(row, events.value, decisions.value, actions.value, cases.value)];
      r := Ok(());
    }

    /** DecisionWasRecordedAsync. */
    method DecisionWasRecorded(id: WorkflowId, decision: string) returns (r: Result<bool, RepositoryError>)
      ensures r == Ok(false) <==> id !in db.rows || db.rows[id].decisions == []
      ensures r == Ok(true) <==> id in db.rows && db.rows[id].decisions != []
                                 && EqualsIgnoreCase(db.rows[id].decisions[0].decision, decision)
      ensures r.Err? ==> id in db.rows && db.rows[id].decisions != []
                         && r == Err(Conflict(db.rows[id].decisions[0].decision))
    {
      if id !in db.rows || db.rows[id].decisions == [] {
        return Ok(false);
      }
      var existing := db.rows[id].decisions[0].decision;
      if EqualsIgnoreCase(existing, decision) {
        return Ok(true);
      }
      r := Err(Conflict(existing));
    }

    /** A transaction that rolled back looks once more for a decision before it gives up. */
    method AfterLosing(id: WorkflowId, decision: string, failure: RepositoryError) returns (r: Result<(), RepositoryError>)
      ensures r == if id !in db.rows || db.rows[id].decisions == [] then Err(failure)
                   else if EqualsIgnoreCase(db.rows[id].decisions[0].decision, decision) then Ok(())
                   else Err(Conflict(db.rows[id].decisions[0].decision))
    {
      var winner := DecisionWasRecorded(id, decision);
      if winner.Err? {
        return Err(winner.error);
      }
      r := if winner.value then Ok(()) else Err(failure);
    }

    /** RecordDecisionAsync with no other process in between. */
    method RecordDecision(workflow: Workflow, decision: Decision, action: Option<ActionExecution>,
                          supportCase: Option<SupportCase>, expectedVersion: nat)
      returns (r: Result<(), RepositoryError>)
      requires db.Valid()
      modifies db`rows
      ensures db.Valid()
      ensures workflow.row.id !in old(db.rows) ==> r == Err(NotFound) && db.rows == old(db.rows)
      ensures workflow.row.id in old(db.rows) ==>
                var stored := old(db.rows)[workflow.row.id];
                var commit := CommitDecision(stored, workflow, decision, action, supportCase, expectedVersion, |stored.events|);
                if stored.decisions != [] then
                  && db.rows == old(db.rows)
                  && r == if EqualsIgnoreCase(stored.decisions[0].decision, decision.decision) then Ok(())
                          else Err(Conflict(stored.decisions[0].decision))
                else
                  && db.rows == old(db.rows)[workflow.row.id := Outcome(stored, commit)]
                  && r == match commit
                          case Committed(_) => Ok(())
                          case NoRowMatched => Err(Stale)
                          case IndexViolated => Err(DbUpdate)
    {
      var id := workflow.row.id;
      var recorded := DecisionWasRecorded(id, decision.decision);
      if recorded.Err? {
        return Err(recorded.error);
      }
      if recorded.value {
        return Ok(());
      }
      if id !in db.rows {
        return Err(NotFound);
      }
      var stored := db.rows[id];
      if stored.row.version != expectedVersion {
        assert db.rows == db.rows[id := stored];
        return Err(Stale);
      }
      var existingCount := |db.rows[id].events|;
      CountedInsertIsDense(stored.events, workflow.events);
      r := SaveDecision(workflow, decision, action, supportCase, expectedVersion, existingCount);
      ReplaceKeepsValid(old(db.rows), db.order, id, db.rows[id]);
      if r.Err? {
        r := AfterLosing(id, decision.decision, r.error);
      }
    }
  }
}
