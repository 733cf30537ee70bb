/** What one scan of the recovery worker reads and what it does to the rows
    (src/infrastructure/Persistence/EfWorkflowRepository.cs, ClaimNextAsync). */
module Scanning {
  import opened Wrappers
  import opened Domain
  import opened EventTable
  import opened Store

  type Rows = map<WorkflowId, Stored>

  ghost predicate Distinct(ids: seq<WorkflowId>) {
    forall i, j | 0 <= i < j < |ids| :: ids[i] != ids[j]
  }

  /** What the keys and the unique indexes enforce on one workflow, and that its events are
      numbered without a gap. */
  ghost predicate ValidStored(stored: Stored) {
    && Dense(stored.events)
    && |stored.decisions| <= 1 && |stored.actions| <= 1 && |stored.cases| <= 1
  }

  ghost predicate ValidRows(rows: Rows, order: seq<WorkflowId>) {
    && (forall id | id in rows :: rows[id].row.id == id && ValidStored(rows[id]))
    && (forall id :: id in order <==> id in rows)
    && Distinct(order)
  }

  lemma ReplaceKeepsValid(rows: Rows, order: seq<WorkflowId>, id: WorkflowId, stored: Stored)
    requires ValidRows(rows, order) && id in rows
    requires stored.row.id == id && ValidStored(stored)
    ensures ValidRows(rows[id := stored], order) && rows[id := stored].Keys == rows.Keys
  {
    assert rows[id := stored].Keys == rows.Keys + {id};
  }

  // ---- the candidates of a scan ----

  /** Inserts behind every row that is no younger, so equal times keep their order. */
  function InsertByUpdatedAt(rows: Rows, sorted: seq<WorkflowId>, id: WorkflowId): (r: seq<WorkflowId>)
    requires id in rows && forall x | x in sorted :: x in rows
    ensures forall x | x in r :: x in rows
  {
    if sorted == [] then [id]
    else if rows[sorted[|sorted| - 1]].row.updatedAt <= rows[id].row.updatedAt then sorted + [id]
    else InsertByUpdatedAt(rows, sorted[..|sorted| - 1], id) + [sorted[|sorted| - 1]]
  }

  lemma {:induction false} InsertExactly(rows: Rows, sorted: seq<WorkflowId>, id: WorkflowId, x: WorkflowId)
    requires id in rows && forall x | x in sorted :: x in rows
    ensures x in InsertByUpdatedAt(rows, sorted, id) <==> x in sorted || x == id
    decreases |sorted|
  {
    if sorted != [] {
      InsertExactly(rows, sorted[..|sorted| - 1], id, x);
      assert sorted == sorted[..|sorted| - 1] + [sorted[|sorted| - 1]];
    }
  }

  /** The eligible rows, OrderBy(UpdatedAt). */
  function EligibleByAge(rows: Rows, order: seq<WorkflowId>, staleBefore: int, claimedAt: int): (r: seq<WorkflowId>)
    requires forall x | x in order :: x in rows
    ensures forall x | x in r :: x in rows
  {
    if order == [] then []
    else
      var last := order[|order| - 1];
      var sorted := EligibleByAge(rows, order[..|order| - 1], staleBefore, claimedAt);
      if IsEligible(rows[last].row, staleBefore, claimedAt) then InsertByUpdatedAt(rows, sorted, last) else sorted
  }

  lemma {:induction false} EligibleExactly(rows: Rows, order: seq<WorkflowId>, staleBefore: int, claimedAt: int, x: WorkflowId)
    requires forall x | x in order :: x in rows
    ensures x in EligibleByAge(rows, order, staleBefore, claimedAt) <==> x in order && IsEligible(rows[x].row, staleBefore, claimedAt)
    decreases |order|
  {
    if order != [] {
      EligibleExactly(rows, order[..|order| - 1], staleBefore, claimedAt, x);
      if IsEligible(rows[order[|order| - 1]].row, staleBefore, claimedAt) {
        InsertExactly(rows, EligibleByAge(rows, order[..|order| - 1], staleBefore, claimedAt), order[|order| - 1], x);
      }
      assert order == order[..|order| - 1] + [order[|order| - 1]];
    }
  }

  const WINDOW: nat := 100

  /** Take(100). */
  function Window(rows: Rows, order: seq<WorkflowId>, staleBefore: int, claimedAt: int): seq<WorkflowId>
    requires forall x | x in order :: x in rows
  {
    var all := EligibleByAge(rows, order, staleBefore, claimedAt);
    if |all| <= WINDOW then all else all[..WINDOW]
  }

  ghost predicate SortedByAge(rows: Rows, ids: seq<WorkflowId>)
    requires forall x | x in ids :: x in rows
  {
    forall i, j | 0 <= i < j < |ids| :: rows[ids[i]].row.updatedAt <= rows[ids[j]].row.updatedAt
  }

  lemma AppendKeepsSorted(rows: Rows, sorted: seq<WorkflowId>, id: WorkflowId)
    requires id in rows && (forall x | x in sorted :: x in rows && rows[x].row.updatedAt <= rows[id].row.updatedAt)
    requires SortedByAge(rows, sorted) && Distinct(sorted) && id !in sorted
    ensures SortedByAge(rows, sorted + [id]) && Distinct(sorted + [id])
  {
  }

  lemma InsertedBefore(rows: Rows, most: seq<WorkflowId>, id: WorkflowId, last: WorkflowId)
    requires id in rows && last in rows && last !in most && id != last
    requires forall x | x in most :: x in rows && rows[x].row.updatedAt <= rows[last].row.updatedAt
    requires rows[id].row.updatedAt <= rows[last].row.updatedAt
    ensures var r := InsertByUpdatedAt(rows, most, id);
            last !in r && forall x | x in r :: rows[x].row.updatedAt <= rows[last].row.updatedAt
  {
    var r := InsertByUpdatedAt(rows, most, id);
    forall x | x in r
      ensures x != last && rows[x].row.updatedAt <= rows[last].row.updatedAt
    {
      InsertExactly(rows, most, id, x);
    }
  }

  lemma {:induction false} InsertKeepsSorted(rows: Rows, sorted: seq<WorkflowId>, id: WorkflowId)
    requires id in rows && (forall x | x in sorted :: x in rows)
    requires SortedByAge(rows, sorted) && Distinct(sorted) && id !in sorted
    ensures SortedByAge(rows, InsertByUpdatedAt(rows, sorted, id)) && Distinct(InsertByUpdatedAt(rows, sorted, id))
    decreases |sorted|
  {
    if sorted == [] {
    } else {
      var most, last := sorted[..|sorted| - 1], sorted[|sorted| - 1];
      assert sorted == most + [last];
      forall x | x in sorted
        ensures rows[x].row.updatedAt <= rows[last].row.updatedAt
      {
        var k :| 0 <= k < |sorted| && sorted[k] == x;
      }
      assert last !in most;
      if rows[last].row.updatedAt <= rows[id].row.updatedAt {
        AppendKeepsSorted(rows, sorted, id);
      } else {
        InsertKeepsSorted(rows, most, id);
        InsertedBefore(rows, most, id, last);
        AppendKeepsSorted(rows, InsertByUpdatedAt(rows, most, id), last);
      }
    }
  }

  lemma {:induction false} EligibleIsSorted(rows: Rows, order: seq<WorkflowId>, staleBefore: int, claimedAt: int)
    requires (forall x | x in order :: x in rows) && Distinct(order)
    ensures SortedByAge(rows, EligibleByAge(rows, order, staleBefore, claimedAt))
    ensures Distinct(EligibleByAge(rows, order, staleBefore, claimedAt))
    decreases |order|
  {
    if order != [] {
      var most, last := order[..|order| - 1], order[|order| - 1];
      EligibleIsSorted(rows, most, staleBefore, claimedAt);
      if IsEligible(rows[last].row, staleBefore, claimedAt) {
        EligibleExactly(rows, most, staleBefore, claimedAt, last);
        InsertKeepsSorted(rows, EligibleByAge(rows, most, staleBefore, claimedAt), last);
      }
    }
  }

  /** The window holds eligible rows, each once, oldest first; it is full before any
      eligible row is left out, and none left out is older than one inside. */
  lemma WindowIsLeastRecent(rows: Rows, order: seq<WorkflowId>, staleBefore: int, claimedAt: int)
    requires (forall x | x in order :: x in rows) && Distinct(order)
    ensures var window := Window(rows, order, staleBefore, claimedAt);
            && |window| <= WINDOW
            && (forall x | x in window :: x in order && IsEligible(rows[x].row, staleBefore, claimedAt))
            && SortedByAge(rows, window) && Distinct(window)
            && forall x, y | x in order && IsEligible(rows[x].row, staleBefore, claimedAt) && x !in window && y in window ::
                 |window| == WINDOW && rows[y].row.updatedAt <= rows[x].row.updatedAt
    ensures Window(rows, order, staleBefore, claimedAt) == []
            ==> forall x | x in order :: !IsEligible(rows[x].row, staleBefore, claimedAt)
  {
    EligibleIsSorted(rows, order, staleBefore, claimedAt);
    var all := EligibleByAge(rows, order, staleBefore, claimedAt);
    var window := Window(rows, order, staleBefore, claimedAt);
    forall x | x in window
      ensures x in order && IsEligible(rows[x].row, staleBefore, claimedAt)
    {
      assert x in all;
      EligibleExactly(rows, order, staleBefore, claimedAt, x);
    }
    forall x | x in order && IsEligible(rows[x].row, staleBefore, claimedAt)
      ensures x in all
    {
      EligibleExactly(rows, order, staleBefore, claimedAt, x);
    }
    forall x, y | x in order && IsEligible(rows[x].row, staleBefore, claimedAt) && x !in window && y in window
      ensures |window| == WINDOW && rows[y].row.updatedAt <= rows[x].row.updatedAt
    {
      var i :| 0 <= i < |all| && all[i] == x;
      var j :| 0 <= j < |window| && window[j] == y;
      assert all[j] == y;
      assert i >= WINDOW;
    }
  }

  lemma WindowIsUsable(rows: Rows, order: seq<WorkflowId>, staleBefore: int, claimedAt: int)
    requires ValidRows(rows, order)
    ensures var window := Window(rows, order, staleBefore, claimedAt);
            && Distinct(window)
            && (forall x | x in window :: x in rows && x in order && IsEligible(rows[x].row, staleBefore, claimedAt))
            && SortedByAge(rows, window)
  {
    WindowIsLeastRecent(rows, order, staleBefore, claimedAt);
  }

  // ---- the outcome of a transaction ----

  function Outcome(stored: Stored, commit: Commit): Stored {
    if commit.Committed? then commit.stored else stored
  }

  function AfterExhaust(stored: Stored, at: int): Stored {
    Outcome(stored, CommitExhaust(stored, MapToDomain(stored), at))
  }

  function AfterClaim(stored: Stored, at: int, byWorker: bool, options: RecoveryOptions): Stored {
    Outcome(stored, CommitClaim(stored, MapToDomain(stored), at, byWorker, options))
  }

  /** A candidate that is still the stored row meets no unique index. */
  lemma CurrentCandidateCommits(stored: Stored, candidate: Workflow, row: Row, kind: EventKind, at: int)
    requires Dense(stored.events) && candidate == MapToDomain(stored)
    ensures var commit := CommitOneEvent(stored, candidate, row, kind, at);
            && commit.Committed? && Dense(commit.stored.events)
            && commit.stored.row == row
            && Log(commit.stored.events) == Log(stored.events) + [Event(kind, at)]
  {
    AppendOne(stored.events, Event(kind, at));
    DenseExtends(stored.events, Event(kind, at));
  }

  /** The claimed workflow as the claimer sees it. */
  function AsClaimed(candidate: Workflow, at: int, byWorker: bool, options: RecoveryOptions): Workflow {
    Workflow(ClaimedRow(candidate.row, candidate.row, at, byWorker, options),
             candidate.events + [Event(RecoveryClaimed, at)])
  }

  /** A candidate without attempts left as it is stored once it has been taken out. */
  function AsExhausted(candidate: Workflow, at: int): Workflow {
    Workflow(candidate.row.(status := Failed, updatedAt := at, version := candidate.row.version + 1,
                            lastErrorCode := Some("workflow_recovery_attempts_exhausted")),
             candidate.events + [Event(Abandoned, at)])
  }

  /** The columns a claim writes. */
  function WithClaim(row: Row, attempts: nat, nextAttemptAt: Option<int>, lastErrorCode: Option<string>, version: nat, at: int): Row {
    row.(status := Recovering, updatedAt := at, attempts := attempts, nextAttemptAt := nextAttemptAt,
         lastErrorCode := lastErrorCode, version := version + 1)
  }

  /** On a current candidate the claim commits and what the claimer sees is what is stored. */
  lemma CurrentClaim(stored: Stored, at: int, byWorker: bool, options: RecoveryOptions)
    requires Dense(stored.events)
    ensures var commit := CommitClaim(stored, MapToDomain(stored), at, byWorker, options);
            && commit.Committed? && Dense(commit.stored.events)
            && MapToDomain(commit.stored) == AsClaimed(MapToDomain(stored), at, byWorker, options)
  {
    CurrentCandidateCommits(stored, MapToDomain(stored),
      ClaimedRow(stored.row, stored.row, at, byWorker, options), RecoveryClaimed, at);
  }

  lemma CurrentExhaust(stored: Stored, at: int)
    requires Dense(stored.events)
    ensures var commit := CommitExhaust(stored, MapToDomain(stored), at);
            && commit.Committed? && Dense(commit.stored.events)
            && MapToDomain(commit.stored) == AsExhausted(MapToDomain(stored), at)
  {
    CurrentCandidateCommits(stored, MapToDomain(stored),
      stored.row.(status := Failed, updatedAt := at, lastErrorCode := Some("workflow_recovery_attempts_exhausted"),
                  version := stored.row.version + 1), EventKind.Abandoned, at);
  }

  lemma AfterExhaustIsSound(stored: Stored, at: int)
    requires ValidStored(stored)
    ensures CommitExhaust(stored, MapToDomain(stored), at).Committed?
    ensures ValidStored(AfterExhaust(stored, at)) && AfterExhaust(stored, at).row.id == stored.row.id
  {
    CurrentExhaust(stored, at);
  }

  lemma AfterClaimIsSound(stored: Stored, at: int, byWorker: bool, options: RecoveryOptions)
    requires ValidStored(stored)
    ensures CommitClaim(stored, MapToDomain(stored), at, byWorker, options).Committed?
    ensures ValidStored(AfterClaim(stored, at, byWorker, options))
    ensures AfterClaim(stored, at, byWorker, options).row.id == stored.row.id
    ensures MapToDomain(AfterClaim(stored, at, byWorker, options)) == AsClaimed(MapToDomain(stored), at, byWorker, options)
  {
    CurrentClaim(stored, at, byWorker, options);
  }

  // ---- the scan as a function ----

  function Ids(candidates: seq<Workflow>): (ids: seq<WorkflowId>)
    ensures |ids| == |candidates|
  {
    seq(|candidates|, i requires 0 <= i < |candidates| => candidates[i].row.id)
  }

  /** The candidates, events included, read before anything is written. */
  function Candidates(rows: Rows, order: seq<WorkflowId>, staleBefore: int, claimedAt: int): seq<Workflow>
    requires ValidRows(rows, order)
  {
    WindowIsUsable(rows, order, staleBefore, claimedAt);
    var window := Window(rows, order, staleBefore, claimedAt);
    seq(|window|, i requires 0 <= i < |window| => MapToDomain(rows[window[i]]))
  }

  /** Each candidate is still what is stored. */
  ghost predicate AreCurrent(rows: Rows, candidates: seq<Workflow>) {
    forall i | 0 <= i < |candidates| :: candidates[i].row.id in rows && candidates[i] == MapToDomain(rows[candidates[i].row.id])
  }

  lemma CurrentTail(rows: Rows, candidates: seq<Workflow>, ids: seq<WorkflowId>)
    requires AreCurrent(rows, candidates) && candidates != [] && ids == Ids(candidates)
    ensures AreCurrent(rows, candidates[1..]) && Ids(candidates[1..]) == ids[1..]
    ensures ids[0] == candidates[0].row.id && ids[0] in rows && candidates[0] == MapToDomain(rows[ids[0]])
  {
  }

  lemma CurrentElsewhere(rows: Rows, candidates: seq<Workflow>, id: WorkflowId, stored: Stored)
    requires AreCurrent(rows, candidates) && id !in Ids(candidates)
    ensures AreCurrent(rows[id := stored], candidates)
  {
    forall i | 0 <= i < |candidates|
      ensures candidates[i].row.id != id
    {
      assert Ids(candidates)[i] == candidates[i].row.id;
    }
  }

  lemma CandidatesAreCurrent(rows: Rows, order: seq<WorkflowId>, staleBefore: int, claimedAt: int)
    requires ValidRows(rows, order)
    ensures var candidates := Candidates(rows, order, staleBefore, claimedAt);
            && Ids(candidates) == Window(rows, order, staleBefore, claimedAt)
            && Distinct(Ids(candidates)) && AreCurrent(rows, candidates)
            && forall id | id in Ids(candidates) :: id in rows
  {
    WindowIsUsable(rows, order, staleBefore, claimedAt);
  }

  /** The rows once a scan has gone through its candidates, and the one it claimed. */
  function ScanFrom(rows: Rows, ids: seq<WorkflowId>, maxAttempts: nat,
                    exhaust: Stored -> Stored, claim: Stored -> Stored): (Rows, Option<WorkflowId>)
    requires forall id | id in ids :: id in rows
  {
    if ids == [] then (rows, None)
    else if rows[ids[0]].row.attempts >= maxAttempts
    then ScanFrom(rows[ids[0] := exhaust(rows[ids[0]])], ids[1..], maxAttempts, exhaust, claim)
    else (rows[ids[0] := claim(rows[ids[0]])], Some(ids[0]))
  }

  /** The first candidate that has attempts left. */
  function FirstClaimable(rows: Rows, ids: seq<WorkflowId>, maxAttempts: nat): (k: nat)
    requires forall id | id in ids :: id in rows
    ensures k <= |ids|
    ensures forall i | 0 <= i < k :: rows[ids[i]].row.attempts >= maxAttempts
    ensures k < |ids| ==> rows[ids[k]].row.attempts < maxAttempts
  {
    if ids == [] then 0
    else if rows[ids[0]].row.attempts < maxAttempts then 0
    else 1 + FirstClaimable(rows, ids[1..], maxAttempts)
  }

  lemma {:induction false} FirstClaimableElsewhere(rows: Rows, ids: seq<WorkflowId>, maxAttempts: nat, id: WorkflowId, stored: Stored)
    requires (forall x | x in ids :: x in rows) && id !in ids
    ensures FirstClaimable(rows[id := stored], ids, maxAttempts) == FirstClaimable(rows, ids, maxAttempts)
    decreases |ids|
  {
    if ids != [] {
      FirstClaimableElsewhere(rows, ids[1..], maxAttempts, id, stored);
    }
  }

  /** A row after a scan: failed if it stands before the first claimable candidate, claimed
      if it is that candidate, untouched otherwise. */
  function RowAfter(stored: Stored, id: WorkflowId, ids: seq<WorkflowId>, k: nat, exhaust: Stored -> Stored, claim: Stored -> Stored): Stored
    requires k <= |ids|
  {
    if id in ids[..k] then exhaust(stored)
    else if k < |ids| && id == ids[k] then claim(stored)
    else stored
  }

  lemma RowAfterFirst(stored: Stored, id: WorkflowId, ids: seq<WorkflowId>, k: nat, exhaust: Stored -> Stored, claim: Stored -> Stored)
    requires ids != [] && Distinct(ids) && k < |ids|
    ensures RowAfter(stored, id, ids, k + 1, exhaust, claim)
         == if id == ids[0] then exhaust(stored) else RowAfter(stored, id, ids[1..], k, exhaust, claim)
    ensures id == ids[0] ==> forall s :: RowAfter(s, id, ids[1..], k, exhaust, claim) == s
  {
    assert ids[..k + 1] == [ids[0]] + ids[1..][..k];
    assert ids[0] !in ids[1..] && ids[0] !in ids[1..][..k];
  }

  /** What a scan does, row by row: every exhausted candidate before the first claimable one
      is failed, that one is claimed, and nothing else changes. */
  lemma {:induction false} ScanMeaning(rows: Rows, ids: seq<WorkflowId>, maxAttempts: nat, exhaust: Stored -> Stored, claim: Stored -> Stored)
    requires (forall id | id in ids :: id in rows) && Distinct(ids)
    ensures var (after, claimed) := ScanFrom(rows, ids, maxAttempts, exhaust, claim);
            var k := FirstClaimable(rows, ids, maxAttempts);
            && after.Keys == rows.Keys
            && (forall id | id in rows :: after[id] == RowAfter(rows[id], id, ids, k, exhaust, claim))
            && claimed == if k < |ids| then Some(ids[k]) else None
    decreases |ids|
  {
    if ids != [] && rows[ids[0]].row.attempts >= maxAttempts {
      var next, rest := rows[ids[0] := exhaust(rows[ids[0]])], ids[1..];
      assert next.Keys == rows.Keys;
      assert ids[0] !in rest;
      ScanMeaning(next, rest, maxAttempts, exhaust, claim);
      FirstClaimableElsewhere(rows, rest, maxAttempts, ids[0], exhaust(rows[ids[0]]));
      var k := FirstClaimable(next, rest, maxAttempts);
      ScanShifts(rows, ids, k, exhaust, claim, ScanFrom(next, rest, maxAttempts, exhaust, claim).0);
    }
  }

  lemma ScanShifts(rows: Rows, ids: seq<WorkflowId>, k: nat, exhaust: Stored -> Stored, claim: Stored -> Stored, after: Rows)
    requires ids != [] && Distinct(ids) && k < |ids| && ids[0] in rows && after.Keys == rows.Keys
    requires var next := rows[ids[0] := exhaust(rows[ids[0]])];
             forall id | id in next :: id in after && after[id] == RowAfter(next[id], id, ids[1..], k, exhaust, claim)
    ensures forall id | id in rows :: after[id] == RowAfter(rows[id], id, ids, k + 1, exhaust, claim)
  {
    forall id | id in rows
      ensures after[id] == RowAfter(rows[id], id, ids, k + 1, exhaust, claim)
    {
      RowAfterFirst(rows[id], id, ids, k, exhaust, claim);
    }
  }

  /** One turn of the scan over candidates that are still current. */
  lemma ScanStep(rows: Rows, candidates: seq<Workflow>, maxAttempts: nat, exhaust: Stored -> Stored, claim: Stored -> Stored)
    requires candidates != [] && Distinct(Ids(candidates)) && AreCurrent(rows, candidates)
    requires forall id | id in Ids(candidates) :: id in rows
    ensures var id, rest := candidates[0].row.id, candidates[1..];
            && id in rows && candidates[0] == MapToDomain(rows[id])
            && Distinct(Ids(rest))
            && var next := rows[id := exhaust(rows[id])];
               && AreCurrent(next, rest) && (forall x | x in Ids(rest) :: x in next)
               && ScanFrom(rows, Ids(candidates), maxAttempts, exhaust, claim)
                  == if rows[id].row.attempts >= maxAttempts then ScanFrom(next, Ids(rest), maxAttempts, exhaust, claim)
                     else (rows[id := claim(rows[id])], Some(id))
  {
    var id, ids := candidates[0].row.id, Ids(candidates);
    CurrentTail(rows, candidates, ids);
    assert id !in ids[1..];
    CurrentElsewhere(rows, candidates[1..], id, exhaust(rows[id]));
  }

  function Exhauster(at: int): Stored -> Stored {
    (stored: Stored) => AfterExhaust(stored, at)
  }

  function Claimer(at: int, options: RecoveryOptions): Stored -> Stored {
    (stored: Stored) => AfterClaim(stored, at, true, options)
  }

  // ---- what a scan does to the database ----

  /** Of candidates in order of age the scan claims the oldest that has attempts left, takes
      every exhausted one before it out, and touches nothing else. */
  ghost predicate ScannedByAge(rows: Rows, ids: seq<WorkflowId>, after: Rows, claimed: Option<WorkflowId>, maxAttempts: nat,
                               exhaust: Stored -> Stored, claim: Stored -> Stored)
    requires forall x | x in ids :: x in rows
  {
    && after.Keys == rows.Keys
    && (claimed.Some? ==>
          && claimed.value in ids && rows[claimed.value].row.attempts < maxAttempts
          && after[claimed.value] == claim(rows[claimed.value])
          && forall x | x in ids && rows[x].row.attempts < maxAttempts :: rows[claimed.value].row.updatedAt <= rows[x].row.updatedAt)
    && (claimed.None? ==> forall x | x in ids :: rows[x].row.attempts >= maxAttempts)
    && (forall x | x in ids && rows[x].row.attempts >= maxAttempts
                   && (claimed.None? || rows[x].row.updatedAt < rows[claimed.value].row.updatedAt) ::
          after[x] == exhaust(rows[x]))
    && (forall x | x in rows ::
          || after[x] == rows[x] || claimed == Some(x)
          || (x in ids && rows[x].row.attempts >= maxAttempts && after[x] == exhaust(rows[x])))
  }

  lemma ScanByAge(rows: Rows, ids: seq<WorkflowId>, maxAttempts: nat, exhaust: Stored -> Stored, claim: Stored -> Stored)
    requires (forall id | id in ids :: id in rows) && Distinct(ids) && SortedByAge(rows, ids)
    ensures var (after, claimed) := ScanFrom(rows, ids, maxAttempts, exhaust, claim);
            ScannedByAge(rows, ids, after, claimed, maxAttempts, exhaust, claim)
  {
    ScanMeaning(rows, ids, maxAttempts, exhaust, claim);
    var k := FirstClaimable(rows, ids, maxAttempts);
    if k < |ids| {
      assert ids[k] !in ids[..k];
      forall x | x in ids && rows[x].row.attempts < maxAttempts
        ensures rows[ids[k]].row.updatedAt <= rows[x].row.updatedAt
      {
        NotBeforeFirst(rows, ids, maxAttempts, k, x);
      }
    }
    forall x | x in ids && rows[x].row.attempts >= maxAttempts
               && (k == |ids| || rows[x].row.updatedAt < rows[ids[k]].row.updatedAt)
      ensures x in ids[..k]
    {
      BeforeFirst(rows, ids, k, x);
    }
  }

  lemma NotBeforeFirst(rows: Rows, ids: seq<WorkflowId>, maxAttempts: nat, k: nat, x: WorkflowId)
    requires (forall id | id in ids :: id in rows) && SortedByAge(rows, ids) && k < |ids|
    requires forall i | 0 <= i < k :: rows[ids[i]].row.attempts >= maxAttempts
    requires x in ids && rows[x].row.attempts < maxAttempts
    ensures rows[ids[k]].row.updatedAt <= rows[x].row.updatedAt
  {
    var i :| 0 <= i < |ids| && ids[i] == x;
  }

  lemma BeforeFirst(rows: Rows, ids: seq<WorkflowId>, k: nat, x: WorkflowId)
    requires (forall id | id in ids :: id in rows) && SortedByAge(rows, ids) && k <= |ids| && x in ids
    requires k == |ids| || rows[x].row.updatedAt < rows[ids[k]].row.updatedAt
    ensures x in ids[..k]
  {
    var i :| 0 <= i < |ids| && ids[i] == x;
    assert i < k;
    assert ids[..k][i] == x;
  }

  lemma ExhaustedAsSeen(stored: Stored, at: int)
    requires ValidStored(stored)
    ensures MapToDomain(Exhauster(at)(stored)) == AsExhausted(MapToDomain(stored), at)
  {
    CurrentExhaust(stored, at);
  }

  lemma ClaimedAsSeen(stored: Stored, at: int, options: RecoveryOptions)
    requires ValidStored(stored)
    ensures MapToDomain(Claimer(at, options)(stored)) == AsClaimed(MapToDomain(stored), at, true, options)
  {
    CurrentClaim(stored, at, true, options);
  }

  // ---- one scan, in terms of the rows ----

  /** A row the worker may take at this time. */
  predicate Due(row: Row, staleBefore: int, at: int) {
    && (row.status == Draft || row.status == Recovering)
    && row.updatedAt <= staleBefore
    && (row.nextAttemptAt.None? || row.nextAttemptAt.value <= at)
  }

  predicate DueAt(rows: Rows, id: WorkflowId, staleBefore: int, at: int) {
    id in rows && Due(rows[id].row, staleBefore, at)
  }

  /** The due rows no younger than this one, itself among them. */
  ghost function NoYounger(rows: Rows, id: WorkflowId, staleBefore: int, at: int): set<WorkflowId>
    requires id in rows
  {
    set x | x in rows && DueAt(rows, x, staleBefore, at) && rows[x].row.updatedAt <= rows[id].row.updatedAt
  }

  /** Due, and one of the 100 oldest whatever the order of equal times. */
  ghost predicate InReach(rows: Rows, id: WorkflowId, staleBefore: int, at: int) {
    DueAt(rows, id, staleBefore, at) && |NoYounger(rows, id, staleBefore, at)| <= 100
  }

  ghost predicate Claimable(rows: Rows, id: WorkflowId, staleBefore: int, at: int, options: RecoveryOptions) {
    InReach(rows, id, staleBefore, at) && rows[id].row.attempts < options.maxAttempts
  }

  /** Due with attempts left, and no younger than any row the scan can claim. */
  ghost predicate OldestClaimable(rows: Rows, id: WorkflowId, staleBefore: int, at: int, options: RecoveryOptions) {
    && DueAt(rows, id, staleBefore, at) && rows[id].row.attempts < options.maxAttempts
    && forall x | Claimable(rows, x, staleBefore, at, options) :: rows[id].row.updatedAt <= rows[x].row.updatedAt
  }

  ghost predicate AnyDue(rows: Rows, staleBefore: int, at: int) {
    exists x :: DueAt(rows, x, staleBefore, at)
  }

  ghost predicate AnyClaimable(rows: Rows, staleBefore: int, at: int, options: RecoveryOptions) {
    exists x :: Claimable(rows, x, staleBefore, at, options)
  }

  function Elements(ids: seq<WorkflowId>): set<WorkflowId> {
    set x | x in ids
  }

  lemma {:induction false} DistinctSize(ids: seq<WorkflowId>)
    requires Distinct(ids)
    ensures |Elements(ids)| == |ids|
  {
    if ids == [] {
      assert Elements(ids) == {};
    } else {
      var most, last := ids[..|ids| - 1], ids[|ids| - 1];
      DistinctSize(most);
      assert ids == most + [last];
      assert Elements(ids) == Elements(most) + {last};
      assert last !in Elements(most);
    }
  }

  lemma DueIsEligible(row: Row, staleBefore: int, at: int)
    ensures IsEligible(row, staleBefore, at) <==> Due(row, staleBefore, at)
  {
  }

  lemma SubsetCounts(small: set<WorkflowId>, large: set<WorkflowId>)
    requires small <= large
    ensures |small| <= |large|
  {
    assert large == small + (large - small);
  }

  lemma EligibleIsDue(rows: Rows, order: seq<WorkflowId>, staleBefore: int, at: int)
    requires forall x :: x in order <==> x in rows
    ensures forall x :: DueAt(rows, x, staleBefore, at) <==> x in order && IsEligible(rows[x].row, staleBefore, at)
  {
    forall x | x in rows
      ensures DueAt(rows, x, staleBefore, at) <==> IsEligible(rows[x].row, staleBefore, at)
    {
      DueIsEligible(rows[x].row, staleBefore, at);
    }
  }

  /** The due rows, oldest first, as many as a scan reads. */
  ghost predicate LeastRecent(rows: Rows, window: seq<WorkflowId>, staleBefore: int, at: int) {
    && (forall x | x in window :: DueAt(rows, x, staleBefore, at))
    && Distinct(window) && SortedByAge(rows, window)
    && (forall x, y | DueAt(rows, x, staleBefore, at) && x !in window && y in window ::
          |window| == 100 && rows[y].row.updatedAt <= rows[x].row.updatedAt)
    && (window == [] ==> !AnyDue(rows, staleBefore, at))
  }

  lemma WindowIsDue(rows: Rows, order: seq<WorkflowId>, window: seq<WorkflowId>, staleBefore: int, at: int)
    requires ValidRows(rows, order) && window == Window(rows, order, staleBefore, at)
    ensures LeastRecent(rows, window, staleBefore, at)
  {
    WindowIsLeastRecent(rows, order, staleBefore, at);
    EligibleIsDue(rows, order, staleBefore, at);
  }

  /** A due row is left out of the window only by 100 others that are no younger. */
  lemma LeftOutIsFar(rows: Rows, window: seq<WorkflowId>, id: WorkflowId, staleBefore: int, at: int)
    requires DueAt(rows, id, staleBefore, at) && id !in window && Distinct(window) && |window| == 100
    requires forall y | y in window :: DueAt(rows, y, staleBefore, at) && rows[y].row.updatedAt <= rows[id].row.updatedAt
    ensures |NoYounger(rows, id, staleBefore, at)| > 100
  {
    DistinctSize(window);
    var inside := Elements(window);
    var all := NoYounger(rows, id, staleBefore, at);
    assert id !in inside && |inside + {id}| == 101;
    assert inside + {id} <= all;
    SubsetCounts(inside + {id}, all);
  }

  lemma ReachIsInWindow(rows: Rows, window: seq<WorkflowId>, id: WorkflowId, staleBefore: int, at: int)
    requires LeastRecent(rows, window, staleBefore, at) && InReach(rows, id, staleBefore, at)
    ensures id in window
  {
    if id !in window {
      assert window != [] && window[0] in window;
      LeftOutIsFar(rows, window, id, staleBefore, at);
    }
  }

  /** What a scan does to the rows, and whom it claims: the oldest row in reach with attempts
      left. Every row in reach without any that is older is failed; nothing is claimed only if
      nothing in reach has attempts left, and nothing changes only if nothing is due. */
  ghost predicate ScanEffect(rows: Rows, after: Rows, staleBefore: int, at: int, options: RecoveryOptions, claimed: Option<WorkflowId>) {
    && after.Keys == rows.Keys
    && (claimed.Some? ==>
          && OldestClaimable(rows, claimed.value, staleBefore, at, options)
          && MapToDomain(after[claimed.value]) == AsClaimed(MapToDomain(rows[claimed.value]), at, true, options))
    && (claimed.None? ==> forall x | InReach(rows, x, staleBefore, at) :: rows[x].row.attempts >= options.maxAttempts)
    && (forall x | InReach(rows, x, staleBefore, at) && rows[x].row.attempts >= options.maxAttempts
                   && (claimed.None? || rows[x].row.updatedAt < rows[claimed.value].row.updatedAt) ::
          Expires(rows, after, x, staleBefore, at, options))
    && (claimed.None? && after == rows ==> !AnyDue(rows, staleBefore, at))
    && (forall x | x in rows :: after[x] == rows[x] || claimed == Some(x) || Expires(rows, after, x, staleBefore, at, options))
  }

  /** A row that was due without attempts left and has been failed. */
  predicate Expires(rows: Rows, after: Rows, x: WorkflowId, staleBefore: int, at: int, options: RecoveryOptions)
    requires x in rows && x in after
  {
    && DueAt(rows, x, staleBefore, at) && rows[x].row.attempts >= options.maxAttempts
    && MapToDomain(after[x]) == AsExhausted(MapToDomain(rows[x]), at)
  }

  lemma ScannedClaim(rows: Rows, window: seq<WorkflowId>, after: Rows, id: WorkflowId, staleBefore: int, at: int, options: RecoveryOptions)
    requires (forall x | x in window :: x in rows)
    requires ScannedByAge(rows, window, after, Some(id), options.maxAttempts, Exhauster(at), Claimer(at, options))
    requires DueAt(rows, id, staleBefore, at) && ValidStored(rows[id])
    requires forall x | InReach(rows, x, staleBefore, at) :: x in window
    ensures OldestClaimable(rows, id, staleBefore, at, options)
    ensures MapToDomain(after[id]) == AsClaimed(MapToDomain(rows[id]), at, true, options)
  {
    ClaimedAsSeen(rows[id], at, options);
  }

  lemma ScannedOther(rows: Rows, window: seq<WorkflowId>, after: Rows, claimed: Option<WorkflowId>, x: WorkflowId,
                     staleBefore: int, at: int, options: RecoveryOptions)
    requires (forall y | y in window :: y in rows)
    requires ScannedByAge(rows, window, after, claimed, options.maxAttempts, Exhauster(at), Claimer(at, options))
    requires x in rows && ValidStored(rows[x]) && (x in window ==> DueAt(rows, x, staleBefore, at))
    ensures after[x] == rows[x] || claimed == Some(x) || Expires(rows, after, x, staleBefore, at, options)
    ensures x in window && rows[x].row.attempts >= options.maxAttempts
            && (claimed.None? || rows[x].row.updatedAt < rows[claimed.value].row.updatedAt) ==>
              Expires(rows, after, x, staleBefore, at, options)
  {
    ExhaustedAsSeen(rows[x], at);
  }

  /** A scan that changes nothing had nothing to read. */
  lemma ScannedIdle(rows: Rows, window: seq<WorkflowId>, staleBefore: int, at: int, options: RecoveryOptions)
    requires LeastRecent(rows, window, staleBefore, at) && forall x | x in rows :: ValidStored(rows[x])
    requires ScannedByAge(rows, window, rows, None, options.maxAttempts, Exhauster(at), Claimer(at, options))
    ensures !AnyDue(rows, staleBefore, at)
  {
    if window != [] {
      var x := window[0];
      assert x in window;
      ExhaustedAsSeen(rows[x], at);
      assert false;
    }
  }

  lemma WindowReaches(rows: Rows, window: seq<WorkflowId>, staleBefore: int, at: int)
    requires LeastRecent(rows, window, staleBefore, at)
    ensures forall x | InReach(rows, x, staleBefore, at) :: x in window
  {
    forall x | InReach(rows, x, staleBefore, at)
      ensures x in window
    {
      ReachIsInWindow(rows, window, x, staleBefore, at);
    }
  }

  lemma ScannedRows(rows: Rows, window: seq<WorkflowId>, after: Rows, claimed: Option<WorkflowId>,
                    staleBefore: int, at: int, options: RecoveryOptions)
    requires (forall x | x in rows :: ValidStored(rows[x])) && (forall x | x in window :: x in rows && DueAt(rows, x, staleBefore, at))
    requires forall x | InReach(rows, x, staleBefore, at) :: x in window
    requires ScannedByAge(rows, window, after, claimed, options.maxAttempts, Exhauster(at), Claimer(at, options))
    requires claimed.None? && after == rows ==> !AnyDue(rows, staleBefore, at)
    ensures ScanEffect(rows, after, staleBefore, at, options, claimed)
  {
    if claimed.Some? {
      ScannedClaim(rows, window, after, claimed.value, staleBefore, at, options);
    }
    forall x | x in rows
      ensures after[x] == rows[x] || claimed == Some(x) || Expires(rows, after, x, staleBefore, at, options)
      ensures x in window && rows[x].row.attempts >= options.maxAttempts
              && (claimed.None? || rows[x].row.updatedAt < rows[claimed.value].row.updatedAt) ==>
                Expires(rows, after, x, staleBefore, at, options)
    {
      ScannedOther(rows, window, after, claimed, x, staleBefore, at, options);
    }
  }

  /** ClaimNextAsync, run alone, in terms of the rows. */
  lemma ScanLeaves(rows: Rows, order: seq<WorkflowId>, window: seq<WorkflowId>, staleBefore: int, at: int, options: RecoveryOptions)
    requires ValidRows(rows, order) && window == Window(rows, order, staleBefore, at)
    ensures forall x | x in window :: x in rows
    ensures var scan := ScanFrom(rows, window, options.maxAttempts, Exhauster(at), Claimer(at, options));
            ScanEffect(rows, scan.0, staleBefore, at, options, scan.1)
  {
    WindowIsDue(rows, order, window, staleBefore, at);
    ScanByAge(rows, window, options.maxAttempts, Exhauster(at), Claimer(at, options));
    var scan := ScanFrom(rows, window, options.maxAttempts, Exhauster(at), Claimer(at, options));
    WindowReaches(rows, window, staleBefore, at);
    if scan.1.None? && scan.0 == rows {
      ScannedIdle(rows, window, staleBefore, at, options);
    }
    ScannedRows(rows, window, scan.0, scan.1, staleBefore, at, options);
  }

  /** The claimed one's key. */
  function ClaimedId(claimed: Option<Workflow>): Option<WorkflowId> {
    if claimed.Some? then Some(claimed.value.row.id) else None
  }
}
