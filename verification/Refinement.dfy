/** The imperative calls are the protocol's actors run without an interruption: what a
    method leaves in the database is what the actor's steps leave, one after the other. */
module Refinement {
  import opened Text
  import opened Domain
  import opened EventTable
  import opened Store
  import opened Service
  import opened Protocol
  import opened Scanning
  import opened Operations

  /** The actor's next steps, at these times, with nobody else moving. */
  function Alone(a: ActorId, times: seq<int>): seq<Move> {
    seq(|times|, i requires 0 <= i < |times| => Move(a, Proceed(times[i])))
  }

  /** One actor's steps over the stored workflow alone. */
  function Proceeds(config: Config, stored: Stored, actor: Actor, times: seq<int>): (Stored, Actor)
    decreases |times|
  {
    if times == [] then (stored, actor)
    else
      var (next, moved) := Act(config, stored, actor, Proceed(times[0]));
      Proceeds(config, next, moved, times[1..])
  }

  /** In the whole system they are the same steps. */
  lemma {:induction false} AloneIsProceeds(config: Config, s: State, a: ActorId, times: seq<int>)
    ensures Legal(config, s, Alone(a, times))
    ensures var after := Run(config, s, Alone(a, times));
            (after.stored, ActorAt(after, a)) == Proceeds(config, s.stored, ActorAt(s, a), times)
    decreases |times|
  {
    if times != [] {
      var moves := Alone(a, times);
      assert moves[1..] == Alone(a, times[1..]);
      AloneIsProceeds(config, Step(config, s, a, Proceed(times[0])), a, times[1..]);
    }
  }

  lemma ThreeProceeds(config: Config, stored: Stored, actor: Actor, times: seq<int>)
    requires |times| >= 3
    ensures var (s1, a1) := Act(config, stored, actor, Proceed(times[0]));
            var (s2, a2) := Act(config, s1, a1, Proceed(times[1]));
            var (s3, a3) := Act(config, s2, a2, Proceed(times[2]));
            Proceeds(config, stored, actor, times) == Proceeds(config, s3, a3, times[3..])
  {
    assert times[1..][1..] == times[2..] && times[2..][1..] == times[3..];
    var (s1, a1) := Act(config, stored, actor, Proceed(times[0]));
    assert Proceeds(config, stored, actor, times) == Proceeds(config, s1, a1, times[1..]);
    var (s2, a2) := Act(config, s1, a1, Proceed(times[1]));
    assert times[1..][0] == times[1];
    assert Proceeds(config, s1, a1, times[1..]) == Proceeds(config, s2, a2, times[2..]);
    assert times[2..][0] == times[2];
  }

  lemma ReadStep(config: Config, stored: Stored, current: Workflow, todo: seq<Write>, now: int)
    requires todo != [] && stored.row.version == current.row.version
    ensures Act(config, stored, Running(current, todo), Proceed(now))
         == (stored, VersionRead(current, NextState(current, todo[0], now), todo))
  {
  }

  lemma CountStep(config: Config, stored: Stored, current: Workflow, next: Workflow, todo: seq<Write>, now: int)
    ensures Act(config, stored, VersionRead(current, next, todo), Proceed(now))
         == (stored, EventsCounted(current, next, |stored.events|, todo))
  {
  }

  lemma CommitStep(config: Config, stored: Stored, current: Workflow, next: Workflow, todo: seq<Write>, now: int)
    requires todo != [] && CommitUpdate(stored, next, current.row.version, |stored.events|).Committed?
    ensures Act(config, stored, EventsCounted(current, next, |stored.events|, todo), Proceed(now))
         == (CommitUpdate(stored, next, current.row.version, |stored.events|).stored, Running(next, todo[1..]))
  {
  }

  lemma CurrentUpdateCommits(stored: Stored, write: Write, now: int)
    requires ValidStored(stored)
    ensures CommitUpdate(stored, NextState(MapToDomain(stored), write, now), stored.row.version, |stored.events|).Committed?
  {
    InsertAppends(stored.events, NextState(MapToDomain(stored), write, now).events);
  }

  /** One write: the version is read, the events are counted, the transaction commits. */
  lemma WriteIsThreeSteps(config: Config, stored: Stored, todo: seq<Write>, times: seq<int>)
    requires todo != [] && |times| >= 3 && ValidStored(stored)
    ensures Proceeds(config, stored, Running(MapToDomain(stored), todo), times)
         == Proceeds(config, Written(stored, MapToDomain(stored), todo[0], times[0]),
                     Running(NextState(MapToDomain(stored), todo[0], times[0]), todo[1..]), times[3..])
  {
    var current := MapToDomain(stored);
    var next := NextState(current, todo[0], times[0]);
    ThreeProceeds(config, stored, Running(current, todo), times);
    ReadStep(config, stored, current, todo, times[0]);
    CountStep(config, stored, current, next, todo, times[1]);
    CurrentUpdateCommits(stored, todo[0], times[0]);
    CommitStep(config, stored, current, next, todo, times[2]);
  }

  /** Every third time, the one at which a write was stamped. */
  function WriteTimes(times: seq<int>, n: nat): (r: seq<int>)
    requires 3 * n <= |times|
    ensures |r| == n
  {
    if n == 0 then [] else [times[0]] + WriteTimes(times[3..], n - 1)
  }

  lemma PersistUnrolls(current: Workflow, todo: seq<Write>, times: seq<int>)
    requires todo != [] && |times| == 3 * |todo|
    ensures Persist(current, todo, WriteTimes(times, |todo|))
         == Persist(NextState(current, todo[0], times[0]), todo[1..], WriteTimes(times[3..], |todo[1..]|))
  {
    var stamps := WriteTimes(times, |todo|);
    assert stamps == [times[0]] + WriteTimes(times[3..], |todo| - 1);
    assert stamps[0] == times[0] && stamps[1..] == WriteTimes(times[3..], |todo[1..]|);
  }

  /** A routing actor left alone stores exactly what the service's routing call stores. */
  lemma {:induction false} RoutingRefines(config: Config, stored: Stored, todo: seq<Write>, times: seq<int>)
    requires |times| == 3 * |todo| && ValidStored(stored)
    ensures var (after, actor) := Proceeds(config, stored, Running(MapToDomain(stored), todo), times);
            && MapToDomain(after) == Persist(MapToDomain(stored), todo, WriteTimes(times, |todo|))
            && actor == Running(MapToDomain(after), [])
            && after.decisions == stored.decisions && ValidStored(after)
    decreases |todo|
  {
    if todo == [] {
    } else {
      var current := MapToDomain(stored);
      var next := Written(stored, current, todo[0], times[0]);
      WriteIsThreeSteps(config, stored, todo, times);
      WrittenIsNext(stored, todo[0], times[0]);
      PersistUnrolls(current, todo, times);
      RoutingRefines(config, next, todo[1..], times[3..]);
    }
  }

  /** A worker left alone with an eligible workflow does what ClaimNextAsync does to it. */
  lemma ClaimRefines(config: Config, stored: Stored, staleBefore: int, at: int, now: int)
    requires ValidStored(stored) && IsEligible(stored.row, staleBefore, at)
    ensures var (seen, claiming) := Act(config, stored, Idle, Scan(staleBefore, at));
            && seen == stored
            && Act(config, seen, claiming, Proceed(now))
               == if stored.row.attempts >= config.options.maxAttempts then (Exhauster(at)(stored), Stopped)
                  else (Claimer(at, config.options)(stored), Actor.Claimed)
  {
    CurrentExhaust(stored, at);
    CurrentClaim(stored, at, true, config.options);
  }

  /** The trigger's actor on any workflow: a Draft is claimed as ClaimAsync claims it, with its
      attempt count and its due time as they are, and anything else ends the call. */
  lemma TriggerRefines(config: Config, stored: Stored, at: int, now: int)
    requires ValidStored(stored)
    ensures var (seen, claiming) := Act(config, stored, Idle, Trigger(at));
            && seen == stored
            && (stored.row.status == Draft ==>
                  var (after, actor) := Act(config, seen, claiming, Proceed(now));
                  && actor == Actor.Claimed
                  && MapToDomain(after) == AsClaimed(MapToDomain(stored), at, false, config.options)
                  && after.row.attempts == stored.row.attempts && after.row.nextAttemptAt == stored.row.nextAttemptAt
                  && SameSideTables(after, stored))
            && (stored.row.status != Draft ==> claiming == Stopped)
  {
    CurrentClaim(stored, at, false, config.options);
  }

  /** A scan passes over what it may not take. */
  lemma ScanPasses(config: Config, stored: Stored, staleBefore: int, at: int)
    ensures Act(config, stored, Idle, Scan(staleBefore, at))
         == (stored, if Due(stored.row, staleBefore, at) then Claiming(MapToDomain(stored), at, true) else Stopped)
  {
    DueIsEligible(stored.row, staleBefore, at);
  }

  /** An actor whose version is no longer the stored one stops at the read and at the commit,
      and changes nothing; a decision that was about to commit looks for the winner. */
  lemma StaleIsNoticed(config: Config, stored: Stored, current: Workflow, next: Workflow, count: nat, todo: seq<Write>,
                       verdict: Verdict, now: int)
    requires stored.row.version != current.row.version
    ensures Act(config, stored, Running(current, todo), Proceed(now)) == (stored, Stopped)
    ensures Act(config, stored, EventsCounted(current, next, count, todo), Proceed(now)) == (stored, Stopped)
    ensures Act(config, stored, Claiming(current, now, true), Proceed(now)) == (stored, Stopped)
    ensures Act(config, stored, Claiming(current, now, false), Proceed(now)) == (stored, Stopped)
    ensures Act(config, stored, NoDecisionSeen(current, verdict), Proceed(now)) == (stored, Stopped)
    ensures Act(config, stored, DecisionCounted(current, verdict, count), Proceed(now)) == (stored, DecisionLost(verdict))
  {
  }

  /** An approval that lost its race answers exactly when the winner decided the same. */
  lemma LosingRefines(config: Config, stored: Stored, verdict: Verdict, now: int)
    ensures var (after, actor) := Act(config, stored, DecisionLost(verdict), Proceed(now));
            && after == stored
            && (actor.Answered? <==> stored.decisions != [] && EqualsIgnoreCase(stored.decisions[0].decision, verdict.decision))
            && (actor.Answered? ==> actor.decision == verdict.decision)
  {
  }

  lemma FourProceeds(config: Config, stored: Stored, actor: Actor, times: seq<int>)
    requires |times| == 4
    ensures var (s1, a1) := Act(config, stored, actor, Proceed(times[0]));
            var (s2, a2) := Act(config, s1, a1, Proceed(times[1]));
            var (s3, a3) := Act(config, s2, a2, Proceed(times[2]));
            Proceeds(config, stored, actor, times) == Act(config, s3, a3, Proceed(times[3]))
  {
    ThreeProceeds(config, stored, actor, times);
    assert times[3..][1..] == [];
  }

  lemma DecideStep(config: Config, stored: Stored, current: Workflow, verdict: Verdict, now: int)
    requires stored.row.version == current.row.version
    ensures stored.decisions == [] ==> Act(config, stored, Deciding(current, verdict), Proceed(now)) == (stored, NoDecisionSeen(current, verdict))
    ensures Act(config, stored, NoDecisionSeen(current, verdict), Proceed(now)) == (stored, DecisionVersionRead(current, verdict))
    ensures Act(config, stored, DecisionVersionRead(current, verdict), Proceed(now))
         == (stored, DecisionCounted(current, verdict, |stored.events|))
  {
  }

  /** An approval left alone stores exactly what the service's approval call stores, and
      returns exactly when that call does. */
  lemma ApprovalRefines(config: Config, stored: Stored, verdict: Verdict, times: seq<int>)
    requires |times| == 4 && ActIdle(stored, Approve(verdict)).Deciding?
    ensures var current := MapToDomain(stored);
            var commit := DecisionCommit(stored, current, verdict, |stored.events|);
            var (after, actor) := Proceeds(config, stored, Deciding(current, verdict), times);
            && after == (if stored.decisions == [] then Outcome(stored, commit) else stored)
            && (actor.Answered? <==> if stored.decisions == [] then commit.Committed?
                                     else EqualsIgnoreCase(stored.decisions[0].decision, verdict.decision))
  {
    var current := MapToDomain(stored);
    FourProceeds(config, stored, Deciding(current, verdict), times);
    DecideStep(config, stored, current, verdict, times[0]);
    DecideStep(config, stored, current, verdict, times[1]);
    DecideStep(config, stored, current, verdict, times[2]);
  }
}
