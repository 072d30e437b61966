/**
 How many claims a new job can have to wait for. Claims take the head of the queue and new
 jobs join at its end; retried and reclaimed jobs keep their old place, ahead of newer ones.
*/
module Overtaking {
  import opened Wrappers
  import opened Contract
  import opened Tables
  import opened Statements
  import opened Cluster
  import opened Runs
  import opened Remaining
  import Outcomes

  /** A claim takes the head, as it does when no row is locked by somebody else. */
  predicate TakesHead(s: State, e: Event) {
    e.ClaimOne? ==> e.w in s.procs && IsHead(s.db.jobs, s.procs[e.w].build, e.id)
  }

  predicate JoinsAtEnd(before: map<JobId, Job>, after: map<JobId, Job>, id: JobId)
    requires id in after
  {
    forall k | k in before :: Precedes(before[k], k, Some(Place(after[id].createdAt, id)))
  }

  /** A job created in this step comes after every job there is. */
  predicate KeysIncrease(s: State, t: State) {
    forall id | id in t.db.jobs && id !in s.db.jobs :: JoinsAtEnd(s.db.jobs, t.db.jobs, id)
  }

  /** Event `i` creates a job. */
  predicate Creates(ss: seq<State>, es: seq<Event>, i: nat)
    requires |ss| == |es| + 1
  {
    i < |es| && es[i].EnqueueJob? && es[i].newId in ss[i + 1].db.jobs
  }

  /** The clock has moved on whenever another job is created. */
  ghost predicate ClockTicks(ss: seq<State>, es: seq<Event>)
    requires |ss| == |es| + 1
  {
    forall i: nat, k: nat | i < k :: Creates(ss, es, i) && Creates(ss, es, k) ==> ss[i].now < ss[k].now
  }

  ghost predicate IsFifoRun(ss: seq<State>, es: seq<Event>) {
    && IsRun(ss, es) && ClockTicks(ss, es)
    && forall i {:trigger es[i]} :: 0 <= i < |es| ==> TakesHead(ss[i], es[i])
  }

  /** As jobs are stamped with the clock, each joins the queue at its end. */
  lemma KeysIncreaseWithTheClock(ss: seq<State>, es: seq<Event>, k: nat)
    requires IsRun(ss, es) && ClockTicks(ss, es) && k < |es|
    ensures KeysIncrease(ss[k], ss[k + 1])
  {
    forall y | y in ss[k + 1].db.jobs && y !in ss[k].db.jobs
      ensures JoinsAtEnd(ss[k].db.jobs, ss[k + 1].db.jobs, y)
    {
      RunKeepsInv(ss, es, k);
      assert Step(ss[k], es[k], ss[k + 1]);
      Outcomes.NewRowIsWritten(ss[k], es[k], y);
      forall x | x in ss[k].db.jobs
        ensures ss[k].db.jobs[x].createdAt < ss[k + 1].db.jobs[y].createdAt
      {
        var i := Outcomes.CreatedByTheClock(ss, es, k, x);
        assert Creates(ss, es, i) && Creates(ss, es, k);
      }
    }
  }

  /** A claim by a worker of `build`. */
  predicate ClaimsOf(s: State, e: Event, build: Build) {
    e.ClaimOne? && e.w in s.procs && s.procs[e.w].build == build
  }

  /** Claims of the build among events `m` to `n`. */
  function ClaimsBetween(ss: seq<State>, es: seq<Event>, build: Build, m: nat, n: nat): nat
    requires m <= n <= |es| < |ss|
    decreases n - m
  {
    if m == n then 0
    else ClaimsBetween(ss, es, build, m, n - 1) + if ClaimsOf(ss[n - 1], es[n - 1], build) then 1 else 0
  }

  /** The row a claim of the waiting job's build takes is ahead of it and has an attempt to spend. */
  lemma HeadIsAhead(jobs: map<JobId, Job>, build: Build, head: JobId, x: JobId, cap: nat)
    requires IsHead(jobs, build, head) && Claimable(jobs, build, x) && x != head
    requires Tables.RowsOk(jobs, cap)
    ensures Precedes(jobs[head], head, Some(Place(jobs[x].createdAt, x)))
    ensures Live(jobs[head]) && jobs[head].attempts < cap && BuildOf(jobs[head].identity) == build
  {
    assert Before(jobs, head, x);
    assert RowOk(jobs[head], cap);
  }

  lemma NewcomersBehind(s: State, t: State, x: JobId)
    requires KeysIncrease(s, t) && x in s.db.jobs
    ensures NewRowsBehind(s.db.jobs, t.db.jobs, Some(Place(s.db.jobs[x].createdAt, x)))
  {
    forall id | id in t.db.jobs && id !in s.db.jobs
      ensures !Precedes(t.db.jobs[id], id, Some(Place(s.db.jobs[x].createdAt, x)))
    {
      assert JoinsAtEnd(s.db.jobs, t.db.jobs, id);
    }
  }

  /** While `x` waits, every claim of its build spends an attempt of a job ahead of it. */
  lemma WaitingStep(s: State, e: Event, t: State, x: JobId)
    requires Tables.RowsOk(s.db.jobs, s.cap) && StepFacts(s, e, t)
    requires TakesHead(s, e) && KeysIncrease(s, t)
    requires x in s.db.jobs && s.db.jobs[x].status == Queued && !Claims(e, x)
    ensures var build := BuildOf(s.db.jobs[x].identity);
      var limit := Some(Place(s.db.jobs[x].createdAt, x));
      Left(t.db.jobs, s.cap, build, limit) + (if ClaimsOf(s, e, build) then 1 else 0)
      <= Left(s.db.jobs, s.cap, build, limit)
  {
    var build := BuildOf(s.db.jobs[x].identity);
    var limit := Some(Place(s.db.jobs[x].createdAt, x));
    NewcomersBehind(s, t, x);
    if ClaimsOf(s, e, build) {
      HeadIsAhead(s.db.jobs, build, e.id, x, s.cap);
      assert Attempts(t.db.jobs, e.id) == Attempts(s.db.jobs, e.id) + 1;
      ClaimSpendsOne(s.db.jobs, t.db.jobs, e.id, s.cap, build, limit);
    } else {
      LeftNeverRises(s.db.jobs, t.db.jobs, s.cap, build, limit);
    }
  }

  lemma StillQueued(s: State, e: Event, t: State, x: JobId)
    requires StepFacts(s, e, t)
    requires x in s.db.jobs && s.db.jobs[x].status == Queued && !Claims(e, x)
    ensures x in t.db.jobs && t.db.jobs[x].status == Queued && SameOrigin(s.db.jobs[x], t.db.jobs[x])
  {
    assert RowStep(s.db.jobs[x], t.db.jobs[x]);
    assert AttemptsCount(s.db.jobs, e, t.db.jobs);
    assert Attempts(t.db.jobs, x) == Attempts(s.db.jobs, x);
  }

  /** While `x` waits it keeps its place, and a claim of its build uses up what is left ahead of it. */
  ghost predicate WaitingRule(s: State, e: Event, t: State, x: JobId) {
    x in s.db.jobs && s.db.jobs[x].status == Queued && !Claims(e, x) ==>
      && x in t.db.jobs && t.db.jobs[x].status == Queued && SameOrigin(s.db.jobs[x], t.db.jobs[x])
      && t.cap == s.cap
      && var build := BuildOf(s.db.jobs[x].identity);
         var limit := Some(Place(s.db.jobs[x].createdAt, x));
         Left(t.db.jobs, s.cap, build, limit) + (if ClaimsOf(s, e, build) then 1 else 0)
         <= Left(s.db.jobs, s.cap, build, limit)
  }

  /** All that the wait of `x` depends on. */
  ghost predicate WaitingHistory(ss: seq<State>, es: seq<Event>, x: JobId) {
    |ss| == |es| + 1 && forall i {:trigger es[i]} :: 0 <= i < |es| ==> WaitingRule(ss[i], es[i], ss[i + 1], x)
  }

  lemma WaitingNext(ss: seq<State>, es: seq<Event>, p: nat, x: JobId)
    requires IsFifoRun(ss, es) && p < |es|
    ensures WaitingRule(ss[p], es[p], ss[p + 1], x)
  {
    if x in ss[p].db.jobs && ss[p].db.jobs[x].status == Queued && !Claims(es[p], x) {
      RunKeepsInv(ss, es, p);
      NextFacts(ss, es, p);
      KeysIncreaseWithTheClock(ss, es, p);
      StillQueued(ss[p], es[p], ss[p + 1], x);
      WaitingStep(ss[p], es[p], ss[p + 1], x);
    }
  }

  lemma HistoryOfWaiting(ss: seq<State>, es: seq<Event>, x: JobId)
    requires IsFifoRun(ss, es)
    ensures WaitingHistory(ss, es, x)
  {
    forall i | 0 <= i < |es|
      ensures WaitingRule(ss[i], es[i], ss[i + 1], x)
    {
      WaitingNext(ss, es, i, x);
    }
  }

  lemma {:induction false} WaitingRun(ss: seq<State>, es: seq<Event>, m: nat, n: nat, x: JobId)
    requires WaitingHistory(ss, es, x) && m <= n <= |es|
    requires x in ss[m].db.jobs && ss[m].db.jobs[x].status == Queued
    requires forall p :: m <= p < n ==> !Claims(es[p], x)
    ensures x in ss[n].db.jobs && ss[n].db.jobs[x].status == Queued && SameOrigin(ss[m].db.jobs[x], ss[n].db.jobs[x])
    ensures ss[n].cap == ss[m].cap
    ensures var build := BuildOf(ss[m].db.jobs[x].identity);
      var limit := Some(Place(ss[m].db.jobs[x].createdAt, x));
      Left(ss[n].db.jobs, ss[m].cap, build, limit) + ClaimsBetween(ss, es, build, m, n)
      <= Left(ss[m].db.jobs, ss[m].cap, build, limit)
    decreases n - m
  {
    if m < n {
      WaitingRun(ss, es, m, n - 1, x);
      assert WaitingRule(ss[n - 1], es[n - 1], ss[n - 1 + 1], x);
    }
  }

  lemma NewJobWaits(ss: seq<State>, es: seq<Event>, b: nat, x: JobId)
    requires IsRun(ss, es) && b < |es| && x !in ss[b].db.jobs && x in ss[b + 1].db.jobs
    ensures ss[b + 1].db.jobs[x].status == Queued
  {
    RunKeepsInv(ss, es, b);
    NextFacts(ss, es, b);
    assert JobsStep(ss[b].db.jobs, ss[b + 1].db.jobs);
  }

  /**
   Bounded overtaking, when claims take the head and the clock ticks between creations: from the
   moment a job is created until it is first claimed, the workers of its build make at most as
   many claims as the jobs ahead of it then had attempts left.
   */
  lemma BoundedOvertaking(ss: seq<State>, es: seq<Event>, b: nat, n: nat, x: JobId)
    requires IsFifoRun(ss, es) && b < n <= |es|
    requires x !in ss[b].db.jobs && x in ss[b + 1].db.jobs
    requires forall p :: b < p < n ==> !Claims(es[p], x)
    ensures var j := ss[b + 1].db.jobs[x];
      ClaimsBetween(ss, es, BuildOf(j.identity), b + 1, n)
      <= Left(ss[b + 1].db.jobs, ss[b + 1].cap, BuildOf(j.identity), Some(Place(j.createdAt, x)))
  {
    NewJobWaits(ss, es, b, x);
    HistoryOfWaiting(ss, es, x);
    WaitingRun(ss, es, b + 1, n, x);
  }
}
