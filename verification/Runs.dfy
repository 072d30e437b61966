/**
 Whole runs of the cluster. `StepFacts` sums up what one step can do; the theorems about runs
 are proved from these facts alone.
*/
module Runs {
  import opened Wrappers
  import opened Contract
  import opened Tables
  import opened Statements
  import opened Cluster
  import ClusterInvariant
  import JobHistory

  predicate Step(s: State, e: Event, t: State) {
    Enabled(s, e) && t == Apply(s, e)
  }

  ghost predicate IsRun(ss: seq<State>, es: seq<Event>) {
    && |ss| == |es| + 1
    && Init(ss[0])
    && forall i {:trigger es[i]} :: 0 <= i < |es| ==> Step(ss[i], es[i], ss[i + 1])
  }

  // ---------------------------------------------------------------- facts about one step

  predicate Claims(e: Event, id: JobId) {
    e.ClaimOne? && e.id == id
  }

  /** `w` takes a claim in this step. */
  predicate ClaimsBy(e: Event, w: WorkerId) {
    e.ClaimOne? && e.w == w
  }

  function Attempts(jobs: map<JobId, Job>, id: JobId): nat {
    if id in jobs then jobs[id].attempts else 0
  }

  /** `attempts` counts claims and nothing else. */
  predicate AttemptsCount(before: map<JobId, Job>, e: Event, after: map<JobId, Job>) {
    forall id | id in after ::
      Attempts(after, id) == Attempts(before, id) + if Claims(e, id) then 1 else 0
  }

  /** The only way to become a job's owner is to claim it. */
  predicate OwnersClaim(before: map<JobId, Job>, e: Event, after: map<JobId, Job>) {
    forall id | id in after && after[id].status == Running ::
      || (id in before && before[id].status == Running && before[id].claimedBy == after[id].claimedBy)
      || (Claims(e, id) && after[id].claimedBy == Some(e.w))
  }

  /** Work in hand was in hand before, or has just been claimed. */
  predicate WorkIsClaimed(s: State, e: Event, t: State, w: WorkerId) {
    WorkOf(PhaseOf(t, w)).Some? ==>
      var k := WorkOf(PhaseOf(t, w)).value;
      || (WorkOf(PhaseOf(s, w)) == Some(k) && !ClaimsBy(e, w))
      || (&& e == ClaimOne(w, k.job) && k.job in t.db.jobs
          && Owned(t.db.jobs[k.job], w) && t.db.jobs[k.job].attempts == k.attempt)
  }

  predicate WorkersClaim(s: State, e: Event, t: State) {
    forall w | w in t.procs :: WorkIsClaimed(s, e, t, w)
  }

  predicate ClaimsQueued(s: State, e: Event) {
    e.ClaimOne? ==> e.id in s.db.jobs && s.db.jobs[e.id].status == Queued
  }

  /** A job appears only when its identity had no live one, and no analysis appears in that step. */
  predicate NewJobsEnqueued(s: State, e: Event, t: State) {
    forall id | id in t.db.jobs && id !in s.db.jobs ::
      && e.EnqueueJob? && e.newId == id
      && t.db.analyses == s.db.analyses
      && !HasLiveJob(s.db.jobs, t.db.jobs[id].identity)
  }

  ghost predicate StepFacts(s: State, e: Event, t: State) {
    && DbStep(s.db, t.db)
    && t.cap == s.cap && s.now <= t.now
    && AttemptsCount(s.db.jobs, e, t.db.jobs)
    && OwnersClaim(s.db.jobs, e, t.db.jobs)
    && WorkersClaim(s, e, t)
    && ClaimsQueued(s, e)
    && NewJobsEnqueued(s, e, t)
  }

  /** A statement other than a claim that leaves attempts and owners alone. */
  lemma NoClaimRow(jobs: map<JobId, Job>, id: JobId, j: Job, e: Event)
    requires id in jobs && !e.ClaimOne?
    requires j.attempts == jobs[id].attempts
    requires j.status == Running ==> jobs[id].status == Running && j.claimedBy == jobs[id].claimedBy
    ensures AttemptsCount(jobs, e, jobs[id := j]) && OwnersClaim(jobs, e, jobs[id := j])
  {
  }

  lemma SameJobs(jobs: map<JobId, Job>, e: Event)
    requires !e.ClaimOne?
    ensures AttemptsCount(jobs, e, jobs) && OwnersClaim(jobs, e, jobs)
  {
  }

  /** A report either leaves the job rows as they were or takes its own job out of `running`. */
  lemma ReportCounts(s: State, e: Event)
    requires Inv(s) && Enabled(s, e) && (e.ReportFailure? || e.CloseReport?)
    ensures var jobs := Apply(s, e).db.jobs;
      AttemptsCount(s.db.jobs, e, jobs) && OwnersClaim(s.db.jobs, e, jobs)
  {
    var id := s.procs[e.w].phase.work.job;
    SameJobs(s.db.jobs, e);
    if id in s.db.jobs && Owned(s.db.jobs[id], e.w) {
      NoClaimRow(s.db.jobs, id, Apply(s, e).db.jobs[id], e);
    }
  }

  lemma BeatCounts(s: State, e: Event, id: JobId)
    requires Inv(s) && Enabled(s, e)
    requires if e.Beat? then id == s.procs[e.w].phase.work.job else e.StrayBeat? && id == e.id
    ensures var jobs := Apply(s, e).db.jobs;
      AttemptsCount(s.db.jobs, e, jobs) && OwnersClaim(s.db.jobs, e, jobs)
  {
    SameJobs(s.db.jobs, e);
    if id in s.db.jobs && Owned(s.db.jobs[id], e.w) {
      NoClaimRow(s.db.jobs, id, Apply(s, e).db.jobs[id], e);
    }
  }

  lemma ReclaimCounts(db: Db, cap: nat, now: Time, e: Event)
    requires !e.ClaimOne?
    ensures var jobs := Reclaim(db, cap, now).jobs;
      AttemptsCount(db.jobs, e, jobs) && OwnersClaim(db.jobs, e, jobs)
  {
  }

  lemma ClaimCounts(db: Db, w: WorkerId, id: JobId, now: Time, leaseSeconds: nat)
    requires id in db.jobs
    ensures var jobs := Claim(db, id, w, now, leaseSeconds).jobs;
      AttemptsCount(db.jobs, ClaimOne(w, id), jobs) && OwnersClaim(db.jobs, ClaimOne(w, id), jobs)
  {
  }

  lemma InsertCounts(jobs: map<JobId, Job>, id: JobId, j: Job, e: Event)
    requires !e.ClaimOne? && id !in jobs && j.status == Queued && j.attempts == 0
    ensures AttemptsCount(jobs, e, jobs[id := j]) && OwnersClaim(jobs, e, jobs[id := j])
  {
  }

  predicate TouchesJobs(e: Event) {
    e.ClaimOne? || e.Beat? || e.StrayBeat? || e.ReportFailure? || e.CloseReport? || e.ReclaimExpired? || e.EnqueueJob?
  }

  lemma UntouchedJobs(s: State, e: Event)
    requires Enabled(s, e) && !TouchesJobs(e)
    ensures Apply(s, e).db.jobs == s.db.jobs
  {
  }

  lemma StepCounts(s: State, e: Event)
    requires Inv(s) && Enabled(s, e)
    ensures var jobs := Apply(s, e).db.jobs;
      AttemptsCount(s.db.jobs, e, jobs) && OwnersClaim(s.db.jobs, e, jobs)
  {
    if e.ReportFailure? || e.CloseReport? {
      ReportCounts(s, e);
    } else if e.Beat? {
      BeatCounts(s, e, s.procs[e.w].phase.work.job);
    } else if e.StrayBeat? {
      BeatCounts(s, e, e.id);
    } else if e.ClaimOne? {
      ClaimCounts(s.db, e.w, e.id, s.now, s.procs[e.w].leaseSeconds);
    } else if e.ReclaimExpired? {
      ReclaimCounts(s.db, s.cap, s.now, e);
    } else if e.EnqueueJob? {
      SameJobs(s.db.jobs, e);
      var sub := s.subs[e.q];
      InsertCounts(s.db.jobs, e.newId, NewJob(sub.identity, sub.profile, e.turns, e.searchMs, s.now), e);
    } else {
      UntouchedJobs(s, e);
      SameJobs(s.db.jobs, e);
    }
  }

  lemma ClaimIsWork(s: State, w: WorkerId, id: JobId)
    requires Enabled(s, ClaimOne(w, id))
    ensures WorkersClaim(s, ClaimOne(w, id), Apply(s, ClaimOne(w, id)))
  {
  }

  lemma StepWork(s: State, e: Event)
    requires Enabled(s, e)
    ensures WorkersClaim(s, e, Apply(s, e))
  {
    if e.ClaimOne? {
      ClaimIsWork(s, e.w, e.id);
    }
  }

  lemma StepNewJobs(s: State, e: Event)
    requires Enabled(s, e)
    ensures NewJobsEnqueued(s, e, Apply(s, e))
  {
  }

  lemma StepHasFacts(s: State, e: Event)
    requires Inv(s) && Enabled(s, e)
    ensures StepFacts(s, e, Apply(s, e))
  {
    ClusterInvariant.StepKeepsInv(s, e);
    StepCounts(s, e);
    StepWork(s, e);
    StepNewJobs(s, e);
  }

  // ---------------------------------------------------------------- runs

  /** Consecutive states related by the facts above, starting from nothing. */
  ghost predicate IsHistory(ss: seq<State>, es: seq<Event>) {
    && |ss| == |es| + 1
    && Init(ss[0])
    && forall i :: 0 <= i < |es| ==> StepFacts(ss[i], es[i], ss[i + 1])
  }

  lemma NextInv(ss: seq<State>, es: seq<Event>, i: nat)
    requires IsRun(ss, es) && i < |es| && Inv(ss[i])
    ensures Inv(ss[i + 1])
  {
    ClusterInvariant.StepKeepsInv(ss[i], es[i]);
  }

  lemma NextFacts(ss: seq<State>, es: seq<Event>, i: nat)
    requires IsRun(ss, es) && i < |es| && Inv(ss[i])
    ensures StepFacts(ss[i], es[i], ss[i + 1])
  {
    StepHasFacts(ss[i], es[i]);
  }

  lemma {:induction false} RunKeepsInv(ss: seq<State>, es: seq<Event>, n: nat)
    requires IsRun(ss, es) && n <= |es|
    ensures Inv(ss[n])
  {
    if n == 0 {
      ClusterInvariant.InitIsOk(ss[0]);
    } else {
      RunKeepsInv(ss, es, n - 1);
      NextInv(ss, es, n - 1);
    }
  }

  /** Every step of a run has the facts. */
  lemma RunIsHistory(ss: seq<State>, es: seq<Event>)
    requires IsRun(ss, es)
    ensures IsHistory(ss, es)
  {
    forall i | 0 <= i < |es|
      ensures StepFacts(ss[i], es[i], ss[i + 1])
    {
      RunKeepsInv(ss, es, i);
      NextFacts(ss, es, i);
    }
  }

  /** What every reachable committed state looks like. */
  lemma ReachableTables(ss: seq<State>, es: seq<Event>, n: nat)
    requires IsRun(ss, es) && n < |ss|
    ensures var db := ss[n].db;
      && RowsOk(db.jobs, ss[n].cap) && (forall id | id in db.jobs :: SchemaChecks(db.jobs[id]))
      && OneLiveJob(db.jobs) && OneAnalysis(db.analyses)
      && SucceededHasAnalysis(db.jobs, db.analyses) && AnalysesAreNamed(db.jobs, db.analyses)
      && DocumentsTraced(db.analyses, db.replays)
      && JobsHaveReplays(db.jobs, db.replays)
  {
    RunKeepsInv(ss, es, n);
    forall id | id in ss[n].db.jobs
      ensures SchemaChecks(ss[n].db.jobs[id])
    {
      RowOkMeetsSchema(ss[n].db.jobs[id], ss[n].cap);
    }
  }

  // ---------------------------------------------------------------- what stays

  ghost function JobTables(ss: seq<State>): (ts: seq<JobHistory.Jobs>)
    ensures |ts| == |ss|
    ensures forall i :: 0 <= i < |ss| ==> ts[i] == ss[i].db.jobs
  {
    seq(|ss|, i requires 0 <= i < |ss| => ss[i].db.jobs)
  }

  lemma HistoryOfJobs(ss: seq<State>, es: seq<Event>)
    requires IsHistory(ss, es)
    ensures JobHistory.IsTrace(JobTables(ss))
  {
    var ts := JobTables(ss);
    forall i | 0 <= i < |ts| - 1
      ensures JobsStep(ts[i], ts[i + 1])
    {
      assert StepFacts(ss[i], es[i], ss[i + 1]);
    }
  }

  /** Succeeded and failed rows never change again, and a job keeps its identity and its place in the queue. */
  lemma JobsOverTime(ss: seq<State>, es: seq<Event>, m: nat, n: nat, id: JobId)
    requires IsRun(ss, es) && m <= n < |ss| && id in ss[m].db.jobs
    ensures id in ss[n].db.jobs && JobHistory.Later(ss[m].db.jobs[id], ss[n].db.jobs[id])
    ensures !Live(ss[m].db.jobs[id]) ==> ss[n].db.jobs[id] == ss[m].db.jobs[id]
  {
    RunIsHistory(ss, es);
    HistoryOfJobs(ss, es);
    JobHistory.Progresses(JobTables(ss), m, n, id);
    if !Live(ss[m].db.jobs[id]) {
      JobHistory.EndedIsFinal(JobTables(ss), m, n, id);
    }
  }

  /** A stored replay never changes, and an analysis keeps its id, identity, creation time and first turn counts. */
  lemma {:induction false} StoredRowsStay(ss: seq<State>, es: seq<Event>, m: nat, n: nat)
    requires IsHistory(ss, es) && m <= n < |ss|
    ensures ReplaysStep(ss[m].db.replays, ss[n].db.replays)
    ensures AnalysesStep(ss[m].db.analyses, ss[n].db.analyses)
    decreases n - m
  {
    if m < n {
      assert StepFacts(ss[m], es[m], ss[m + 1]);
      StoredRowsStay(ss, es, m + 1, n);
    }
  }

  // ---------------------------------------------------------------- fencing without a token

  /** Event `c` is the claim that `w`'s remembered work came from. */
  predicate ClaimedAt(ss: seq<State>, es: seq<Event>, c: int, w: WorkerId, k: Work)
    requires |ss| == |es| + 1
  {
    && 0 <= c < |es|
    && es[c] == ClaimOne(w, k.job)
    && k.job in ss[c + 1].db.jobs
    && Owned(ss[c + 1].db.jobs[k.job], w)
    && ss[c + 1].db.jobs[k.job].attempts == k.attempt
  }

  /** In this state the process still works on `k`, and the job is still its own at the same attempt. */
  predicate Holds(s: State, w: WorkerId, k: Work) {
    && WorkOf(PhaseOf(s, w)) == Some(k)
    && k.job in s.db.jobs
    && Owned(s.db.jobs[k.job], w)
    && s.db.jobs[k.job].attempts == k.attempt
  }

  /** From just after event `c` up to state `i` nothing took the job away: no reclaim, no report, no other claim. */
  predicate HeldSince(ss: seq<State>, es: seq<Event>, c: int, i: int, w: WorkerId, k: Work)
    requires |ss| == |es| + 1
  {
    && -1 <= c < i < |ss|
    && (forall m :: c < m <= i ==> Holds(ss[m], w, k))
    && (forall m :: c < m < i ==> !Claims(es[m], k.job))
  }

  /** All that a process's work in hand depends on. */
  predicate WorkHistory(ss: seq<State>, es: seq<Event>) {
    && |ss| == |es| + 1
    && ss[0].procs == map[]
    && forall i :: 0 <= i < |es| ==> WorkersClaim(ss[i], es[i], ss[i + 1])
  }

  lemma HistoryOfWork(ss: seq<State>, es: seq<Event>)
    requires IsHistory(ss, es)
    ensures WorkHistory(ss, es)
  {
    forall i | 0 <= i < |es|
      ensures WorkersClaim(ss[i], es[i], ss[i + 1])
    {
      assert StepFacts(ss[i], es[i], ss[i + 1]);
    }
  }

  /** Work in hand goes back to one claim by this very process, which has worked on nothing else since. */
  lemma {:induction false} FindClaim(ss: seq<State>, es: seq<Event>, i: nat, w: WorkerId, k: Work) returns (c: nat)
    requires WorkHistory(ss, es) && i < |ss| && WorkOf(PhaseOf(ss[i], w)) == Some(k)
    ensures c < i && ClaimedAt(ss, es, c, w, k)
    ensures forall m :: c < m <= i ==> WorkOf(PhaseOf(ss[m], w)) == Some(k)
  {
    assert i > 0;
    assert WorkersClaim(ss[i - 1], es[i - 1], ss[i - 1 + 1]);
    assert WorkIsClaimed(ss[i - 1], es[i - 1], ss[i], w);
    if WorkOf(PhaseOf(ss[i - 1], w)) == Some(k) && !ClaimsBy(es[i - 1], w) {
      c := FindClaim(ss, es, i - 1, w, k);
    } else {
      c := i - 1;
    }
  }

  lemma OwnedSinceClaim(ss: seq<State>, es: seq<Event>, c: nat, i: nat, w: WorkerId, k: Work)
    requires IsHistory(ss, es) && c < i < |ss| && ClaimedAt(ss, es, c, w, k)
    requires forall m :: c < m <= i ==> WorkOf(PhaseOf(ss[m], w)) == Some(k)
    requires k.job in ss[i].db.jobs && Owned(ss[i].db.jobs[k.job], w) && ss[i].db.jobs[k.job].attempts == k.attempt
    ensures HeldSince(ss, es, c, i, w, k)
  {
    HistoryOfJobs(ss, es);
    forall m | c < m <= i
      ensures Holds(ss[m], w, k)
    {
      JobHistory.NoProgressNoChange(JobTables(ss), c + 1, i, m, k.job);
    }
    forall m | c < m < i
      ensures !Claims(es[m], k.job)
    {
      assert StepFacts(ss[m], es[m], ss[m + 1]);
      assert Holds(ss[m], w, k);
    }
  }

  predicate IsReport(e: Event) {
    e.ReportFailure? || e.CloseReport?
  }

  /** The report statement found its row. */
  predicate Accepted(s: State, w: WorkerId)
    requires WorkOf(PhaseOf(s, w)).Some?
  {
    var k := WorkOf(PhaseOf(s, w)).value;
    k.job in s.db.jobs && Owned(s.db.jobs[k.job], w)
  }

  /** A report changes its job's row if the guard accepts it, and no row of any table if it does not. */
  lemma ReportEffect(s: State, e: Event)
    requires Inv(s) && Enabled(s, e) && IsReport(e)
    ensures var t := Apply(s, e);
      if Accepted(s, e.w) then
        var id := WorkOf(PhaseOf(s, e.w)).value.job;
        id in t.db.jobs && t.db.jobs[id].status != Running && t.db.jobs[id] != s.db.jobs[id]
      else t.db == s.db
  {
  }

  /**
   The guard compares worker ids only, yet it accepts a report if and only if the reporting
   process made the job's latest claim for this very piece of work and nothing took the job
   away since.
   */
  lemma Fencing(ss: seq<State>, es: seq<Event>, i: nat)
    requires IsRun(ss, es) && i < |es| && IsReport(es[i])
    ensures WorkOf(PhaseOf(ss[i], es[i].w)).Some?
    ensures var w := es[i].w;
      var k := WorkOf(PhaseOf(ss[i], w)).value;
      ss[i + 1].db != ss[i].db
      <==> exists c :: ClaimedAt(ss, es, c, w, k) && HeldSince(ss, es, c, i, w, k)
  {
    RunIsHistory(ss, es);
    RunKeepsInv(ss, es, i);
    assert Step(ss[i], es[i], ss[i + 1]);
    var w := es[i].w;
    var k := WorkOf(PhaseOf(ss[i], w)).value;
    assert PhaseOk(ss[i].db, w, ss[i].procs[w]);
    ReportEffect(ss[i], es[i]);
    if Accepted(ss[i], w) {
      HistoryOfWork(ss, es);
      var c := FindClaim(ss, es, i, w, k);
      OwnedSinceClaim(ss, es, c, i, w, k);
    }
    assert forall c :: HeldSince(ss, es, c, i, w, k) ==> Holds(ss[i], w, k);
  }

  // ---------------------------------------------------------------- a lost lease is final

  lemma {:induction false} OwnershipNeedsClaim(ss: seq<State>, es: seq<Event>, m: nat, n: nat, w: WorkerId, id: JobId)
    requires IsHistory(ss, es) && m <= n < |ss|
    requires id in ss[m].db.jobs && !Owned(ss[m].db.jobs[id], w)
    requires forall p :: m <= p < n ==> es[p] != ClaimOne(w, id)
    ensures id in ss[n].db.jobs && !Owned(ss[n].db.jobs[id], w)
    decreases n - m
  {
    if m < n {
      assert StepFacts(ss[m], es[m], ss[m + 1]);
      OwnershipNeedsClaim(ss, es, m + 1, n, w, id);
    }
  }

  /**
   Once a worker's heartbeat finds no row, no report of that worker for that job is accepted
   until it claims the job again: discarding the result early loses nothing.
   */
  lemma LostLeaseIsFinal(ss: seq<State>, es: seq<Event>, i: nat, n: nat, w: WorkerId)
    requires IsRun(ss, es) && i < n < |ss| && es[i] == Beat(w)
    requires PhaseOf(ss[i + 1], w).Analysing? && PhaseOf(ss[i + 1], w).lost
    requires forall p :: i < p < n ==> es[p] != ClaimOne(w, PhaseOf(ss[i + 1], w).work.job)
    ensures var id := PhaseOf(ss[i + 1], w).work.job;
      id in ss[n].db.jobs && !Owned(ss[n].db.jobs[id], w)
  {
    RunIsHistory(ss, es);
    RunKeepsInv(ss, es, i + 1);
    assert PhaseOk(ss[i + 1].db, w, ss[i + 1].procs[w]);
    OwnershipNeedsClaim(ss, es, i + 1, n, w, PhaseOf(ss[i + 1], w).work.job);
  }

  // ---------------------------------------------------------------- every job ends

  function ClaimCount(es: seq<Event>, id: JobId, n: nat): nat
    requires n <= |es|
  {
    if n == 0 then 0 else ClaimCount(es, id, n - 1) + if Claims(es[n - 1], id) then 1 else 0
  }

  lemma {:induction false} AttemptsCountClaims(ss: seq<State>, es: seq<Event>, id: JobId, n: nat)
    requires IsHistory(ss, es) && n < |ss|
    ensures ClaimCount(es, id, n) == Attempts(ss[n].db.jobs, id)
  {
    if n > 0 {
      AttemptsCountClaims(ss, es, id, n - 1);
      assert StepFacts(ss[n - 1], es[n - 1], ss[n - 1 + 1]);
    }
  }

  /**
   In any run a job is claimed at most `cap` times and changes status at most twice as often;
   ended jobs stay ended.
  */
  lemma NoJobCyclesForever(ss: seq<State>, es: seq<Event>, id: JobId, n: nat)
    requires IsRun(ss, es) && n < |ss|
    ensures ClaimCount(es, id, n) == Attempts(ss[n].db.jobs, id) <= ss[n].cap
    ensures var changes := JobHistory.StatusChanges(JobTables(ss), id, n);
      && changes <= 2 * ss[n].cap
      && (id in ss[n].db.jobs ==> changes + Measure(ss[n].db.jobs[id], ss[n].cap) <= 2 * ss[n].cap)
  {
    RunIsHistory(ss, es);
    HistoryOfJobs(ss, es);
    AttemptsCountClaims(ss, es, id, n);
    JobHistory.ProgressCountsChanges(JobTables(ss), id, n);
    RunKeepsInv(ss, es, n);
    if id in ss[n].db.jobs {
      assert RowOk(ss[n].db.jobs[id], ss[n].cap);
    }
  }
}
