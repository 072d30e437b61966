/**
 What interleaved submissions can and cannot do to an identity. A submission checks the cache,
 stores the replay and enqueues in separate statements, so the check can be stale by the time
 the job is inserted.
*/
module Submissions {
  import opened Wrappers
  import opened Contract
  import opened Tables
  import opened Statements
  import opened Cluster
  import opened Runs

  /** A live job and a stored analysis of one identity: a search whose answer is already known. */
  predicate Redundant(db: Db, id: JobId, a: AnalysisId) {
    id in db.jobs && Live(db.jobs[id]) && a in db.analyses && db.analyses[a].identity == db.jobs[id].identity
  }

  predicate NoneRedundant(db: Db) {
    forall id, a | id in db.jobs && a in db.analyses :: !Redundant(db, id, a)
  }

  predicate OneSucceeded(jobs: map<JobId, Job>) {
    forall a, b | a in jobs && b in jobs && jobs[a].status == Succeeded && jobs[b].status == Succeeded
      && jobs[a].identity == jobs[b].identity :: a == b
  }

  /** This step inserts a job whose identity has been analysed since the submission looked. */
  predicate StaleInsert(s: State, e: Event) {
    && Enabled(s, e) && e.EnqueueJob?
    && !HasLiveJob(s.db.jobs, s.subs[e.q].identity)
    && Cached(s.db, s.subs[e.q].identity)
  }

  /** The job that a newly stored analysis is named by was live just before. */
  lemma NewAnalysisEndsLiveJob(before: Db, after: Db, a: AnalysisId, cap: nat) returns (id: JobId)
    requires DbOk(before, cap) && DbOk(after, cap) && DbStep(before, after)
    requires a in after.analyses && a !in before.analyses
    ensures id in before.jobs && Live(before.jobs[id])
    ensures id in after.jobs && Names(after.jobs[id], a, after.analyses[a].identity)
    ensures before.jobs[id].identity == after.analyses[a].identity
  {
    assert IsNamed(after.jobs, a, after.analyses[a].identity);
    id :| id in after.jobs && Names(after.jobs[id], a, after.analyses[a].identity);
    assert id in before.jobs;
    assert RowStep(before.jobs[id], after.jobs[id]);
    assert before.jobs[id].status == Succeeded ==> PointsAtAnalysis(before.jobs[id], before.analyses);
  }

  /** No insert is stale in this step, stated on the tables. */
  predicate InsertsFresh(before: Db, after: Db) {
    forall id | id in after.jobs && id !in before.jobs ::
      && after.analyses == before.analyses
      && !HasLiveJob(before.jobs, after.jobs[id].identity)
      && !Cached(before, after.jobs[id].identity)
  }

  lemma FreshPair(before: Db, after: Db, id: JobId, a: AnalysisId, cap: nat)
    requires DbOk(before, cap) && DbOk(after, cap) && DbStep(before, after)
    requires NoneRedundant(before) && InsertsFresh(before, after)
    requires id in after.jobs && a in after.analyses
    ensures !Redundant(after, id, a)
  {
    if id !in before.jobs {
      assert before.analyses == after.analyses;
      var identity := after.jobs[id].identity;
      assert before.analyses[a].identity == identity ==> Cached(before, identity);
    } else if a in before.analyses {
      assert RowStep(before.jobs[id], after.jobs[id]);
      assert SameRow(before.analyses[a], after.analyses[a]);
      assert !Redundant(before, id, a);
    } else {
      NewAnalysisPair(before, after, id, a, cap);
    }
  }

  lemma NewAnalysisPair(before: Db, after: Db, id: JobId, a: AnalysisId, cap: nat)
    requires DbOk(before, cap) && DbOk(after, cap) && DbStep(before, after)
    requires id in before.jobs && a in after.analyses && a !in before.analyses
    ensures !Redundant(after, id, a)
  {
    assert RowStep(before.jobs[id], after.jobs[id]);
    var _ := NewAnalysisEndsLiveJob(before, after, a, cap);
  }

  lemma FreshStaysUseful(before: Db, after: Db, cap: nat)
    requires DbOk(before, cap) && DbOk(after, cap) && DbStep(before, after)
    requires NoneRedundant(before) && InsertsFresh(before, after)
    ensures NoneRedundant(after)
  {
    forall id, a | id in after.jobs && a in after.analyses
      ensures !Redundant(after, id, a)
    {
      FreshPair(before, after, id, a, cap);
    }
  }

  lemma FreshSucceedsOnce(before: Db, after: Db, cap: nat)
    requires DbOk(before, cap) && DbStep(before, after)
    requires NoneRedundant(before) && OneSucceeded(before.jobs)
    ensures OneSucceeded(after.jobs)
  {
    forall x, y | x in after.jobs && y in after.jobs
      && after.jobs[x].status == Succeeded && after.jobs[y].status == Succeeded
      && after.jobs[x].identity == after.jobs[y].identity
      ensures x == y
    {
      assert x in before.jobs && y in before.jobs;
      assert RowStep(before.jobs[x], after.jobs[x]) && RowStep(before.jobs[y], after.jobs[y]);
      if before.jobs[x].status == Succeeded {
        SucceededNeighbour(before, x, y, cap);
      } else if before.jobs[y].status == Succeeded {
        SucceededNeighbour(before, y, x, cap);
      }
    }
  }

  /** Without redundancy a succeeded job and a live job never share an identity. */
  lemma SucceededNeighbour(db: Db, x: JobId, y: JobId, cap: nat)
    requires DbOk(db, cap) && NoneRedundant(db) && x in db.jobs && y in db.jobs
    requires db.jobs[x].status == Succeeded && db.jobs[x].identity == db.jobs[y].identity
    ensures !Live(db.jobs[y])
  {
    assert PointsAtAnalysis(db.jobs[x], db.analyses);
    assert !Redundant(db, y, db.jobs[x].analysisId.value);
  }

  lemma FreshInsert(s: State, e: Event)
    requires Inv(s) && Enabled(s, e) && !StaleInsert(s, e)
    ensures InsertsFresh(s.db, Apply(s, e).db)
  {
    StepNewJobs(s, e);
  }

  /** As long as no insert was stale, no search is redundant and no identity has succeeded twice. */
  lemma {:induction false} FreshRun(ss: seq<State>, es: seq<Event>, n: nat)
    requires IsRun(ss, es) && n < |ss|
    requires forall i :: 0 <= i < n ==> !StaleInsert(ss[i], es[i])
    ensures NoneRedundant(ss[n].db) && OneSucceeded(ss[n].db.jobs)
  {
    if n > 0 {
      FreshRun(ss, es, n - 1);
      RunKeepsInv(ss, es, n - 1);
      RunKeepsInv(ss, es, n);
      RunIsHistory(ss, es);
      assert Step(ss[n - 1], es[n - 1], ss[n - 1 + 1]);
      assert StepFacts(ss[n - 1], es[n - 1], ss[n - 1 + 1]);
      FreshInsert(ss[n - 1], es[n - 1]);
      FreshStaysUseful(ss[n - 1].db, ss[n].db, ss[n].cap);
      FreshSucceedsOnce(ss[n - 1].db, ss[n].db, ss[n].cap);
    }
  }

  lemma StaleInsertIsRedundant(s: State, e: Event)
    requires StaleInsert(s, e)
    ensures !NoneRedundant(Apply(s, e).db)
  {
    var identity := s.subs[e.q].identity;
    var a :| a in s.db.analyses && s.db.analyses[a].identity == identity;
    assert Redundant(Apply(s, e).db, e.newId, a);
  }

  /** A run contains a redundant search if and only if some enqueue inserted after its cache check had gone stale. */
  lemma RedundantIffStale(ss: seq<State>, es: seq<Event>)
    requires IsRun(ss, es)
    ensures (exists n :: 0 <= n < |ss| && !NoneRedundant(ss[n].db))
      <==> (exists i :: 0 <= i < |es| && StaleInsert(ss[i], es[i]))
  {
    if i :| 0 <= i < |es| && StaleInsert(ss[i], es[i]) {
      assert Step(ss[i], es[i], ss[i + 1]);
      StaleInsertIsRedundant(ss[i], es[i]);
    } else {
      forall n | 0 <= n < |ss|
        ensures NoneRedundant(ss[n].db)
      {
        FreshRun(ss, es, n);
      }
    }
  }

  // ---------------------------------------------------------------- two successes

  /** Event `i` inserts job `id`, whose identity has been analysed since the submission looked. */
  predicate StaleJob(ss: seq<State>, es: seq<Event>, i: int, id: JobId)
    requires |ss| == |es| + 1
  {
    0 <= i < |es| && StaleInsert(ss[i], es[i]) && es[i].newId == id
  }

  predicate Success(jobs: map<JobId, Job>, id: JobId) {
    id in jobs && jobs[id].status == Succeeded
  }

  /** Every job was inserted by one event of the run, when its identity had no live job. */
  lemma {:induction false} Inserted(ss: seq<State>, es: seq<Event>, n: nat, id: JobId) returns (i: nat)
    requires IsRun(ss, es) && n < |ss| && id in ss[n].db.jobs
    ensures i < n && es[i].EnqueueJob? && es[i].newId == id && Enabled(ss[i], es[i])
    ensures id !in ss[i].db.jobs && id in ss[i + 1].db.jobs
    ensures !HasLiveJob(ss[i].db.jobs, ss[i].subs[es[i].q].identity)
    ensures ss[i].subs[es[i].q].identity == ss[n].db.jobs[id].identity
  {
    i := n - 1;
    assert Step(ss[i], es[i], ss[i + 1]);
    if id in ss[i].db.jobs {
      JobsOverTime(ss, es, i, n, id);
      i := Inserted(ss, es, n - 1, id);
    } else {
      StepNewJobs(ss[i], es[i]);
    }
  }

  /** Of two succeeded jobs of one identity the later one was inserted stale. */
  lemma LaterOneIsStale(ss: seq<State>, es: seq<Event>, n: nat, x: JobId, y: JobId, i: nat)
    requires IsRun(ss, es) && i < n < |ss| && Success(ss[n].db.jobs, x) && Success(ss[n].db.jobs, y)
    requires ss[n].db.jobs[x].identity == ss[n].db.jobs[y].identity
    requires x in ss[i].db.jobs && Enabled(ss[i], es[i]) && es[i].EnqueueJob? && es[i].newId == y
    requires ss[i].subs[es[i].q].identity == ss[n].db.jobs[y].identity
    requires !HasLiveJob(ss[i].db.jobs, ss[i].subs[es[i].q].identity)
    ensures StaleJob(ss, es, i, y)
  {
    JobsOverTime(ss, es, i, n, x);
    ReachableTables(ss, es, i);
    assert !Live(ss[i].db.jobs[x]);
    assert PointsAtAnalysis(ss[i].db.jobs[x], ss[i].db.analyses);
  }

  /** A job inserted stale is not the one that the stored analysis is named by. */
  lemma StaleJobHasPredecessor(ss: seq<State>, es: seq<Event>, n: nat, i: nat, id: JobId)
    requires IsRun(ss, es) && i < n < |ss| && StaleJob(ss, es, i, id) && Success(ss[n].db.jobs, id)
    ensures !OneSucceeded(ss[n].db.jobs)
  {
    var identity := ss[i].subs[es[i].q].identity;
    ReachableTables(ss, es, i);
    var a :| a in ss[i].db.analyses && ss[i].db.analyses[a].identity == identity;
    assert IsNamed(ss[i].db.jobs, a, identity);
    var x :| x in ss[i].db.jobs && Names(ss[i].db.jobs[x], a, identity);
    JobsOverTime(ss, es, i, n, x);
    assert Step(ss[i], es[i], ss[i + 1]);
    JobsOverTime(ss, es, i + 1, n, id);
    assert x != id && ss[n].db.jobs[x].identity == ss[n].db.jobs[id].identity;
  }

  /** An identity has succeeded twice if and only if some job inserted after its check had gone stale has succeeded. */
  lemma TwiceIffStaleSucceeded(ss: seq<State>, es: seq<Event>, n: nat)
    requires IsRun(ss, es) && n < |ss|
    ensures !OneSucceeded(ss[n].db.jobs)
      <==> exists i, id :: i < n && StaleJob(ss, es, i, id) && Success(ss[n].db.jobs, id)
  {
    if !OneSucceeded(ss[n].db.jobs) {
      var x, y :| Success(ss[n].db.jobs, x) && Success(ss[n].db.jobs, y) && x != y
        && ss[n].db.jobs[x].identity == ss[n].db.jobs[y].identity;
      assert Success(ss[n].db.jobs, x) && Success(ss[n].db.jobs, y);
      var i := Inserted(ss, es, n, x);
      var k := Inserted(ss, es, n, y);
      if i < k {
        JobsOverTime(ss, es, i + 1, k, x);
        LaterOneIsStale(ss, es, n, x, y, k);
      } else {
        JobsOverTime(ss, es, k + 1, i, y);
        LaterOneIsStale(ss, es, n, y, x, i);
      }
    } else if i, id :| 0 <= i < n && StaleJob(ss, es, i, id) && Success(ss[n].db.jobs, id) {
      StaleJobHasPredecessor(ss, es, n, i, id);
    }
  }

  // ---------------------------------------------------------------- submissions as one step

  predicate OfSubmission(e: Event, q: nat) {
    && (e.CheckCache? || e.Admit? || e.Refuse? || e.LookUpReplay? || e.FetchReplay? || e.FetchFails?
        || e.StoreReplay? || e.EnqueueJob?)
    && e.q == q
  }

  /** From its cache check at `c` to its enqueue at `i` the submission is not interrupted. */
  predicate Uninterrupted(es: seq<Event>, c: int, i: int) {
    && 0 <= c < i < |es| && es[i].EnqueueJob?
    && es[c] == CheckCache(es[i].q)
    && forall m :: c < m < i ==> OfSubmission(es[m], es[i].q) && !es[m].EnqueueJob?
  }

  /** A submission that is not interrupted meets the analyses its check saw. */
  lemma {:induction false} CheckStillHolds(ss: seq<State>, es: seq<Event>, c: nat, m: nat, i: nat)
    requires IsRun(ss, es) && Uninterrupted(es, c, i) && c < m <= i
    ensures var q := es[i].q;
      && q in ss[c].subs && q in ss[m].subs
      && ss[m].db.analyses == ss[c].db.analyses
      && ss[m].subs[q].identity == ss[c].subs[q].identity
      && (Cached(ss[c].db, ss[c].subs[q].identity) ==> ss[m].subs[q].stage.Answered?)
  {
    assert Step(ss[c], es[c], ss[c + 1]);
    assert Step(ss[m - 1], es[m - 1], ss[m - 1 + 1]);
    if m > c + 1 {
      CheckStillHolds(ss, es, c, m - 1, i);
    }
  }

  lemma UninterruptedIsFresh(ss: seq<State>, es: seq<Event>, c: nat, i: nat)
    requires IsRun(ss, es) && Uninterrupted(es, c, i)
    ensures !StaleInsert(ss[i], es[i])
  {
    assert Step(ss[i], es[i], ss[i + 1]);
    CheckStillHolds(ss, es, c, i, i);
  }

  /** When submissions run as one step, an identity is searched for once: at most one job of it ever succeeds. */
  lemma AtomicSubmissionsSucceedOnce(ss: seq<State>, es: seq<Event>, n: nat)
    requires IsRun(ss, es) && n < |ss|
    requires forall i :: 0 <= i < |es| && es[i].EnqueueJob? ==> exists c :: Uninterrupted(es, c, i)
    ensures OneSucceeded(ss[n].db.jobs) && NoneRedundant(ss[n].db)
  {
    forall i | 0 <= i < n
      ensures !StaleInsert(ss[i], es[i])
    {
      if es[i].EnqueueJob? {
        var c :| Uninterrupted(es, c, i);
        UninterruptedIsFresh(ss, es, c, i);
      }
    }
    FreshRun(ss, es, n);
  }

  // ---------------------------------------------------------------- what no interleaving breaks

  /** Once an identity has an analysis, that is its analysis for good. */
  lemma AnalysisIdIsFixed(ss: seq<State>, es: seq<Event>, m: nat, n: nat, a: AnalysisId, b: AnalysisId)
    requires IsRun(ss, es) && m <= n < |ss|
    requires a in ss[m].db.analyses && b in ss[n].db.analyses
    requires ss[m].db.analyses[a].identity == ss[n].db.analyses[b].identity
    ensures a == b
  {
    RunIsHistory(ss, es);
    StoredRowsStay(ss, es, m, n);
    assert SameRow(ss[m].db.analyses[a], ss[n].db.analyses[a]);
    RunKeepsInv(ss, es, n);
  }

  /** The replay log behind a job is stored before the job is, and never changes while or after it runs. */
  lemma ReplayLogIsFixed(ss: seq<State>, es: seq<Event>, m: nat, n: nat, id: JobId)
    requires IsRun(ss, es) && m <= n < |ss| && id in ss[m].db.jobs
    ensures var r := ss[m].db.jobs[id].identity.replayId;
      r in ss[m].db.replays && r in ss[n].db.replays && ss[n].db.replays[r] == ss[m].db.replays[r]
  {
    RunIsHistory(ss, es);
    StoredRowsStay(ss, es, m, n);
    RunKeepsInv(ss, es, m);
  }
}
