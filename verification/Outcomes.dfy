/**
 What becomes of jobs over whole runs: when they were created, where reported failures and
 expired leases leave them, and where the documents that are stored come from.
*/
module Outcomes {
  import opened Wrappers
  import opened Contract
  import opened Tables
  import opened Statements
  import opened Columns
  import opened Cluster
  import opened Runs
  import JobHistory

  // ---------------------------------------------------------------- one step, column by column

  /** What each statement of a step does to the tables; the other steps leave them alone. */
  predicate WritesColumns(s: State, e: Event, t: State)
    requires Enabled(s, e)
  {
    match e
    case ClaimOne(w, id) => ClaimWritten(s, w, id, t)
    case Beat(w) => BeatWritten(s, w, t)
    case StrayBeat(w, id, leaseSeconds) => Renews(s, t, id, w, leaseSeconds)
    case ReportFailure(w) => FailureWritten(s, w, t)
    case CloseReport(w) => SuccessWritten(s, w, t)
    case ReclaimExpired(_) => ReclaimWritten(s, t)
    case EnqueueJob(_, _, _, _) => InsertWritten(s, e, t)
    case StoreReplay(q) => ReplayWritten(s, q, t)
    case _ => t.db == s.db
  }

  predicate ClaimWritten(s: State, w: WorkerId, id: JobId, t: State)
    requires w in s.procs && id in s.db.jobs
  {
    && OnlyRow(s.db.jobs, t.db.jobs, id) && t.db == s.db.(jobs := t.db.jobs)
    && RowClaimed(s.db.jobs[id], t.db.jobs[id], w, s.now, s.procs[w].leaseSeconds)
  }

  /** A renewal, or the news that there is nothing to renew. */
  predicate BeatWritten(s: State, w: WorkerId, t: State)
    requires PhaseOf(s, w).Analysing?
  {
    var id := s.procs[w].phase.work.job;
    && Renews(s, t, id, w, s.procs[w].leaseSeconds) && PhaseOf(t, w).Analysing?
    && (PhaseOf(t, w).lost <==> PhaseOf(s, w).lost || !RunsFor(s, id, w))
  }

  predicate ReclaimWritten(s: State, t: State) {
    && t.db == s.db.(jobs := t.db.jobs) && t.db.jobs.Keys == s.db.jobs.Keys
    && forall id | id in s.db.jobs ::
         if Abandoned(s.db.jobs[id], s.now) then RowReclaimed(s.db.jobs[id], t.db.jobs[id], s.cap, s.now)
         else t.db.jobs[id] == s.db.jobs[id]
  }

  predicate InsertWritten(s: State, e: Event, t: State)
    requires e.EnqueueJob? && e.q in s.subs
  {
    && t.db == s.db.(jobs := t.db.jobs)
    && if Joins(s, e.q) then t.db.jobs == s.db.jobs
       else
         && OnlyRow(s.db.jobs, t.db.jobs, e.newId)
         && RowInserted(t.db.jobs[e.newId], s.subs[e.q].identity, s.subs[e.q].profile, e.turns, e.searchMs, s.now)
  }

  predicate ReplayWritten(s: State, q: nat, t: State)
    requires q in s.subs && s.subs[q].stage.Fetched?
  {
    var rid := s.subs[q].identity.replayId;
    t.db == s.db.(replays := if rid in s.db.replays then s.db.replays else s.db.replays[rid := s.subs[q].stage.replay])
  }

  /** The identity has a job that waits or runs. */
  predicate Joins(s: State, q: nat)
    requires q in s.subs
  {
    exists k :: k in s.db.jobs && s.db.jobs[k].identity == s.subs[q].identity
      && (s.db.jobs[k].status == Queued || s.db.jobs[k].status == Running)
  }

  /** The job is running and is this worker's. */
  predicate RunsFor(s: State, id: JobId, w: WorkerId) {
    id in s.db.jobs && s.db.jobs[id].status == Running && s.db.jobs[id].claimedBy == Some(w)
  }

  predicate Renews(s: State, t: State, id: JobId, w: WorkerId, leaseSeconds: nat) {
    if RunsFor(s, id, w) then
      && OnlyRow(s.db.jobs, t.db.jobs, id) && t.db == s.db.(jobs := t.db.jobs)
      && RowRenewed(s.db.jobs[id], t.db.jobs[id], s.now, leaseSeconds)
    else t.db == s.db
  }

  predicate FailureWritten(s: State, w: WorkerId, t: State)
    requires PhaseOf(s, w).Failing?
  {
    var p := PhaseOf(s, w);
    var id := p.work.job;
    if RunsFor(s, id, w) then
      && OnlyRow(s.db.jobs, t.db.jobs, id) && t.db == s.db.(jobs := t.db.jobs)
      && t.db.jobs[id].errorDetail.Some? && CutAt2000(t.db.jobs[id].errorDetail.value, p.detail)
      && RowFailed(s.db.jobs[id], t.db.jobs[id], WorthARetry(p.kind), p.kind,
           t.db.jobs[id].errorDetail.value, s.cap, s.now)
    else t.db == s.db
  }

  predicate SuccessWritten(s: State, w: WorkerId, t: State)
    requires PhaseOf(s, w).Staged?
  {
    var p := PhaseOf(s, w);
    var id := p.work.job;
    if RunsFor(s, id, w) then
      && OnlyRow(s.db.jobs, t.db.jobs, id) && t.db.replays == s.db.replays
      && RowCompleted(s.db.jobs[id], t.db.jobs[id], p.aid, p.began)
      && AnalysisWritten(s.db.analyses, t.db.analyses, p.aid, p.work.identity,
           p.run.document, p.run.wallMs, p.run.degraded, p.began)
    else t.db == s.db
  }

  lemma FailureIsWritten(s: State, w: WorkerId)
    requires Enabled(s, ReportFailure(w))
    ensures FailureWritten(s, w, Apply(s, ReportFailure(w)))
  {
  }

  lemma SuccessIsWritten(s: State, w: WorkerId)
    requires Inv(s) && Enabled(s, CloseReport(w))
    ensures SuccessWritten(s, w, Apply(s, CloseReport(w)))
  {
    var p := s.procs[w].phase;
    assert PhaseOk(s.db, w, s.procs[w]);
    UpsertWrites(s.db, p.aid, p.work.identity, p.run, p.began);
  }

  lemma BeatIsWritten(s: State, w: WorkerId)
    requires Enabled(s, Beat(w))
    ensures BeatWritten(s, w, Apply(s, Beat(w)))
  {
  }

  lemma StrayBeatRenews(s: State, w: WorkerId, id: JobId, leaseSeconds: nat)
    ensures Renews(s, Apply(s, StrayBeat(w, id, leaseSeconds)), id, w, leaseSeconds)
  {
  }

  lemma InsertIsWritten(s: State, e: Event)
    requires Enabled(s, e) && e.EnqueueJob?
    ensures InsertWritten(s, e, Apply(s, e))
  {
    assert Joins(s, e.q) <==> HasLiveJob(s.db.jobs, s.subs[e.q].identity);
  }

  lemma ReclaimIsWritten(s: State, w: WorkerId)
    requires Enabled(s, ReclaimExpired(w))
    ensures ReclaimWritten(s, Apply(s, ReclaimExpired(w)))
  {
  }

  lemma ClaimIsWritten(s: State, w: WorkerId, id: JobId)
    requires Enabled(s, ClaimOne(w, id))
    ensures ClaimWritten(s, w, id, Apply(s, ClaimOne(w, id)))
  {
  }

  /** Neither do starting, crashing, analysing, staging and waiting, nor a submission before it stores or enqueues. */
  lemma OthersWriteNothing(s: State, e: Event)
    requires Enabled(s, e) && !TouchesJobs(e)
    ensures WritesColumns(s, e, Apply(s, e))
  {
  }

  lemma WorkerWritesColumns(s: State, e: Event)
    requires Inv(s) && Enabled(s, e)
    requires e.ClaimOne? || e.Beat? || e.ReportFailure? || e.CloseReport?
    ensures WritesColumns(s, e, Apply(s, e))
  {
    match e
    case ClaimOne(w, id) => ClaimIsWritten(s, w, id);
    case Beat(w) => BeatIsWritten(s, w);
    case ReportFailure(w) => FailureIsWritten(s, w);
    case CloseReport(w) => SuccessIsWritten(s, w);
  }

  lemma SharedWritesColumns(s: State, e: Event)
    requires Enabled(s, e) && (e.StrayBeat? || e.ReclaimExpired? || e.EnqueueJob?)
    ensures WritesColumns(s, e, Apply(s, e))
  {
    match e
    case StrayBeat(w, id, leaseSeconds) => StrayBeatRenews(s, w, id, leaseSeconds);
    case ReclaimExpired(w) => ReclaimIsWritten(s, w);
    case EnqueueJob(_, _, _, _) => InsertIsWritten(s, e);
  }

  lemma StepWritesColumns(s: State, e: Event)
    requires Inv(s) && Enabled(s, e)
    ensures WritesColumns(s, e, Apply(s, e))
  {
    if e.ClaimOne? || e.Beat? || e.ReportFailure? || e.CloseReport? {
      WorkerWritesColumns(s, e);
    } else if e.StrayBeat? || e.ReclaimExpired? || e.EnqueueJob? {
      SharedWritesColumns(s, e);
    } else {
      OthersWriteNothing(s, e);
    }
  }

  // ---------------------------------------------------------------- creation

  predicate InsertedAt(ss: seq<State>, es: seq<Event>, i: nat, id: JobId)
    requires |ss| == |es| + 1
  {
    i < |es| && es[i].EnqueueJob? && es[i].newId == id && id !in ss[i].db.jobs && id in ss[i + 1].db.jobs
  }

  /** The row is what that event wrote, as far as nothing changes it later. */
  predicate StillFrom(s: State, e: Event, j: Job)
    requires e.EnqueueJob?
  {
    && e.q in s.subs && j.identity == s.subs[e.q].identity && j.profile == s.subs[e.q].profile
    && j.estimatedTurns == e.turns && j.estimatedSearchMs == e.searchMs
    && j.createdAt == s.now
  }

  lemma {:induction false} ClockGoesOn(ss: seq<State>, es: seq<Event>, m: nat, n: nat)
    requires IsHistory(ss, es) && m <= n < |ss|
    ensures ss[m].now <= ss[n].now
    decreases n - m
  {
    if m < n {
      assert StepFacts(ss[m], es[m], ss[m + 1]);
      ClockGoesOn(ss, es, m + 1, n);
    }
  }

  /** Every job was inserted by one enqueue, and is stamped with the clock of that moment. */
  lemma {:induction false} CreatedByTheClock(ss: seq<State>, es: seq<Event>, n: nat, id: JobId) returns (i: nat)
    requires IsRun(ss, es) && n < |ss| && id in ss[n].db.jobs
    ensures i < n && InsertedAt(ss, es, i, id) && StillFrom(ss[i], es[i], ss[n].db.jobs[id])
    ensures ss[n].db.jobs[id].createdAt <= ss[n].now
  {
    i := n - 1;
    assert Step(ss[i], es[i], ss[i + 1]);
    RunIsHistory(ss, es);
    if id in ss[i].db.jobs {
      JobsOverTime(ss, es, i, n, id);
      i := CreatedByTheClock(ss, es, n - 1, id);
    } else {
      RunKeepsInv(ss, es, i);
      NewRowIsWritten(ss[i], es[i], id);
    }
    ClockGoesOn(ss, es, i, n);
  }

  lemma NewRowIsWritten(s: State, e: Event, id: JobId)
    requires Inv(s) && Enabled(s, e) && id !in s.db.jobs && id in Apply(s, e).db.jobs
    ensures e.EnqueueJob? && e.newId == id && StillFrom(s, e, Apply(s, e).db.jobs[id])
  {
    StepNewJobs(s, e);
    StepWritesColumns(s, e);
  }

  /** Of two jobs created at different times the earlier one stays ahead of the later one. */
  lemma EarlierStaysAhead(ss: seq<State>, es: seq<Event>, n: nat, x: JobId, y: JobId, i: nat, k: nat)
    requires IsRun(ss, es) && n < |ss| && x in ss[n].db.jobs && y in ss[n].db.jobs
    requires InsertedAt(ss, es, i, x) && InsertedAt(ss, es, k, y) && i < n && k < n && ss[i].now < ss[k].now
    ensures ss[n].db.jobs[x].createdAt < ss[n].db.jobs[y].createdAt && Before(ss[n].db.jobs, x, y)
  {
    InsertedHere(ss, es, n, x, i);
    InsertedHere(ss, es, n, y, k);
  }

  lemma InsertedHere(ss: seq<State>, es: seq<Event>, n: nat, id: JobId, i: nat)
    requires IsRun(ss, es) && i < n < |ss| && id in ss[n].db.jobs && InsertedAt(ss, es, i, id)
    ensures ss[n].db.jobs[id].createdAt == ss[i].now
  {
    assert Step(ss[i], es[i], ss[i + 1]);
    RunKeepsInv(ss, es, i);
    NewRowIsWritten(ss[i], es[i], id);
    JobsOverTime(ss, es, i + 1, n, id);
  }

  // ---------------------------------------------------------------- failures

  /** An ended job is never claimed again. */
  lemma EndedIsNotClaimed(ss: seq<State>, es: seq<Event>, m: nat, n: nat, id: JobId)
    requires IsRun(ss, es) && m <= n < |es| && id in ss[m].db.jobs && !Live(ss[m].db.jobs[id])
    ensures !Claims(es[n], id)
  {
    JobsOverTime(ss, es, m, n, id);
    assert Step(ss[n], es[n], ss[n + 1]);
  }

  /** Event `i` is a failure report that finds its job. */
  predicate FailureReported(ss: seq<State>, es: seq<Event>, i: nat)
    requires |ss| == |es| + 1
  {
    && i < |es| && es[i].ReportFailure? && PhaseOf(ss[i], es[i].w).Failing?
    && RunsFor(ss[i], PhaseOf(ss[i], es[i].w).work.job, es[i].w)
  }

  /**
   An accepted failure of a kind that another attempt may cure puts the job back in its old
   place if attempts are left. Any other ends it: in every later state it is as the report
   left it, and no later event claims it.
  */
  lemma FailureOutcome(ss: seq<State>, es: seq<Event>, i: nat)
    requires IsRun(ss, es) && FailureReported(ss, es, i)
    ensures var p := PhaseOf(ss[i], es[i].w);
      var id := p.work.job;
      var j := ss[i].db.jobs[id];
      && id in ss[i + 1].db.jobs
      && var k := ss[i + 1].db.jobs[id];
         && k.errorKind == Some(p.kind) && k.errorDetail.Some? && CutAt2000(k.errorDetail.value, p.detail)
         && SameOrigin(j, k) && k.attempts == j.attempts && Unclaimed(k)
         && if (p.kind == EngineDataMissing || p.kind == EngineUnavailable) && j.attempts < ss[i].cap
            then WaitsFor(k, ss[i].procs[es[i].w].build)
            else
              && k.status == Failed
              && (forall n :: i < n < |ss| ==> id in ss[n].db.jobs && ss[n].db.jobs[id] == k)
              && (forall n :: i < n < |es| ==> !Claims(es[n], id))
  {
    var w := es[i].w;
    var id := PhaseOf(ss[i], w).work.job;
    assert Step(ss[i], es[i], ss[i + 1]);
    RunKeepsInv(ss, es, i);
    FailureIsWritten(ss[i], w);
    assert PhaseOk(ss[i].db, w, ss[i].procs[w]);
    if !Live(ss[i + 1].db.jobs[id]) {
      EndedStays(ss, es, i + 1, id);
    }
  }

  lemma EndedStays(ss: seq<State>, es: seq<Event>, m: nat, id: JobId)
    requires IsRun(ss, es) && m < |ss| && id in ss[m].db.jobs && !Live(ss[m].db.jobs[id])
    ensures forall n :: m <= n < |ss| ==> id in ss[n].db.jobs && ss[n].db.jobs[id] == ss[m].db.jobs[id]
    ensures forall n :: m <= n < |es| ==> !Claims(es[n], id)
  {
    forall n | m <= n < |ss|
      ensures id in ss[n].db.jobs && ss[n].db.jobs[id] == ss[m].db.jobs[id]
    {
      JobsOverTime(ss, es, m, n, id);
    }
    forall n | m <= n < |es|
      ensures !Claims(es[n], id)
    {
      EndedIsNotClaimed(ss, es, m, n, id);
    }
  }

  /**
   A reclaim puts an abandoned job back in its old place with the error it had, if attempts are
   left. Otherwise it ends the job for good, and says how often it was tried and by whom last.
  */
  lemma ReclaimOutcome(ss: seq<State>, es: seq<Event>, i: nat, id: JobId)
    requires IsRun(ss, es) && i < |es| && es[i].ReclaimExpired?
    requires id in ss[i].db.jobs && Abandoned(ss[i].db.jobs[id], ss[i].now)
    ensures var j := ss[i].db.jobs[id];
      && id in ss[i + 1].db.jobs
      && var k := ss[i + 1].db.jobs[id];
         && SameOrigin(j, k) && k.attempts == j.attempts && Unclaimed(k)
         && if j.attempts < ss[i].cap
            then WaitsFor(k, Build(j.identity.pokeEngineTag, j.identity.usageStatsDataset)) && SameError(j, k)
            else
              && k.status == Failed && k.errorKind == Some(EngineInternalError) && DeadLettered(j, k)
              && (forall n :: i < n < |ss| ==> id in ss[n].db.jobs && ss[n].db.jobs[id] == k)
              && (forall n :: i < n < |es| ==> !Claims(es[n], id))
  {
    assert Step(ss[i], es[i], ss[i + 1]);
    ReclaimIsWritten(ss[i], es[i].w);
    if !Live(ss[i + 1].db.jobs[id]) {
      EndedStays(ss, es, i + 1, id);
    }
  }

  // ---------------------------------------------------------------- documents

  /**
   In this step the engine returns to a worker that has a job of this identity in hand, and has
   not lost it to its knowledge.
  */
  predicate Answered(s: State, e: Event, identity: Identity, run: AnalysisRun) {
    && e.EngineReturns? && PhaseOf(s, e.w).Analysing? && !PhaseOf(s, e.w).lost
    && PhaseOf(s, e.w).work.identity == identity
    && run.document.text == e.text
    && run.document.totalTurns == e.totalTurns && run.document.gradableTurns == e.gradableTurns
    && run.wallMs == e.wallMs && run.degraded == e.degraded
    && run.document.engine == s.procs[e.w].build && run.document.log == PhaseOf(s, e.w).log
  }

  /** Some event before state `n` did that. */
  ghost predicate EngineGave(ss: seq<State>, es: seq<Event>, n: nat, identity: Identity, run: AnalysisRun)
    requires n <= |es| < |ss|
  {
    exists i :: 0 <= i < n && Answered(ss[i], es[i], identity, run)
  }

  predicate HasRun(p: Phase) {
    p.Finished? || p.Staged?
  }

  /** A result in hand was in hand before, or the engine returns it in this step. */
  lemma ResultStep(s: State, e: Event, w: WorkerId)
    requires Enabled(s, e) && HasRun(PhaseOf(Apply(s, e), w))
    ensures var p, q := PhaseOf(s, w), PhaseOf(Apply(s, e), w);
      || (HasRun(p) && p.work.identity == q.work.identity && p.run == q.run)
      || Answered(s, e, q.work.identity, q.run)
  {
  }

  lemma StagingStep(s: State, e: Event, w: WorkerId)
    requires Enabled(s, e) && PhaseOf(Apply(s, e), w).Staged?
    ensures var p, q := PhaseOf(s, w), PhaseOf(Apply(s, e), w);
      p == q || (e == StageUpsert(w, q.aid) && q.began == s.now && p == Finished(q.work, q.run))
  {
  }

  /** The time a success transaction stamps its rows with is the clock at its first statement. */
  lemma {:induction false} TransactionTime(ss: seq<State>, es: seq<Event>, n: nat, w: WorkerId) returns (i: nat)
    requires IsRun(ss, es) && n <= |es| && PhaseOf(ss[n], w).Staged?
    ensures i < n && es[i] == StageUpsert(w, PhaseOf(ss[n], w).aid) && PhaseOf(ss[n], w).began == ss[i].now
  {
    assert n > 0;
    assert Step(ss[n - 1], es[n - 1], ss[n - 1 + 1]);
    StagingStep(ss[n - 1], es[n - 1], w);
    i := n - 1;
    if PhaseOf(ss[n - 1], w) == PhaseOf(ss[n], w) {
      i := TransactionTime(ss, es, n - 1, w);
    }
  }

  function StoredRun(a: Analysis): AnalysisRun {
    AnalysisRun(a.document, a.wallMs, a.degraded)
  }

  /** A stored document was stored before, or this step commits the result its worker had in hand. */
  lemma StoredStep(s: State, e: Event, a: AnalysisId)
    requires Inv(s) && Enabled(s, e) && a in Apply(s, e).db.analyses
    ensures var row := Apply(s, e).db.analyses[a];
      || (a in s.db.analyses && s.db.analyses[a] == row)
      || (&& e.CloseReport? && HasRun(PhaseOf(s, e.w))
          && PhaseOf(s, e.w).work.identity == row.identity && PhaseOf(s, e.w).run == StoredRun(row)
          && if a in s.db.analyses
             then row.totalTurns == s.db.analyses[a].totalTurns && row.gradableTurns == s.db.analyses[a].gradableTurns
             else row.totalTurns == row.document.totalTurns && row.gradableTurns == row.document.gradableTurns)
  {
    StepWritesColumns(s, e);
  }

  /** The row's document and telemetry come from the engine, and so do its turn counts, perhaps from an earlier call. */
  ghost predicate RowFromEngine(ss: seq<State>, es: seq<Event>, n: nat, row: Analysis)
    requires n <= |es| < |ss|
  {
    && EngineGave(ss, es, n, row.identity, StoredRun(row))
    && exists run :: EngineGave(ss, es, n, row.identity, run)
         && row.totalTurns == run.document.totalTurns && row.gradableTurns == run.document.gradableTurns
  }

  lemma StillGiven(ss: seq<State>, es: seq<Event>, n: nat, identity: Identity, run: AnalysisRun)
    requires n < |es| < |ss| && (EngineGave(ss, es, n, identity, run) || Answered(ss[n], es[n], identity, run))
    ensures EngineGave(ss, es, n + 1, identity, run)
  {
  }

  lemma {:induction false} ResultsComeFromTheEngine(ss: seq<State>, es: seq<Event>, n: nat, w: WorkerId)
    requires IsRun(ss, es) && n <= |es| && HasRun(PhaseOf(ss[n], w))
    ensures EngineGave(ss, es, n, PhaseOf(ss[n], w).work.identity, PhaseOf(ss[n], w).run)
  {
    if n > 0 {
      assert Step(ss[n - 1], es[n - 1], ss[n - 1 + 1]);
      ResultStep(ss[n - 1], es[n - 1], w);
      if HasRun(PhaseOf(ss[n - 1], w)) {
        ResultsComeFromTheEngine(ss, es, n - 1, w);
      }
      StillGiven(ss, es, n - 1, PhaseOf(ss[n], w).work.identity, PhaseOf(ss[n], w).run);
    }
  }

  /**
   Every stored document, with its telemetry, is one that the engine returned to a worker with a
   job of that identity in hand; the turn counts are those of such a document, too.
  */
  lemma {:induction false} DocumentsComeFromTheEngine(ss: seq<State>, es: seq<Event>, n: nat, a: AnalysisId)
    requires IsRun(ss, es) && n <= |es| && a in ss[n].db.analyses
    ensures RowFromEngine(ss, es, n, ss[n].db.analyses[a])
  {
    var m := n - 1;
    assert Step(ss[m], es[m], ss[m + 1]);
    RunKeepsInv(ss, es, m);
    StoredStep(ss[m], es[m], a);
    var row := ss[n].db.analyses[a];
    if a in ss[m].db.analyses {
      DocumentsComeFromTheEngine(ss, es, m, a);
      SameRowIdentity(ss, es, m, a);
      var run :| EngineGave(ss, es, m, row.identity, run)
        && ss[m].db.analyses[a].totalTurns == run.document.totalTurns
        && ss[m].db.analyses[a].gradableTurns == run.document.gradableTurns;
      StillGiven(ss, es, m, row.identity, run);
    }
    if a in ss[m].db.analyses && ss[m].db.analyses[a] == row {
      StillGiven(ss, es, m, row.identity, StoredRun(row));
    } else {
      ResultsComeFromTheEngine(ss, es, m, es[m].w);
      StillGiven(ss, es, m, row.identity, StoredRun(row));
    }
  }

  lemma SameRowIdentity(ss: seq<State>, es: seq<Event>, m: nat, a: AnalysisId)
    requires IsRun(ss, es) && m < |es| && a in ss[m].db.analyses
    ensures a in ss[m + 1].db.analyses && ss[m + 1].db.analyses[a].identity == ss[m].db.analyses[a].identity
  {
    RunIsHistory(ss, es);
    assert StepFacts(ss[m], es[m], ss[m + 1]);
    assert SameRow(ss[m].db.analyses[a], ss[m + 1].db.analyses[a]);
  }

  // ---------------------------------------------------------------- failures in hand

  /** In this step the worker learns of the failure: the engine raises it, or the replay is not stored. */
  predicate Learns(s: State, e: Event, w: WorkerId, k: Work, kind: ErrorKind, detail: string) {
    && WorkOf(PhaseOf(s, w)) == Some(k)
    && (|| e == EngineFails(w, kind, detail)
        || (&& e == LoadReplay(w) && k.identity.replayId !in s.db.replays
            && kind == ReplayNotFound && detail == "no stored replay " + k.identity.replayId))
  }

  lemma FailingStep(s: State, e: Event, w: WorkerId)
    requires Enabled(s, e) && PhaseOf(Apply(s, e), w).Failing?
    ensures var p, q := PhaseOf(s, w), PhaseOf(Apply(s, e), w);
      p == q || Learns(s, e, w, q.work, q.kind, q.detail)
  {
  }

  /** Every failure a worker comes to report was raised by the engine for that claim, or is a missing replay. */
  lemma {:induction false} FailureHasACause(ss: seq<State>, es: seq<Event>, n: nat, w: WorkerId) returns (i: nat)
    requires IsRun(ss, es) && n <= |es| && PhaseOf(ss[n], w).Failing?
    ensures var p := PhaseOf(ss[n], w);
      i < n && Learns(ss[i], es[i], w, p.work, p.kind, p.detail)
  {
    assert n > 0;
    assert Step(ss[n - 1], es[n - 1], ss[n - 1 + 1]);
    FailingStep(ss[n - 1], es[n - 1], w);
    i := n - 1;
    if PhaseOf(ss[n - 1], w) == PhaseOf(ss[n], w) {
      i := FailureHasACause(ss, es, n - 1, w);
    }
  }

  // ---------------------------------------------------------------- replays

  lemma SubmissionStep(s: State, e: Event, q: nat)
    requires Enabled(s, e) && q in Apply(s, e).subs
    ensures var sub := Apply(s, e).subs[q];
      || (q in s.subs && s.subs[q].identity == sub.identity && s.subs[q].profile == sub.profile)
      || e == Arrive(q, sub.identity, sub.profile)
  {
  }

  /** A submission is for the identity and the profile that it arrived with. */
  lemma {:induction false} SubmissionArrived(ss: seq<State>, es: seq<Event>, n: nat, q: nat) returns (i: nat)
    requires IsRun(ss, es) && n <= |es| && q in ss[n].subs
    ensures i < n && es[i] == Arrive(q, ss[n].subs[q].identity, ss[n].subs[q].profile)
  {
    assert n > 0;
    assert Step(ss[n - 1], es[n - 1], ss[n - 1 + 1]);
    SubmissionStep(ss[n - 1], es[n - 1], q);
    i := n - 1;
    if q in ss[n - 1].subs && ss[n - 1].subs[q].identity == ss[n].subs[q].identity
       && ss[n - 1].subs[q].profile == ss[n].subs[q].profile {
      i := SubmissionArrived(ss, es, n - 1, q);
    }
  }

  /** The submission looked for its replay in this step and found none. */
  predicate FoundNone(s: State, e: Event, q: nat, identity: Identity) {
    e == LookUpReplay(q) && q in s.subs && s.subs[q].identity == identity && identity.replayId !in s.db.replays
  }

  lemma UnstoredStep(s: State, e: Event, q: nat)
    requires Enabled(s, e) && q in Apply(s, e).subs && Apply(s, e).subs[q].stage.Unstored?
    ensures var sub := Apply(s, e).subs[q];
      (q in s.subs && s.subs[q] == sub) || FoundNone(s, e, q, sub.identity)
  {
  }

  /** Nothing is fetched that was stored when the submission looked. */
  lemma {:induction false} FetchFollowsMiss(ss: seq<State>, es: seq<Event>, n: nat, q: nat) returns (i: nat)
    requires IsRun(ss, es) && n <= |es| && q in ss[n].subs && ss[n].subs[q].stage.Unstored?
    ensures i < n && FoundNone(ss[i], es[i], q, ss[n].subs[q].identity)
  {
    assert n > 0;
    assert Step(ss[n - 1], es[n - 1], ss[n - 1 + 1]);
    UnstoredStep(ss[n - 1], es[n - 1], q);
    i := n - 1;
    if q in ss[n - 1].subs && ss[n - 1].subs[q] == ss[n].subs[q] {
      i := FetchFollowsMiss(ss, es, n - 1, q);
    }
  }

  /** The submission's fetch brought this replay. */
  predicate Fetches(s: State, e: Event, q: nat, rid: string, replay: Replay) {
    e == FetchReplay(q, replay) && q in s.subs && s.subs[q].identity.replayId == rid
  }

  lemma FetchedStep(s: State, e: Event, q: nat)
    requires Enabled(s, e) && q in Apply(s, e).subs && Apply(s, e).subs[q].stage.Fetched?
    ensures var sub := Apply(s, e).subs[q];
      (q in s.subs && s.subs[q] == sub) || Fetches(s, e, q, sub.identity.replayId, sub.stage.replay)
  {
  }

  lemma {:induction false} FetchedWasFetched(ss: seq<State>, es: seq<Event>, n: nat, q: nat) returns (i: nat)
    requires IsRun(ss, es) && n <= |es| && q in ss[n].subs && ss[n].subs[q].stage.Fetched?
    ensures i < n && Fetches(ss[i], es[i], q, ss[n].subs[q].identity.replayId, ss[n].subs[q].stage.replay)
  {
    assert n > 0;
    assert Step(ss[n - 1], es[n - 1], ss[n - 1 + 1]);
    FetchedStep(ss[n - 1], es[n - 1], q);
    i := n - 1;
    if q in ss[n - 1].subs && ss[n - 1].subs[q] == ss[n].subs[q] {
      i := FetchedWasFetched(ss, es, n - 1, q);
    }
  }

  lemma ReplayStep(s: State, e: Event, rid: string)
    requires Enabled(s, e) && rid in Apply(s, e).db.replays
    ensures var replay := Apply(s, e).db.replays[rid];
      || (rid in s.db.replays && s.db.replays[rid] == replay)
      || (&& e.StoreReplay? && s.subs[e.q].identity.replayId == rid
          && s.subs[e.q].stage == Stage.Fetched(replay))
  {
  }

  /** Every stored replay is, field for field, one that some submission fetched under that id. */
  lemma {:induction false} StoredReplayWasFetched(ss: seq<State>, es: seq<Event>, n: nat, rid: string)
    returns (q: nat, i: nat)
    requires IsRun(ss, es) && n <= |es| && rid in ss[n].db.replays
    ensures i < n && Fetches(ss[i], es[i], q, rid, ss[n].db.replays[rid])
  {
    assert n > 0;
    assert Step(ss[n - 1], es[n - 1], ss[n - 1 + 1]);
    ReplayStep(ss[n - 1], es[n - 1], rid);
    if rid in ss[n - 1].db.replays && ss[n - 1].db.replays[rid] == ss[n].db.replays[rid] {
      q, i := StoredReplayWasFetched(ss, es, n - 1, rid);
    } else {
      q := es[n - 1].q;
      i := FetchedWasFetched(ss, es, n - 1, q);
    }
  }
}
