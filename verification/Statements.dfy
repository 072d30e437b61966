/**
 Each SQL statement as the change it makes to the tables, and what that change keeps.
 `DbOk` is kept by all of them, and every one is a `DbStep`.
*/
module Statements {
  import opened Wrappers
  import opened Contract
  import opened Tables
  import Numerals

  // ---------------------------------------------------------------- claim_job.sql

  function ClaimRow(j: Job, w: WorkerId, now: Time, leaseSeconds: nat): Job {
    j.(status := Running, attempts := j.attempts + 1,
       claimedBy := Some(w), claimedAt := Some(now), leaseExpiresAt := Some(now + leaseSeconds * SECOND),
       updatedAt := now)
  }

  function Claim(db: Db, id: JobId, w: WorkerId, now: Time, leaseSeconds: nat): Db
    requires id in db.jobs
  {
    db.(jobs := db.jobs[id := ClaimRow(db.jobs[id], w, now, leaseSeconds)])
  }

  // ---------------------------------------------------------------- heartbeat.sql

  function HeartbeatRow(j: Job, now: Time, leaseSeconds: nat): Job {
    j.(leaseExpiresAt := Some(now + leaseSeconds * SECOND), updatedAt := now)
  }

  /** Updates no row unless the worker owns the job. */
  function Heartbeat(db: Db, id: JobId, w: WorkerId, now: Time, leaseSeconds: nat): Db {
    if id in db.jobs && Owned(db.jobs[id], w)
    then db.(jobs := db.jobs[id := HeartbeatRow(db.jobs[id], now, leaseSeconds)])
    else db
  }

  // ---------------------------------------------------------------- complete_job.sql

  function CompleteRow(j: Job, aid: AnalysisId, now: Time): Job {
    j.(status := Succeeded, analysisId := Some(aid), errorKind := None, errorDetail := None,
       claimedBy := None, claimedAt := None, leaseExpiresAt := None, updatedAt := now)
  }

  function Complete(db: Db, id: JobId, w: WorkerId, aid: AnalysisId, now: Time): Db {
    if id in db.jobs && Owned(db.jobs[id], w)
    then db.(jobs := db.jobs[id := CompleteRow(db.jobs[id], aid, now)])
    else db
  }

  // ---------------------------------------------------------------- fail_job.sql

  /** Whether the failure is worth a retry is the caller's judgement. */
  function FailRow(j: Job, retryable: bool, kind: ErrorKind, detail: string, cap: nat, now: Time): Job {
    j.(status := if retryable && j.attempts < cap then Queued else Failed,
       errorKind := Some(kind), errorDetail := Some(detail),
       claimedBy := None, claimedAt := None, leaseExpiresAt := None, updatedAt := now)
  }

  function Fail(
    db: Db, id: JobId, w: WorkerId, retryable: bool, kind: ErrorKind, detail: string, cap: nat, now: Time
  ): Db {
    if id in db.jobs && Owned(db.jobs[id], w)
    then db.(jobs := db.jobs[id := FailRow(db.jobs[id], retryable, kind, detail, cap, now)])
    else db
  }

  // ---------------------------------------------------------------- reclaim_expired.sql

  function DeadLetter(j: Job): string {
    "lease expired after " + Numerals.Decimal(j.attempts) + " attempt(s); last worker: "
    + if j.claimedBy.Some? then j.claimedBy.value else "unknown"
  }

  function ReclaimRow(j: Job, cap: nat, now: Time): Job {
    (if j.attempts < cap then j.(status := Queued)
     else j.(status := Failed, errorKind := Some(EngineInternalError), errorDetail := Some(DeadLetter(j))))
    .(claimedBy := None, claimedAt := None, leaseExpiresAt := None, updatedAt := now)
  }

  function Reclaim(db: Db, cap: nat, now: Time): Db {
    db.(jobs := map id | id in db.jobs ::
      if Expired(db.jobs[id], now) then ReclaimRow(db.jobs[id], cap, now) else db.jobs[id])
  }

  // ---------------------------------------------------------------- enqueue_job.sql

  function NewJob(identity: Identity, profile: string, turns: nat, searchMs: nat, now: Time): Job {
    Job(identity, profile, turns, searchMs, now, Queued, 0, None, None, None, None, None, None, now)
  }

  predicate HasLiveJob(jobs: map<JobId, Job>, identity: Identity) {
    exists id :: id in jobs && Live(jobs[id]) && jobs[id].identity == identity
  }

  /** Inserts under a fresh id, or touches nothing when the identity has a live job. */
  function Enqueue(
    db: Db, newId: JobId, identity: Identity, profile: string, turns: nat, searchMs: nat, now: Time
  ): Db {
    if HasLiveJob(db.jobs, identity) then db
    else db.(jobs := db.jobs[newId := NewJob(identity, profile, turns, searchMs, now)])
  }

  // ---------------------------------------------------------------- upsertReplay

  function UpsertReplay(db: Db, id: string, replay: Replay): Db {
    if id in db.replays then db else db.(replays := db.replays[id := replay])
  }

  // ---------------------------------------------------------------- the success transaction

  function NewAnalysis(identity: Identity, run: AnalysisRun, now: Time): Analysis {
    Analysis(identity, run.document, run.document.totalTurns, run.document.gradableTurns, run.wallMs, run.degraded, now)
  }

  /** `ON CONFLICT DO UPDATE`: the turn counts are not among the columns it refreshes. */
  function Refreshed(a: Analysis, run: AnalysisRun): Analysis {
    a.(document := run.document, wallMs := run.wallMs, degraded := run.degraded)
  }

  /** The row an upsert for `identity` lands on: the existing one, or `aid` if there is none. */
  predicate UpsertTarget(analyses: map<AnalysisId, Analysis>, identity: Identity, aid: AnalysisId) {
    if aid in analyses then analyses[aid].identity == identity
    else forall a | a in analyses :: analyses[a].identity != identity
  }

  function UpsertAnalysis(db: Db, aid: AnalysisId, identity: Identity, run: AnalysisRun, now: Time): Db {
    db.(analyses := db.analyses[aid :=
      if aid in db.analyses then Refreshed(db.analyses[aid], run) else NewAnalysis(identity, run, now)])
  }

  /** Upsert and complete commit together, or the upsert is rolled back. */
  function ReportSuccess(
    db: Db, id: JobId, w: WorkerId, aid: AnalysisId, identity: Identity, run: AnalysisRun, now: Time
  ): Db {
    if id in db.jobs && Owned(db.jobs[id], w)
    then Complete(UpsertAnalysis(db, aid, identity, run, now), id, w, aid, now)
    else db
  }

  // ---------------------------------------------------------------- what each keeps

  /** A change of job rows that ends no job in success and revives none. */
  predicate Quiet(before: map<JobId, Job>, after: map<JobId, Job>, cap: nat) {
    && after.Keys == before.Keys
    && forall id | id in before :: QuietRow(before[id], after[id], cap)
  }

  predicate QuietRow(j: Job, k: Job, cap: nat) {
    && RowOk(k, cap)
    && RowStep(j, k)
    && (Live(k) ==> Live(j))
    && (k.status == Succeeded ==> k == j)
  }

  lemma QuietJobs(before: map<JobId, Job>, after: map<JobId, Job>, cap: nat)
    requires RowsOk(before, cap) && OneLiveJob(before) && Quiet(before, after, cap)
    ensures RowsOk(after, cap) && OneLiveJob(after) && JobsStep(before, after)
  {
    forall id | id in after
      ensures RowOk(after[id], cap)
    {
      assert QuietRow(before[id], after[id], cap);
    }
    forall a, b | a in after && b in after && Live(after[a]) && Live(after[b]) && after[a].identity == after[b].identity
      ensures a == b
    {
      assert QuietRow(before[a], after[a], cap) && QuietRow(before[b], after[b], cap);
    }
  }

  lemma SucceededStay(before: map<JobId, Job>, after: map<JobId, Job>, analyses: map<AnalysisId, Analysis>)
    requires AnalysesAreNamed(before, analyses)
    requires forall id | id in before && before[id].status == Succeeded :: id in after && after[id] == before[id]
    ensures AnalysesAreNamed(after, analyses)
  {
    forall aid | aid in analyses
      ensures IsNamed(after, aid, analyses[aid].identity)
    {
      assert IsNamed(before, aid, analyses[aid].identity);
      var id :| id in before && Names(before[id], aid, analyses[aid].identity);
      assert Names(after[id], aid, analyses[aid].identity);
    }
  }

  lemma QuietChange(db: Db, jobs: map<JobId, Job>, cap: nat)
    requires DbOk(db, cap) && Quiet(db.jobs, jobs, cap)
    ensures DbOk(db.(jobs := jobs), cap)
    ensures DbStep(db, db.(jobs := jobs))
  {
    QuietJobs(db.jobs, jobs, cap);
    forall id | id in db.jobs && db.jobs[id].status == Succeeded
      ensures jobs[id] == db.jobs[id]
    {
      assert QuietRow(db.jobs[id], jobs[id], cap);
    }
    SucceededStay(db.jobs, jobs, db.analyses);
    forall id | id in jobs && jobs[id].status == Succeeded
      ensures PointsAtAnalysis(jobs[id], db.analyses)
    {
      assert QuietRow(db.jobs[id], jobs[id], cap);
    }
  }

  lemma QuietUpdate(db: Db, id: JobId, j: Job, cap: nat)
    requires DbOk(db, cap) && id in db.jobs && Live(db.jobs[id])
    requires RowOk(j, cap) && RowStep(db.jobs[id], j) && j.status != Succeeded
    ensures var after := db.(jobs := db.jobs[id := j]);
      DbOk(after, cap) && DbStep(db, after)
  {
    var jobs := db.jobs[id := j];
    forall k | k in db.jobs
      ensures QuietRow(db.jobs[k], jobs[k], cap)
    {
      assert RowOk(db.jobs[k], cap);
    }
    QuietChange(db, jobs, cap);
  }

  lemma ClaimKeeps(db: Db, id: JobId, w: WorkerId, now: Time, leaseSeconds: nat, cap: nat)
    requires DbOk(db, cap) && id in db.jobs && db.jobs[id].status == Queued
    ensures var after := Claim(db, id, w, now, leaseSeconds);
      DbOk(after, cap) && DbStep(db, after)
  {
    QuietUpdate(db, id, ClaimRow(db.jobs[id], w, now, leaseSeconds), cap);
  }

  lemma HeartbeatKeeps(db: Db, id: JobId, w: WorkerId, now: Time, leaseSeconds: nat, cap: nat)
    requires DbOk(db, cap)
    ensures var after := Heartbeat(db, id, w, now, leaseSeconds);
      DbOk(after, cap) && DbStep(db, after)
  {
    if id in db.jobs && Owned(db.jobs[id], w) {
      QuietUpdate(db, id, HeartbeatRow(db.jobs[id], now, leaseSeconds), cap);
    }
  }

  /** The caller gives a job up that still has attempts, although its kind of failure is worth a retry. */
  predicate GivesUp(db: Db, id: JobId, w: WorkerId, retryable: bool, kind: ErrorKind, cap: nat) {
    id in db.jobs && Owned(db.jobs[id], w) && Retryable(kind) && !retryable && db.jobs[id].attempts < cap
  }

  /** The invariant survives any judgement of the caller but that one. */
  lemma FailKeeps(
    db: Db, id: JobId, w: WorkerId, retryable: bool, kind: ErrorKind, detail: string, cap: nat, now: Time)
    requires DbOk(db, cap)
    ensures var after := Fail(db, id, w, retryable, kind, detail, cap, now);
      DbStep(db, after) && (DbOk(after, cap) <==> !GivesUp(db, id, w, retryable, kind, cap))
  {
    if GivesUp(db, id, w, retryable, kind, cap) {
      GivingUpBreaks(db, id, w, retryable, kind, detail, cap, now);
    } else if id in db.jobs && Owned(db.jobs[id], w) {
      QuietUpdate(db, id, FailRow(db.jobs[id], retryable, kind, detail, cap, now), cap);
    }
  }

  lemma GivingUpBreaks(
    db: Db, id: JobId, w: WorkerId, retryable: bool, kind: ErrorKind, detail: string, cap: nat, now: Time)
    requires GivesUp(db, id, w, retryable, kind, cap)
    ensures var after := Fail(db, id, w, retryable, kind, detail, cap, now);
      DbStep(db, after) && !RowsOk(after.jobs, cap)
  {
    var after := Fail(db, id, w, retryable, kind, detail, cap, now);
    assert RowStep(db.jobs[id], after.jobs[id]) && !RowOk(after.jobs[id], cap);
  }

  /** Below the cap an expired row is requeued, at the cap it ends; either way it stays a good row. */
  lemma ReclaimedRowIsQuiet(j: Job, cap: nat, now: Time)
    requires RowOk(j, cap)
    ensures QuietRow(j, if Expired(j, now) then ReclaimRow(j, cap, now) else j, cap)
  {
  }

  lemma ReclaimKeeps(db: Db, cap: nat, now: Time)
    requires DbOk(db, cap)
    ensures var after := Reclaim(db, cap, now);
      DbOk(after, cap) && DbStep(db, after)
  {
    var jobs := Reclaim(db, cap, now).jobs;
    forall id | id in db.jobs
      ensures QuietRow(db.jobs[id], jobs[id], cap)
    {
      ReclaimedRowIsQuiet(db.jobs[id], cap, now);
    }
    QuietChange(db, jobs, cap);
  }

  lemma InsertKeeps(jobs: map<JobId, Job>, newId: JobId, j: Job, cap: nat)
    requires RowsOk(jobs, cap) && OneLiveJob(jobs) && 1 <= cap && newId !in jobs
    requires RowOk(j, cap) && j.status == Queued && j.attempts == 0 && !HasLiveJob(jobs, j.identity)
    ensures var after := jobs[newId := j];
      RowsOk(after, cap) && OneLiveJob(after) && JobsStep(jobs, after)
  {
  }

  lemma EnqueueKeeps(
    db: Db, newId: JobId, identity: Identity, profile: string, turns: nat, searchMs: nat, now: Time, cap: nat)
    requires DbOk(db, cap) && 1 <= cap && newId !in db.jobs
    ensures var after := Enqueue(db, newId, identity, profile, turns, searchMs, now);
      DbOk(after, cap) && DbStep(db, after)
  {
    if !HasLiveJob(db.jobs, identity) {
      var j := NewJob(identity, profile, turns, searchMs, now);
      InsertKeeps(db.jobs, newId, j, cap);
      SucceededStay(db.jobs, db.jobs[newId := j], db.analyses);
    }
  }

  lemma StoredLogsStay(analyses: map<AnalysisId, Analysis>, before: map<string, Replay>, after: map<string, Replay>)
    requires DocumentsTraced(analyses, before) && ReplaysStep(before, after)
    ensures DocumentsTraced(analyses, after)
  {
    forall aid | aid in analyses
      ensures Provenance(analyses[aid].identity, analyses[aid].document, after)
    {
      assert Provenance(analyses[aid].identity, analyses[aid].document, before);
    }
  }

  lemma UpsertReplayKeeps(db: Db, id: string, replay: Replay, cap: nat)
    requires DbOk(db, cap)
    ensures var after := UpsertReplay(db, id, replay);
      DbOk(after, cap) && DbStep(db, after)
  {
    StoredLogsStay(db.analyses, db.replays, UpsertReplay(db, id, replay).replays);
  }

  lemma UpsertKeeps(db: Db, aid: AnalysisId, identity: Identity, run: AnalysisRun, now: Time)
    requires OneAnalysis(db.analyses) && DocumentsTraced(db.analyses, db.replays)
    requires UpsertTarget(db.analyses, identity, aid) && Provenance(identity, run.document, db.replays)
    ensures var analyses := UpsertAnalysis(db, aid, identity, run, now).analyses;
      && OneAnalysis(analyses) && DocumentsTraced(analyses, db.replays) && AnalysesStep(db.analyses, analyses)
      && analyses[aid].identity == identity && analyses[aid].document == run.document
  {
  }

  lemma CompletedRow(jobs: map<JobId, Job>, id: JobId, aid: AnalysisId, now: Time, cap: nat)
    requires RowsOk(jobs, cap) && OneLiveJob(jobs) && id in jobs && jobs[id].status == Running
    ensures var after := jobs[id := CompleteRow(jobs[id], aid, now)];
      RowsOk(after, cap) && OneLiveJob(after) && JobsStep(jobs, after)
  {
    assert RowOk(jobs[id], cap);
  }

  lemma CompletedIsNamed(
    jobs: map<JobId, Job>, id: JobId, aid: AnalysisId, now: Time, before: map<AnalysisId, Analysis>,
    after: map<AnalysisId, Analysis>)
    requires id in jobs && jobs[id].status == Running
    requires AnalysesAreNamed(jobs, before) && AnalysesStep(before, after) && after.Keys == before.Keys + {aid}
    requires after[aid].identity == jobs[id].identity
    ensures AnalysesAreNamed(jobs[id := CompleteRow(jobs[id], aid, now)], after)
  {
    var completed := jobs[id := CompleteRow(jobs[id], aid, now)];
    SucceededStay(jobs, completed, before);
    assert Names(completed[id], aid, after[aid].identity);
    forall a | a in after
      ensures IsNamed(completed, a, after[a].identity)
    {
      if a != aid {
        assert SameRow(before[a], after[a]) && IsNamed(completed, a, before[a].identity);
      }
    }
  }

  lemma CompletedPoints(
    jobs: map<JobId, Job>, id: JobId, aid: AnalysisId, now: Time, before: map<AnalysisId, Analysis>,
    after: map<AnalysisId, Analysis>)
    requires id in jobs
    requires SucceededHasAnalysis(jobs, before) && AnalysesStep(before, after)
    requires aid in after && after[aid].identity == jobs[id].identity
    ensures SucceededHasAnalysis(jobs[id := CompleteRow(jobs[id], aid, now)], after)
  {
    forall k | k in jobs && jobs[k].status == Succeeded
      ensures PointsAtAnalysis(jobs[k], after)
    {
      assert PointsAtAnalysis(jobs[k], before);
      var a := jobs[k].analysisId.value;
      assert SameRow(before[a], after[a]);
    }
  }

  /** Success is all or nothing: one analysis row and one job row change together, or no row does. */
  lemma ReportSuccessKeeps(
    db: Db, id: JobId, w: WorkerId, aid: AnalysisId, identity: Identity, run: AnalysisRun, now: Time, cap: nat)
    requires DbOk(db, cap)
    requires id in db.jobs ==> db.jobs[id].identity == identity
    requires UpsertTarget(db.analyses, identity, aid)
    requires Provenance(identity, run.document, db.replays)
    ensures var after := ReportSuccess(db, id, w, aid, identity, run, now);
      && DbOk(after, cap) && DbStep(db, after)
  {
    if id in db.jobs && Owned(db.jobs[id], w) {
      var analyses := UpsertAnalysis(db, aid, identity, run, now).analyses;
      UpsertKeeps(db, aid, identity, run, now);
      CompletedRow(db.jobs, id, aid, now, cap);
      CompletedIsNamed(db.jobs, id, aid, now, db.analyses, analyses);
      CompletedPoints(db.jobs, id, aid, now, db.analyses, analyses);
    }
  }

  /** An accepted report changes exactly its analysis row and its job row; a refused one changes nothing. */
  lemma ReportIsAllOrNothing(
    db: Db, id: JobId, w: WorkerId, aid: AnalysisId, identity: Identity, run: AnalysisRun, now: Time)
    requires id in db.jobs ==> db.jobs[id].identity == identity
    requires UpsertTarget(db.analyses, identity, aid)
    ensures var after := ReportSuccess(db, id, w, aid, identity, run, now);
      if id in db.jobs && Owned(db.jobs[id], w) then
        && Names(after.jobs[id], aid, identity)
        && aid in after.analyses && after.analyses[aid].identity == identity
        && after.analyses[aid].document == run.document
        && after.analyses - {aid} == db.analyses - {aid}
        && after.jobs - {id} == db.jobs - {id}
        && after.jobs.Keys == db.jobs.Keys
      else after == db
  {
  }

  /**
   The stored turn counts match the stored document exactly when the row is new or the new
   document kept the old counts.
  */
  lemma TurnCountsAfterUpsert(db: Db, aid: AnalysisId, identity: Identity, run: AnalysisRun, now: Time)
    ensures var a := UpsertAnalysis(db, aid, identity, run, now).analyses[aid];
      (a.totalTurns == a.document.totalTurns && a.gradableTurns == a.document.gradableTurns)
      <==> (aid !in db.analyses
            || (db.analyses[aid].totalTurns == run.document.totalTurns
                && db.analyses[aid].gradableTurns == run.document.gradableTurns))
  {
  }

  /** The row invariant implies the CHECK constraints the schema states. */
  lemma RowOkMeetsSchema(j: Job, cap: nat)
    requires RowOk(j, cap)
    ensures SchemaChecks(j)
  {
  }

  /** No status change is free: each uses up at least one unit of what is left. */
  lemma StatusChangeDecreases(j: Job, k: Job, cap: nat)
    requires RowOk(j, cap) && RowOk(k, cap) && RowStep(j, k) && k.status != j.status
    ensures 0 <= Measure(k, cap) < Measure(j, cap) <= 2 * cap
  {
  }
}
