/** The three tables and what their constraints, and the queue's statements, keep true of them. */
module Tables {
  import opened Wrappers
  import opened Contract

  type JobId = nat
  type AnalysisId = nat
  type WorkerId = string

  /** Microseconds on the database clock. */
  type Time = int

  const SECOND: int := 1_000_000

  datatype Status = Queued | Running | Succeeded | Failed | Cancelled

  datatype Job = Job(
    identity: Identity,
    profile: string,
    estimatedTurns: nat,
    estimatedSearchMs: nat,
    createdAt: Time,
    status: Status,
    attempts: nat,
    claimedBy: Option<WorkerId>,
    claimedAt: Option<Time>,
    leaseExpiresAt: Option<Time>,
    analysisId: Option<AnalysisId>,
    errorKind: Option<ErrorKind>,
    errorDetail: Option<string>,
    updatedAt: Time)

  datatype Replay = Replay(format: string, rating: Option<int>, players: seq<string>, log: string, payloadBytes: nat)

  /**
   What the engine returned. `engine`, `request` and `log` are not part of the stored text:
   they record which build computed it, for which identity, from which replay log.
   */
  datatype Document = Document(
    text: string, totalTurns: nat, gradableTurns: nat,
    engine: Build, request: Identity, log: string)

  /** A document with the telemetry of the run. */
  datatype AnalysisRun = AnalysisRun(document: Document, wallMs: nat, degraded: bool)

  datatype Analysis = Analysis(
    identity: Identity, document: Document,
    totalTurns: nat, gradableTurns: nat, wallMs: nat, degraded: bool, createdAt: Time)

  datatype Db = Db(
    replays: map<string, Replay>,
    analyses: map<AnalysisId, Analysis>,
    jobs: map<JobId, Job>)

  const EMPTY: Db := Db(map[], map[], map[])

  // ---------------------------------------------------------------- rows

  /** What the partial unique index covers. */
  predicate Live(j: Job) {
    j.status == Queued || j.status == Running
  }

  predicate Owned(j: Job, w: WorkerId) {
    j.status == Running && j.claimedBy == Some(w)
  }

  predicate Expired(j: Job, now: Time) {
    j.status == Running && j.leaseExpiresAt.Some? && j.leaseExpiresAt.value < now
  }

  /** The order claims follow: creation time, then id. */
  predicate Before(jobs: map<JobId, Job>, a: JobId, b: JobId)
    requires a in jobs && b in jobs
  {
    jobs[a].createdAt < jobs[b].createdAt || (jobs[a].createdAt == jobs[b].createdAt && a < b)
  }

  predicate Claimable(jobs: map<JobId, Job>, build: Build, id: JobId) {
    id in jobs && jobs[id].status == Queued && BuildOf(jobs[id].identity) == build
  }

  /** The row `ORDER BY created_at, id LIMIT 1` finds when no row is locked. */
  predicate IsHead(jobs: map<JobId, Job>, build: Build, id: JobId) {
    Claimable(jobs, build, id)
    && forall k | k in jobs && k != id && Claimable(jobs, build, k) :: Before(jobs, id, k)
  }

  /**
   The row invariant, stronger than the table's CHECK constraints. `cap` is the attempt cap
   all workers share.
   */
  predicate RowOk(j: Job, cap: nat) {
    && (j.status == Running <==> j.claimedBy.Some?)
    && (j.status == Running <==> j.claimedAt.Some?)
    && (j.status == Running <==> j.leaseExpiresAt.Some?)
    && (j.status == Succeeded <==> j.analysisId.Some?)
    && j.attempts <= cap
    && (j.status == Queued ==> j.attempts < cap)
    && (j.status == Running ==> 1 <= j.attempts)
    && (j.status == Failed ==> j.errorKind.Some?)
    && (j.status == Failed && Retryable(j.errorKind.value) ==> j.attempts == cap)
    && (j.errorKind.Some? <==> j.errorDetail.Some?)
    && (j.status == Succeeded ==> j.errorKind.None?)
    && j.status != Cancelled
  }

  /** The three CHECK constraints of the jobs table. */
  predicate SchemaChecks(j: Job) {
    && ((j.claimedBy.None? && j.claimedAt.None? && j.leaseExpiresAt.None?)
        || (j.claimedBy.Some? && j.claimedAt.Some? && j.leaseExpiresAt.Some?))
    && (j.status != Succeeded || j.analysisId.Some?)
    && (j.status != Failed || j.errorKind.Some?)
  }

  /**
   Progress of a job: it grows by one with every change of status and never otherwise.
   Even while the job runs, odd while it waits or has ended.
   */
  function Epoch(j: Job): nat {
    2 * j.attempts + if j.status == Running then 0 else 1
  }

  /** What is left: twice the unspent attempts while queued, one more while running, nothing once ended. */
  function Measure(j: Job, cap: nat): int {
    if j.status == Queued then 2 * (cap - j.attempts)
    else if j.status == Running then 2 * (cap - j.attempts) + 1
    else 0
  }

  /** What a submission wrote and nothing changes later. */
  predicate SameOrigin(j: Job, k: Job) {
    && k.identity == j.identity && k.profile == j.profile && k.createdAt == j.createdAt
    && k.estimatedTurns == j.estimatedTurns && k.estimatedSearchMs == j.estimatedSearchMs
  }

  /** What one committed step may do to a row. */
  predicate RowStep(j: Job, k: Job) {
    && SameOrigin(j, k)
    && j.attempts <= k.attempts
    && (k.status == j.status ==>
        && Epoch(k) == Epoch(j) && k.claimedBy == j.claimedBy
        && k.analysisId == j.analysisId && k.errorKind == j.errorKind)
    && (k.status != j.status ==> Epoch(k) == Epoch(j) + 1)
    && (!Live(j) ==> k == j)
  }

  // ---------------------------------------------------------------- tables

  predicate RowsOk(jobs: map<JobId, Job>, cap: nat) {
    forall id | id in jobs :: RowOk(jobs[id], cap)
  }

  predicate OneLiveJob(jobs: map<JobId, Job>) {
    forall a, b | a in jobs && b in jobs && Live(jobs[a]) && Live(jobs[b])
      && jobs[a].identity == jobs[b].identity :: a == b
  }

  predicate OneAnalysis(analyses: map<AnalysisId, Analysis>) {
    forall a, b | a in analyses && b in analyses && analyses[a].identity == analyses[b].identity :: a == b
  }

  /** Job `j` succeeded and points at an analysis of its own identity. */
  predicate PointsAtAnalysis(j: Job, analyses: map<AnalysisId, Analysis>) {
    j.analysisId.Some? && j.analysisId.value in analyses && analyses[j.analysisId.value].identity == j.identity
  }

  /** A succeeded job names an existing analysis of its own identity. */
  predicate SucceededHasAnalysis(jobs: map<JobId, Job>, analyses: map<AnalysisId, Analysis>) {
    forall id | id in jobs && jobs[id].status == Succeeded :: PointsAtAnalysis(jobs[id], analyses)
  }

  predicate Names(j: Job, aid: AnalysisId, identity: Identity) {
    j.status == Succeeded && j.analysisId == Some(aid) && j.identity == identity
  }

  predicate IsNamed(jobs: map<JobId, Job>, aid: AnalysisId, identity: Identity) {
    exists id :: id in jobs && Names(jobs[id], aid, identity)
  }

  /** Every analysis is named by some succeeded job of its identity. */
  predicate AnalysesAreNamed(jobs: map<JobId, Job>, analyses: map<AnalysisId, Analysis>) {
    forall aid | aid in analyses :: IsNamed(jobs, aid, analyses[aid].identity)
  }

  /** A document was computed by a worker of the identity's build, for that identity, from the stored log. */
  predicate Provenance(identity: Identity, doc: Document, replays: map<string, Replay>) {
    && doc.engine == BuildOf(identity)
    && doc.request == identity
    && identity.replayId in replays
    && doc.log == replays[identity.replayId].log
  }

  predicate DocumentsTraced(analyses: map<AnalysisId, Analysis>, replays: map<string, Replay>) {
    forall aid | aid in analyses :: Provenance(analyses[aid].identity, analyses[aid].document, replays)
  }

  predicate DbOk(db: Db, cap: nat) {
    && RowsOk(db.jobs, cap)
    && OneLiveJob(db.jobs)
    && OneAnalysis(db.analyses)
    && SucceededHasAnalysis(db.jobs, db.analyses)
    && AnalysesAreNamed(db.jobs, db.analyses)
    && DocumentsTraced(db.analyses, db.replays)
  }

  predicate ReplaysStep(before: map<string, Replay>, after: map<string, Replay>) {
    forall r | r in before :: r in after && after[r] == before[r]
  }

  /** An analysis keeps its identity, its creation time and the turn counts of its first document. */
  predicate SameRow(a: Analysis, b: Analysis) {
    a.identity == b.identity && a.createdAt == b.createdAt
    && a.totalTurns == b.totalTurns && a.gradableTurns == b.gradableTurns
  }

  predicate AnalysesStep(before: map<AnalysisId, Analysis>, after: map<AnalysisId, Analysis>) {
    forall a | a in before :: a in after && SameRow(before[a], after[a])
  }

  predicate JobsStep(before: map<JobId, Job>, after: map<JobId, Job>) {
    && (forall id | id in before :: id in after && RowStep(before[id], after[id]))
    && (forall id | id in after && id !in before :: after[id].status == Queued && after[id].attempts == 0)
  }

  /** What one committed step may do to the tables. */
  predicate DbStep(before: Db, after: Db) {
    && ReplaysStep(before.replays, after.replays)
    && AnalysesStep(before.analyses, after.analyses)
    && JobsStep(before.jobs, after.jobs)
  }
}
