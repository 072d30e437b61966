/**
 The worker process: claim a job, load its replay, analyse it under a heartbeat, report; and
 the loop that drains the queue.

 Time passes while a job is analysed, and other processes may reclaim expired jobs then. The
 engine is an oracle: what it answers for the n-th attempt at a job is a parameter.
*/
module WorkerLoop {
  import opened Wrappers
  import opened Contract
  import opened Tables
  import opened Statements
  import opened Columns
  import opened Remaining
  import opened Queue
  import Cluster
  import Lease

  /** `Died` stands for a process that ends without reporting anything. */
  datatype Outcome =
    | Returned(text: string, totalTurns: nat, gradableTurns: nat, wallMs: nat, degraded: bool)
    | Raised(kind: ErrorKind, detail: string)
    | Died

  datatype Turn = Empty | Processed(id: JobId) | Crashed(id: JobId)

  // ---------------------------------------------------------------- the job in hand

  /** Only the lease was renewed. */
  predicate Renewed(j: Job, k: Job) {
    k == j.(leaseExpiresAt := k.leaseExpiresAt, updatedAt := k.updatedAt)
  }

  /** The lease, as last renewed, ran out and the job was reclaimed. */
  ghost predicate Lost(j: Job, k: Job, cap: nat) {
    exists h: Job, t: Time :: Renewed(j, h) && Expired(h, t) && RowReclaimed(h, k, cap, t)
  }

  ghost predicate InHand(j: Job, k: Job, cap: nat) {
    (Renewed(j, k) && k.leaseExpiresAt.Some?) || Lost(j, k, cap)
  }

  lemma StaysInHand(j: Job, k: Job, l: Job, cap: nat)
    requires InHand(j, k, cap) && Reclaimed(k, l, cap)
    ensures InHand(j, l, cap)
  {
  }

  lemma StaysLost(j: Job, k: Job, l: Job, cap: nat)
    requires Reclaimed(k, l, cap)
    ensures Lost(j, k, cap) ==> Lost(j, l, cap)
  {
  }

  /** From `before` to `after` the claimed job stayed in hand and other rows were reclaimed at most. */
  ghost predicate Holding(before: map<JobId, Job>, after: map<JobId, Job>, id: JobId, j: Job, cap: nat) {
    id in after && Reclaims(before, after, {id}, cap) && InHand(j, after[id], cap)
  }

  lemma HoldingOn(a: map<JobId, Job>, b: map<JobId, Job>, c: map<JobId, Job>, id: JobId, j: Job, cap: nat)
    requires Holding(a, b, id, j, cap) && Holding(b, c, id, j, cap)
    ensures Holding(a, c, id, j, cap)
  {
    ReclaimsCompose(a, b, c, {id}, cap);
  }

  function RunOf(o: Outcome, build: Build, identity: Identity, log: string): AnalysisRun
    requires o.Returned?
  {
    AnalysisRun(Document(o.text, o.totalTurns, o.gradableTurns, build, identity, log), o.wallMs, o.degraded)
  }

  /** The failure is on record, and the job waits again if another attempt is worth it and allowed. */
  predicate FailedAs(j: Job, k: Job, kind: ErrorKind, detail: string, cap: nat) {
    && k.errorDetail.Some? && CutAt2000(k.errorDetail.value, detail)
    && RowFailed(j, k, WorthARetry(kind), kind, k.errorDetail.value, cap, k.updatedAt)
  }

  /** The job has succeeded with what the engine returned for it. */
  predicate SucceededWith(
    before: Db, analyses: map<AnalysisId, Analysis>, j: Job, k: Job, answer: Outcome, build: Build)
    requires answer.Returned?
  {
    && k.analysisId.Some? && RowCompleted(j, k, k.analysisId.value, k.updatedAt)
    && j.identity.replayId in before.replays
    && var log := before.replays[j.identity.replayId].log;
       var document := Document(answer.text, answer.totalTurns, answer.gradableTurns, build, j.identity, log);
       AnalysisWritten(before.analyses, analyses, k.analysisId.value, j.identity, document,
         answer.wallMs, answer.degraded, k.updatedAt)
  }

  /** The row `k` and the analyses after the worker that claimed the row as `j` is done with it. */
  ghost predicate Settled(
    before: Db, analyses: map<AnalysisId, Analysis>, j: Job, k: Job, answer: Outcome, build: Build, cap: nat)
  {
    match answer
    case Died => InHand(j, k, cap) && analyses == before.analyses
    case Raised(kind, detail) =>
      && analyses == before.analyses
      && (Lost(j, k, cap) || FailedAs(j, k, kind, detail, cap))
    case Returned(_, _, _, _, _) =>
      || (Lost(j, k, cap) && analyses == before.analyses)
      || SucceededWith(before, analyses, j, k, answer, build)
  }

  lemma SettledIgnoresJobs(
    a: Db, b: Db, analyses: map<AnalysisId, Analysis>, j: Job, k: Job, answer: Outcome, build: Build, cap: nat)
    requires a.analyses == b.analyses && a.replays == b.replays && Settled(a, analyses, j, k, answer, build, cap)
    ensures Settled(b, analyses, j, k, answer, build, cap)
  {
  }

  lemma ClaimTakesOneRow(db: Db, id: JobId, w: WorkerId, now: Time, leaseSeconds: nat, cap: nat)
    requires id in db.jobs
    ensures var after := Claim(db, id, w, now, leaseSeconds);
      && Reclaims(db.jobs, after.jobs, {id}, cap)
      && Spent(db.jobs, after.jobs, id)
      && after.jobs[id] == ClaimRow(db.jobs[id], w, now, leaseSeconds)
  {
  }

  /** A job that was not left behind by a crash is not running, and no other row started to. */
  lemma SettledRow(
    before: Db, analyses: map<AnalysisId, Analysis>, j: Job, k: Job, answer: Outcome, build: Build, cap: nat)
    requires j.status == Running && Settled(before, analyses, j, k, answer, build, cap)
    ensures k.identity == j.identity && k.attempts == j.attempts
    ensures !answer.Died? ==> k.status != Running
  {
  }

  /** Rows running now were running then, and are as they were. */
  ghost predicate NoneStarted(before: map<JobId, Job>, after: map<JobId, Job>) {
    forall id | id in after && after[id].status == Running :: id in before && after[id] == before[id]
  }

  /** One turn with job `id`, whose row was `j` once claimed: an attempt is spent, and the answer settles the job. */
  ghost predicate Turned(before: Db, after: Db, id: JobId, j: Job, answer: Outcome, build: Build, cap: nat) {
    && id in after.jobs
    && Spent(before.jobs, after.jobs, id)
    && Reclaims(before.jobs, after.jobs, {id}, cap)
    && Settled(before, after.analyses, j, after.jobs[id], answer, build, cap)
  }

  /** A claim followed by the work on it, taken together. */
  lemma TurnSettles(
    before: Db, taken: Db, after: Db, id: JobId, w: WorkerId, at: Time, leaseSeconds: nat,
    answer: Outcome, build: Build, cap: nat)
    requires id in before.jobs && taken == Claim(before, id, w, at, leaseSeconds) && id in after.jobs
    requires Reclaims(taken.jobs, after.jobs, {id}, cap)
    requires Settled(taken, after.analyses, taken.jobs[id], after.jobs[id], answer, build, cap)
    ensures Turned(before, after, id, taken.jobs[id], answer, build, cap)
    ensures !answer.Died? ==> NoneStarted(before.jobs, after.jobs)
  {
    var j := taken.jobs[id];
    ClaimTakesOneRow(before, id, w, at, leaseSeconds, cap);
    ReclaimsCompose(before.jobs, taken.jobs, after.jobs, {id}, cap);
    SettledIgnoresJobs(taken, before, after.analyses, j, after.jobs[id], answer, build, cap);
    SettledRow(taken, after.analyses, j, after.jobs[id], answer, build, cap);
    if !answer.Died? {
      ReclaimsStartNone(before.jobs, after.jobs, {id}, cap);
    }
  }

  lemma NoneStartedOn(a: map<JobId, Job>, b: map<JobId, Job>, c: map<JobId, Job>)
    requires NoneStarted(a, b) && NoneStarted(b, c)
    ensures NoneStarted(a, c)
  {
  }

  lemma ReclaimsStartNone(before: map<JobId, Job>, after: map<JobId, Job>, but: set<JobId>, cap: nat)
    requires Reclaims(before, after, but, cap)
    requires forall id | id in but && id in after :: after[id].status != Running
    ensures NoneStarted(before, after)
  {
    forall id | id in after && after[id].status == Running
      ensures after[id] == before[id]
    {
      assert id !in but ==> Reclaimed(before[id], after[id], cap);
    }
  }

  /** The job keeps its identity and has used up one more attempt. */
  predicate Spent(before: map<JobId, Job>, after: map<JobId, Job>, id: JobId) {
    id in before && id in after
    && after[id].identity == before[id].identity && after[id].attempts == before[id].attempts + 1
  }

  ghost function OfBuild(jobs: map<JobId, Job>, build: Build): set<JobId> {
    set id | id in jobs && BuildOf(jobs[id].identity) == build
  }

  /** The same jobs; those of other builds saw at most a reclaim of an expired lease. */
  ghost predicate Drained(before: map<JobId, Job>, after: map<JobId, Job>, cap: nat, build: Build) {
    && Reclaims(before, after, OfBuild(before, build), cap)
    && OfBuild(after, build) == OfBuild(before, build)
  }

  lemma DrainedOn(a: map<JobId, Job>, b: map<JobId, Job>, c: map<JobId, Job>, cap: nat, build: Build)
    requires Drained(a, b, cap, build) && Drained(b, c, cap, build)
    ensures Drained(a, c, cap, build)
  {
    ReclaimsCompose(a, b, c, OfBuild(a, build), cap);
  }

  lemma ReclaimsSpendNothing(before: map<JobId, Job>, after: map<JobId, Job>, cap: nat, build: Build)
    requires Reclaims(before, after, {}, cap)
    ensures Left(after, cap, build, None) <= Left(before, cap, build, None)
    ensures NoneStarted(before, after) && Drained(before, after, cap, build)
  {
    forall k | k in after
      ensures Weight(after[k], k, cap, build, None) <= Weight(before[k], k, cap, build, None)
      ensures after[k].identity == before[k].identity
    {
      assert Reclaimed(before[k], after[k], cap);
    }
    SumBelow(Weights(after, cap, build, None), Weights(before, cap, build, None));
    ReclaimsStartNone(before, after, {}, cap);
  }

  /** None of the build's jobs is queued and nobody's lease has run out. */
  ghost predicate NothingToDo(jobs: map<JobId, Job>, build: Build, now: Time) {
    forall id | id in jobs :: !Claimable(jobs, build, id) && !Expired(jobs[id], now)
  }

  lemma ReclaimedWeighs(j: Job, k: Job, id: JobId, cap: nat, build: Build)
    requires Reclaimed(j, k, cap)
    ensures Weight(k, id, cap, build, None) <= Weight(j, id, cap, build, None) && k.identity == j.identity
  {
  }

  lemma SpentWeighs(j: Job, k: Job, id: JobId, cap: nat, build: Build)
    requires k.identity == j.identity && k.attempts == j.attempts + 1
    requires RowOk(j, cap) && j.status == Queued
    ensures Weight(k, id, cap, build, None) <= Weight(j, id, cap, build, None)
    ensures BuildOf(j.identity) == build ==>
      Weight(k, id, cap, build, None) + 1 <= Weight(j, id, cap, build, None)
  {
  }

  lemma TurnWeighs(
    before: map<JobId, Job>, after: map<JobId, Job>, id: JobId, cap: nat, build: Build, k: JobId)
    requires Reclaims(before, after, {id}, cap) && k in after
    requires Spent(before, after, id) && RowOk(before[id], cap) && before[id].status == Queued
    ensures Weight(after[k], k, cap, build, None) <= Weight(before[k], k, cap, build, None)
  {
    if k == id {
      SpentWeighs(before[id], after[id], id, cap, build);
    } else {
      assert Reclaimed(before[k], after[k], cap);
      ReclaimedWeighs(before[k], after[k], k, cap, build);
    }
  }

  /** A claim costs the build one of the attempts it has left, whatever becomes of the job. */
  lemma TurnSpendsOne(before: map<JobId, Job>, after: map<JobId, Job>, id: JobId, cap: nat, build: Build)
    requires Reclaims(before, after, {id}, cap) && RowsOk(before, cap)
    requires Claimable(before, build, id) && Spent(before, after, id)
    ensures Left(after, cap, build, None) + 1 <= Left(before, cap, build, None)
  {
    assert RowOk(before[id], cap);
    forall k | k in after
      ensures Weight(after[k], k, cap, build, None) <= Weight(before[k], k, cap, build, None)
    {
      TurnWeighs(before, after, id, cap, build, k);
    }
    SpentWeighs(before[id], after[id], id, cap, build);
    SumStrictlyBelow(Weights(after, cap, build, None), Weights(before, cap, build, None), id);
  }

  /** It is a job of the build that the turn is about. */
  lemma TurnDrains(before: map<JobId, Job>, after: map<JobId, Job>, id: JobId, cap: nat, build: Build)
    requires Reclaims(before, after, {id}, cap) && Claimable(before, build, id) && Spent(before, after, id)
    ensures Drained(before, after, cap, build)
  {
    forall k | k in after
      ensures after[k].identity == before[k].identity
    {
      assert k != id ==> Reclaimed(before[k], after[k], cap);
    }
  }

  /** The build owes the job an attempt: it waits, or it was abandoned before its attempts ran out. */
  predicate Due(j: Job, build: Build, cap: nat, now: Time) {
    BuildOf(j.identity) == build && (j.status == Queued || (Abandoned(j, now) && j.attempts < cap))
  }

  /** Jobs that were due wait in their old place or have been attempted since, and no attempt is taken back. */
  ghost predicate Served(before: map<JobId, Job>, now: Time, after: map<JobId, Job>, build: Build, cap: nat) {
    forall id | id in before ::
      && id in after && before[id].attempts <= after[id].attempts
      && (Due(before[id], build, cap, now) && after[id].attempts == before[id].attempts ==>
            after[id].status == Queued && SameOrigin(before[id], after[id]))
  }

  lemma ServedOn(
    a: map<JobId, Job>, t: Time, b: map<JobId, Job>, u: Time, c: map<JobId, Job>, build: Build, cap: nat)
    requires Served(a, t, b, build, cap) && Served(b, u, c, build, cap)
    ensures Served(a, t, c, build, cap)
  {
    forall id | id in a
      ensures id in c && a[id].attempts <= c[id].attempts
      ensures Due(a[id], build, cap, t) && c[id].attempts == a[id].attempts ==>
        c[id].status == Queued && SameOrigin(a[id], c[id])
    {
      assert id in b && Due(a[id], build, cap, t) && b[id].attempts == a[id].attempts ==> Due(b[id], build, cap, u);
    }
  }

  /** Every job that was due has been attempted since. */
  ghost predicate AllAttempted(before: map<JobId, Job>, now: Time, after: map<JobId, Job>, build: Build, cap: nat) {
    forall id | id in before && Due(before[id], build, cap, now) ::
      id in after && before[id].attempts < after[id].attempts
  }

  lemma NothingLeftIsAllAttempted(
    before: map<JobId, Job>, at: Time, after: map<JobId, Job>, build: Build, cap: nat, now: Time)
    requires Served(before, at, after, build, cap) && NothingToDo(after, build, now)
    ensures AllAttempted(before, at, after, build, cap)
  {
    forall id | id in before && Due(before[id], build, cap, at)
      ensures id in after && before[id].attempts < after[id].attempts
    {
      assert !Claimable(after, build, id);
    }
  }

  /** A reclaim puts abandoned jobs back in the queue. */
  lemma ReclaimServes(before: map<JobId, Job>, after: map<JobId, Job>, build: Build, cap: nat, now: Time)
    requires AbandonedReclaimed(before, after, cap, now)
    ensures Served(before, now, after, build, cap)
  {
    forall id | id in before
      ensures before[id].attempts == after[id].attempts
      ensures Due(before[id], build, cap, now) ==> after[id].status == Queued && SameOrigin(before[id], after[id])
    {
      assert if Abandoned(before[id], now) then RowReclaimed(before[id], after[id], cap, now)
             else after[id] == before[id];
    }
  }

  /** A turn attempts its job; of the others only running ones can change. */
  lemma TurnServes(
    before: map<JobId, Job>, after: map<JobId, Job>, id: JobId, build: Build, cap: nat, now: Time)
    requires Reclaims(before, after, {id}, cap) && Spent(before, after, id)
    requires forall k | k in before :: !Abandoned(before[k], now)
    ensures Served(before, now, after, build, cap)
  {
    forall k | k in before
      ensures before[k].attempts <= after[k].attempts
      ensures k != id && Due(before[k], build, cap, now) ==>
        after[k].status == Queued && SameOrigin(before[k], after[k])
    {
      assert k != id ==> Reclaimed(before[k], after[k], cap);
    }
  }

  /** A reclaim and then a turn. */
  lemma RoundSpendsOne(
    a: map<JobId, Job>, b: map<JobId, Job>, c: map<JobId, Job>, id: JobId, cap: nat, build: Build)
    requires Reclaims(a, b, {}, cap) && RowsOk(b, cap)
    requires Reclaims(b, c, {id}, cap) && Claimable(b, build, id) && Spent(b, c, id)
    ensures Left(c, cap, build, None) + 1 <= Left(a, cap, build, None)
    ensures Drained(a, c, cap, build)
    ensures NoneStarted(b, c) ==> NoneStarted(a, c)
  {
    ReclaimsSpendNothing(a, b, cap, build);
    TurnSpendsOne(b, c, id, cap, build);
    TurnDrains(b, c, id, cap, build);
    DrainedOn(a, b, c, cap, build);
  }

  // ---------------------------------------------------------------- the heartbeat

  class Heartbeat {
    const db: Database
    const jobId: JobId
    const workerId: WorkerId
    const leaseSeconds: nat
    var lost: bool
    /** When the lease was last renewed. */
    ghost var renewedAt: Time

    /** As long as the worker has the job, the lease runs from the last renewal. */
    ghost predicate LeaseIsCurrent()
      reads this, db
    {
      jobId in db.jobs && Owned(db.jobs[jobId], workerId) ==>
        db.jobs[jobId].leaseExpiresAt == Some(renewedAt + leaseSeconds * SECOND)
    }

    constructor (db: Database, jobId: JobId, workerId: WorkerId, leaseSeconds: nat, ghost claimedAt: Time)
      ensures this.db == db && this.jobId == jobId && this.workerId == workerId
      ensures this.leaseSeconds == leaseSeconds && !lost && renewedAt == claimedAt
    {
      this.db, this.jobId, this.workerId, this.leaseSeconds, lost := db, jobId, workerId, leaseSeconds, false;
      renewedAt := claimedAt;
    }

    /**
     Renews after every period until the analysis ends, or until a renewal finds no row. It then
     knows that the job was reclaimed; otherwise no renewal was skipped. `j` is the row as claimed.
    */
    method Run(periods: nat, cap: nat, ghost j: Job)
      requires db.Valid(cap) && jobId in db.jobs && !lost && renewedAt == db.now
      requires Owned(j, workerId) && InHand(j, db.jobs[jobId], cap) && LeaseIsCurrent()
      modifies this, db`jobs, db`now
      ensures db.Valid(cap) && Holding(old(db.jobs), db.jobs, jobId, j, cap) && LeaseIsCurrent()
      ensures lost ==> Lost(j, db.jobs[jobId], cap)
      ensures !lost ==> old(db.now) + periods * Lease.Interval(leaseSeconds) <= renewedAt == db.now
    {
      var done: nat := 0;
      assert Holding(db.jobs, db.jobs, jobId, j, cap);
      while done < periods && !lost
        invariant done <= periods && db.Valid(cap) && Holding(old(db.jobs), db.jobs, jobId, j, cap)
        invariant LeaseIsCurrent() && (lost ==> Lost(j, db.jobs[jobId], cap))
        invariant !lost ==> old(db.now) + done * Lease.Interval(leaseSeconds) <= renewedAt == db.now
      {
        ghost var before := db.jobs;
        Period(cap, j);
        HoldingOn(old(db.jobs), before, db.jobs, jobId, j, cap);
        done := done + 1;
      }
    }

    method Period(cap: nat, ghost j: Job)
      requires db.Valid(cap) && jobId in db.jobs
      requires Owned(j, workerId) && InHand(j, db.jobs[jobId], cap) && LeaseIsCurrent()
      modifies this, db`jobs, db`now
      ensures db.Valid(cap) && Holding(old(db.jobs), db.jobs, jobId, j, cap) && LeaseIsCurrent()
      ensures lost ==> Lost(j, db.jobs[jobId], cap)
      ensures old(db.now) + Lease.Interval(leaseSeconds) <= db.now && (!lost ==> renewedAt == db.now)
    {
      Wait(Lease.Interval(leaseSeconds), cap, j);
      ghost var before := db.jobs;
      Beat(cap, j);
      HoldingOn(old(db.jobs), before, db.jobs, jobId, j, cap);
    }

    /** One renewal. If it finds no row then the job was reclaimed. */
    method Beat(cap: nat, ghost j: Job)
      requires db.Valid(cap) && jobId in db.jobs
      requires Owned(j, workerId) && InHand(j, db.jobs[jobId], cap)
      modifies this, db`jobs
      ensures db.Valid(cap) && Holding(old(db.jobs), db.jobs, jobId, j, cap) && LeaseIsCurrent()
      ensures lost <==> Lost(j, old(db.jobs)[jobId], cap)
      ensures lost ==> Lost(j, db.jobs[jobId], cap)
      ensures !lost ==> renewedAt == db.now
    {
      var found := db.HeartbeatJob(jobId, workerId, leaseSeconds, cap);
      lost := !found;
      renewedAt := if found then db.now else renewedAt;
      assert db.jobs - {jobId} == old(db.jobs) - {jobId};
      OneRowChanges(old(db.jobs), db.jobs, jobId, cap);
    }

    method Wait(atLeast: nat, cap: nat, ghost j: Job)
      requires db.Valid(cap) && jobId in db.jobs && InHand(j, db.jobs[jobId], cap)
      modifies db`jobs, db`now
      ensures db.Valid(cap) && Holding(old(db.jobs), db.jobs, jobId, j, cap)
      ensures old(LeaseIsCurrent()) ==> LeaseIsCurrent()
      ensures old(db.now) + atLeast <= db.now
      ensures Lost(j, old(db.jobs)[jobId], cap) ==> Lost(j, db.jobs[jobId], cap)
    {
      db.PassTime(atLeast, cap);
      StaysInHand(j, old(db.jobs)[jobId], db.jobs[jobId], cap);
      StaysLost(j, old(db.jobs)[jobId], db.jobs[jobId], cap);
    }
  }

  // ---------------------------------------------------------------- the worker

  lemma FailingSettles(
    before: Db, id: JobId, w: WorkerId, j: Job, kind: ErrorKind, detail: string, build: Build, cap: nat,
    now: Time)
    requires id in before.jobs && Owned(j, w) && InHand(j, before.jobs[id], cap)
    ensures var after := Fail(before, id, w, Retryable(kind), kind, Cluster.Truncated(detail), cap, now);
      && Reclaims(before.jobs, after.jobs, {id}, cap)
      && Settled(before, after.analyses, j, after.jobs[id], Raised(kind, detail), build, cap)
  {
    TruncatedIsCut(detail);
    if id in before.jobs && Owned(before.jobs[id], w) {
      var k := FailRow(before.jobs[id], Retryable(kind), kind, Cluster.Truncated(detail), cap, now);
      assert FailedAs(j, k, kind, detail, cap);
    }
  }

  lemma TruncatedIsCut(detail: string)
    ensures CutAt2000(Cluster.Truncated(detail), detail)
  {
  }

  lemma ReportingSettles(
    before: Db, id: JobId, w: WorkerId, j: Job, answer: Outcome, build: Build, cap: nat, aid: AnalysisId,
    now: Time)
    requires id in before.jobs && Owned(j, w) && InHand(j, before.jobs[id], cap) && answer.Returned?
    requires j.identity.replayId in before.replays && UpsertTarget(before.analyses, j.identity, aid)
    ensures var run := RunOf(answer, build, j.identity, before.replays[j.identity.replayId].log);
      var after := ReportSuccess(before, id, w, aid, j.identity, run, now);
      && Reclaims(before.jobs, after.jobs, {id}, cap)
      && Settled(before, after.analyses, j, after.jobs[id], answer, build, cap)
  {
    var run := RunOf(answer, build, j.identity, before.replays[j.identity.replayId].log);
    UpsertWrites(before, aid, j.identity, run, now);
    if id in before.jobs && Owned(before.jobs[id], w) {
      var after := ReportSuccess(before, id, w, aid, j.identity, run, now);
      assert SucceededWith(before, after.analyses, j, after.jobs[id], answer, build);
    }
  }

  class Worker {
    const db: Database
    const workerId: WorkerId
    const build: Build
    const leaseSeconds: nat
    const maxAttempts: nat
    /** What the engine answers for an attempt at a job, and how many renewals fall due meanwhile. */
    const engine: (JobId, nat) -> Outcome
    const periods: (JobId, nat) -> nat

    constructor (db: Database, workerId: WorkerId, build: Build, leaseSeconds: nat, maxAttempts: nat,
                 engine: (JobId, nat) -> Outcome, periods: (JobId, nat) -> nat)
      ensures this.db == db && this.workerId == workerId && this.build == build
      ensures this.leaseSeconds == leaseSeconds && this.maxAttempts == maxAttempts
      ensures this.engine == engine && this.periods == periods
    {
      this.db, this.workerId, this.build, this.leaseSeconds := db, workerId, build, leaseSeconds;
      this.maxAttempts, this.engine, this.periods := maxAttempts, engine, periods;
    }

    method ReportFailure(id: JobId, kind: ErrorKind, detail: string)
      requires db.Valid(maxAttempts)
      modifies db`jobs
      ensures db.Valid(maxAttempts)
      ensures db.View() ==
        Fail(old(db.View()), id, workerId, Retryable(kind), kind, Cluster.Truncated(detail), maxAttempts, db.now)
      ensures if id in old(db.jobs) && Owned(old(db.jobs)[id], workerId) then
                && OnlyRow(old(db.jobs), db.jobs, id)
                && FailedAs(old(db.jobs)[id], db.jobs[id], kind, detail, maxAttempts)
              else db.jobs == old(db.jobs)
    {
      TruncatedIsCut(detail);
      var found := db.FailJob(id, workerId, Retryable(kind), maxAttempts, kind, Cluster.Truncated(detail));
    }

    /** One transaction: when the second statement finds no row the first is rolled back. */
    method ReportSuccess(id: JobId, identity: Identity, run: AnalysisRun) returns (ghost aid: AnalysisId)
      requires db.Valid(maxAttempts)
      requires id in db.jobs && db.jobs[id].identity == identity && Provenance(identity, run.document, db.replays)
      modifies db`jobs, db`analyses
      ensures db.Valid(maxAttempts)
      ensures UpsertTarget(old(db.analyses), identity, aid)
      ensures db.View() == Statements.ReportSuccess(old(db.View()), id, workerId, aid, identity, run, db.now)
    {
      var committed := db.analyses;
      var analysisId := db.UpsertAnalysis(identity, run);
      aid := analysisId;
      var found := db.CompleteJob(id, workerId, analysisId);
      if !found {
        db.analyses := committed;
      }
      assert db.View() == Statements.ReportSuccess(old(db.View()), id, workerId, aid, identity, run, db.now);
      ReportSuccessKeeps(old(db.View()), id, workerId, aid, identity, run, db.now, maxAttempts);
    }

    /** From loading the replay to the report. `job` is the row the claim returned. */
    method Process(id: JobId, job: Job) returns (turn: Turn)
      requires db.Valid(maxAttempts)
      requires id in db.jobs && db.jobs[id] == job && Owned(job, workerId)
      requires job.leaseExpiresAt == Some(db.now + leaseSeconds * SECOND)
      requires BuildOf(job.identity) == build
      modifies db`jobs, db`analyses, db`now
      ensures db.Valid(maxAttempts) && id in db.jobs
      ensures var answer := if job.identity.replayId in db.replays then engine(id, job.attempts)
                            else Raised(ReplayNotFound, "no stored replay " + job.identity.replayId);
        && Settled(old(db.View()), db.analyses, job, db.jobs[id], answer, build, maxAttempts)
        && turn == if answer.Died? then Crashed(id) else Processed(id)
      ensures Reclaims(old(db.jobs), db.jobs, {id}, maxAttempts)
    {
      if job.identity.replayId !in db.replays {
        ReportMissing(id, job);
        return Processed(id);
      }
      turn := Handle(id, job);
    }

    /** The part of the work that has a replay to analyse. */
    method Handle(id: JobId, job: Job) returns (turn: Turn)
      requires db.Valid(maxAttempts)
      requires id in db.jobs && db.jobs[id] == job && Owned(job, workerId)
      requires job.leaseExpiresAt == Some(db.now + leaseSeconds * SECOND)
      requires BuildOf(job.identity) == build && job.identity.replayId in db.replays
      modifies db`jobs, db`analyses, db`now
      ensures db.Valid(maxAttempts) && id in db.jobs
      ensures Settled(old(db.View()), db.analyses, job, db.jobs[id], engine(id, job.attempts), build, maxAttempts)
      ensures turn == if engine(id, job.attempts).Died? then Crashed(id) else Processed(id)
      ensures Reclaims(old(db.jobs), db.jobs, {id}, maxAttempts)
    {
      var log := db.replays[job.identity.replayId].log;
      var answer := engine(id, job.attempts);
      var lost := Analyse(id, job);
      if answer.Died? {
        return Crashed(id);
      }
      ghost var analysed := db.View();
      Report(id, job, log, answer, lost);
      ReclaimsCompose(old(db.jobs), analysed.jobs, db.jobs, {id}, maxAttempts);
      SettledIgnoresJobs(analysed, old(db.View()), db.analyses, job, db.jobs[id], answer, build, maxAttempts);
      return Processed(id);
    }

    /** A result is discarded once the lease is known to be lost; a failure is reported in any case. */
    method Report(id: JobId, job: Job, log: string, answer: Outcome, lost: bool)
      requires db.Valid(maxAttempts) && !answer.Died?
      requires id in db.jobs && InHand(job, db.jobs[id], maxAttempts) && Owned(job, workerId)
      requires BuildOf(job.identity) == build
      requires job.identity.replayId in db.replays && log == db.replays[job.identity.replayId].log
      requires lost ==> Lost(job, db.jobs[id], maxAttempts)
      modifies db`jobs, db`analyses
      ensures db.Valid(maxAttempts) && id in db.jobs
      ensures Settled(old(db.View()), db.analyses, job, db.jobs[id], answer, build, maxAttempts)
      ensures Reclaims(old(db.jobs), db.jobs, {id}, maxAttempts)
    {
      match answer
      case Raised(kind, detail) =>
        FailingSettles(db.View(), id, workerId, job, kind, detail, build, maxAttempts, db.now);
        ReportFailure(id, kind, detail);
      case Returned(_, _, _, _, _) =>
        if !lost {
          ghost var aid := ReportSuccess(id, job.identity, RunOf(answer, build, job.identity, log));
          ReportingSettles(old(db.View()), id, workerId, job, answer, build, maxAttempts, aid, db.now);
        }
    }

    method ReportMissing(id: JobId, job: Job)
      requires db.Valid(maxAttempts)
      requires id in db.jobs && db.jobs[id] == job && Owned(job, workerId) && job.leaseExpiresAt.Some?
      requires job.identity.replayId !in db.replays
      modifies db`jobs
      ensures db.Valid(maxAttempts) && id in db.jobs
      ensures var answer := Raised(ReplayNotFound, "no stored replay " + job.identity.replayId);
        Settled(old(db.View()), db.analyses, job, db.jobs[id], answer, build, maxAttempts)
      ensures Reclaims(old(db.jobs), db.jobs, {id}, maxAttempts)
    {
      var detail := "no stored replay " + job.identity.replayId;
      FailingSettles(db.View(), id, workerId, job, ReplayNotFound, detail, build, maxAttempts, db.now);
      ReportFailure(id, ReplayNotFound, detail);
    }

    /** The engine's call under its heartbeat; some time after the last renewal it is over. */
    method Analyse(id: JobId, job: Job) returns (lost: bool)
      requires db.Valid(maxAttempts)
      requires id in db.jobs && db.jobs[id] == job && Owned(job, workerId)
      requires job.leaseExpiresAt == Some(db.now + leaseSeconds * SECOND)
      modifies db`jobs, db`now
      ensures db.Valid(maxAttempts) && Holding(old(db.jobs), db.jobs, id, job, maxAttempts)
      ensures lost ==> Lost(job, db.jobs[id], maxAttempts)
    {
      var hb := new Heartbeat(db, id, workerId, leaseSeconds, db.now);
      hb.Run(periods(id, job.attempts), maxAttempts, job);
      ghost var renewed := db.jobs;
      hb.Wait(0, maxAttempts, job);
      HoldingOn(old(db.jobs), renewed, db.jobs, id, job, maxAttempts);
      lost := hb.lost;
    }

    /** Claims and processes one job, if the build has one queued. */
    method RunOnce() returns (turn: Turn, ghost job: Job)
      requires db.Valid(maxAttempts)
      modifies db`jobs, db`analyses, db`now, db`claims
      ensures db.Valid(maxAttempts)
      ensures turn.Empty? ==>
        && (forall id | id in db.jobs :: !WaitsFor(db.jobs[id], build))
        && db.View() == old(db.View()) && db.claims == old(db.claims) && db.now == old(db.now)
        && forall id :: !Claimable(db.jobs, build, id)
      ensures !turn.Crashed? ==> NoneStarted(old(db.jobs), db.jobs)
      ensures !turn.Empty? ==>
        && FirstInLine(old(db.jobs), build, turn.id) && db.claims == old(db.claims) + 1
        && RowClaimed(old(db.jobs)[turn.id], job, workerId, old(db.now), leaseSeconds)
        && var answer := if job.identity.replayId in db.replays then engine(turn.id, job.attempts)
                         else Raised(ReplayNotFound, "no stored replay " + job.identity.replayId);
           && Turned(old(db.View()), db.View(), turn.id, job, answer, build, maxAttempts)
           && (turn.Crashed? <==> answer.Died?)
    {
      var claimed := db.ClaimJob(workerId, leaseSeconds, build, maxAttempts);
      if claimed.None? {
        turn, job := Empty, *;
        return;
      }
      var id := claimed.value;
      var row := db.jobs[id];
      job := row;
      ghost var taken, at := db.View(), db.now;
      turn := Process(id, row);
      ghost var answer := if row.identity.replayId in db.replays then engine(id, row.attempts)
                          else Raised(ReplayNotFound, "no stored replay " + row.identity.replayId);
      TurnSettles(old(db.View()), taken, db.View(), id, workerId, at, leaseSeconds, answer, build, maxAttempts);
    }

    ghost function AttemptsLeft(): nat
      reads this, db
    {
      Left(db.jobs, maxAttempts, build, None)
    }

    /** One round of the drain loop. */
    method Round() returns (turn: Turn)
      requires db.Valid(maxAttempts)
      modifies db`jobs, db`analyses, db`now, db`claims
      ensures db.Valid(maxAttempts)
      ensures Drained(old(db.jobs), db.jobs, maxAttempts, build)
      ensures turn.Empty? ==> AttemptsLeft() <= old(AttemptsLeft()) && db.claims == old(db.claims)
      ensures turn.Empty? ==> NothingToDo(db.jobs, build, db.now)
      ensures !turn.Empty? ==> AttemptsLeft() < old(AttemptsLeft()) && db.claims == old(db.claims) + 1
      ensures !turn.Crashed? ==> NoneStarted(old(db.jobs), db.jobs)
      ensures Served(old(db.jobs), old(db.now), db.jobs, build, maxAttempts)
    {
      db.ReclaimExpired(maxAttempts);
      ReclaimServes(old(db.jobs), db.jobs, build, maxAttempts, db.now);
      ghost var mid := db.jobs;
      ghost var job;
      turn, job := RunOnce();
      if turn.Empty? {
        ReclaimsSpendNothing(old(db.jobs), db.jobs, maxAttempts, build);
      } else {
        assert RowsOk(mid, maxAttempts);
        RoundSpendsOne(old(db.jobs), mid, db.jobs, turn.id, maxAttempts, build);
        TurnServes(mid, db.jobs, turn.id, build, maxAttempts, old(db.now));
        ServedOn(old(db.jobs), old(db.now), mid, old(db.now), db.jobs, build, maxAttempts);
      }
    }

    /**
     Drains the build. Returns the number of jobs processed, each by a claim of its own and each
     paid for out of the attempts the build had left. Afterwards none of the build's jobs is
     queued; one that is still running was running from the start, under a lease that holds. Jobs
     that waited, or had been abandoned with attempts left, have each been attempted.
     Jobs of other builds are as they were, or reclaimed.
    */
    method RunUntilEmpty() returns (processed: nat, crashed: bool)
      requires db.Valid(maxAttempts)
      modifies db`jobs, db`analyses, db`now, db`claims
      ensures db.Valid(maxAttempts)
      ensures Drained(old(db.jobs), db.jobs, maxAttempts, build)
      ensures db.claims == old(db.claims) + processed + if crashed then 1 else 0
      ensures db.claims - old(db.claims) + AttemptsLeft() <= old(AttemptsLeft())
      ensures !crashed ==> NothingToDo(db.jobs, build, db.now)
      ensures !crashed ==> NoneStarted(old(db.jobs), db.jobs)
      ensures !crashed ==> AllAttempted(old(db.jobs), old(db.now), db.jobs, build, maxAttempts)
    {
      processed, crashed := 0, false;
      while true
        invariant db.Valid(maxAttempts)
        invariant Drained(old(db.jobs), db.jobs, maxAttempts, build) && NoneStarted(old(db.jobs), db.jobs)
        invariant db.claims == old(db.claims) + processed
        invariant processed + AttemptsLeft() <= old(AttemptsLeft()) && !crashed
        invariant (db.jobs == old(db.jobs) && db.now == old(db.now))
                  || Served(old(db.jobs), old(db.now), db.jobs, build, maxAttempts)
        decreases AttemptsLeft()
      {
        ghost var before, at := db.jobs, db.now;
        var turn := Round();
        DrainedOn(old(db.jobs), before, db.jobs, maxAttempts, build);
        if turn.Crashed? {
          return processed, true;
        }
        NoneStartedOn(old(db.jobs), before, db.jobs);
        if before != old(db.jobs) || at != old(db.now) {
          ServedOn(old(db.jobs), old(db.now), before, at, db.jobs, build, maxAttempts);
        }
        if turn.Empty? {
          NothingLeftIsAllAttempted(old(db.jobs), old(db.now), db.jobs, build, maxAttempts, db.now);
          return processed, false;
        }
        processed := processed + 1;
      }
    }
  }
}
