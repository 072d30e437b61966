/**
 The queue as a protocol: any number of worker processes and submissions taking steps in any
 order over the shared tables.

 Every statement that autocommits is one step. The success transaction is two steps, staging
 the upsert and closing the transaction; a submission is one step per statement. A claim may
 take any queued row of the worker's build: which one SKIP LOCKED lets it take is the subject
 of module SkipLocked. Processes may crash between any two steps.
*/
module Cluster {
  import opened Wrappers
  import opened Contract
  import opened Tables
  import opened Statements

  /** The row a claim returned, as the process remembers it; `attempt` is returned but never sent back. */
  datatype Work = Work(job: JobId, identity: Identity, attempt: nat)

  datatype Phase =
    | Idle
    | Claimed(work: Work)
    | Analysing(work: Work, log: string, lost: bool)
    | Failing(work: Work, kind: ErrorKind, detail: string)
    | Finished(work: Work, run: AnalysisRun)
    | Staged(work: Work, run: AnalysisRun, aid: AnalysisId, began: Time)

  /** One process: one job in flight at most. */
  datatype Process = Process(build: Build, leaseSeconds: nat, phase: Phase)

  datatype Stage = Arrived | Missed | Admitted | Unstored | Fetched(replay: Replay) | Ready | Answered

  datatype Submission = Submission(identity: Identity, profile: string, stage: Stage)

  /** `procs` holds the live processes by worker id, so live ids are distinct by construction. */
  datatype State = State(
    cap: nat,
    now: Time,
    db: Db,
    procs: map<WorkerId, Process>,
    subs: map<nat, Submission>)

  datatype Event =
    | Start(w: WorkerId, build: Build, leaseSeconds: nat)
    | Crash(w: WorkerId)
    | ClaimOne(w: WorkerId, id: JobId)
    | LoadReplay(w: WorkerId)
    | Beat(w: WorkerId)
    | StrayBeat(w: WorkerId, id: JobId, leaseSeconds: nat)
    | EngineFails(w: WorkerId, kind: ErrorKind, detail: string)
    | EngineReturns(w: WorkerId, text: string, totalTurns: nat, gradableTurns: nat, wallMs: nat, degraded: bool)
    | ReportFailure(w: WorkerId)
    | StageUpsert(w: WorkerId, aid: AnalysisId)
    | CloseReport(w: WorkerId)
    | ReclaimExpired(w: WorkerId)
    | Tick(later: Time)
    | Arrive(q: nat, identity: Identity, profile: string)
    | CheckCache(q: nat)
    | Admit(q: nat)
    | Refuse(q: nat)
    | LookUpReplay(q: nat)
    | FetchReplay(q: nat, replay: Replay)
    | FetchFails(q: nat)
    | StoreReplay(q: nat)
    | EnqueueJob(q: nat, newId: JobId, turns: nat, searchMs: nat)

  // ---------------------------------------------------------------- steps

  function PhaseOf(s: State, w: WorkerId): Phase {
    if w in s.procs then s.procs[w].phase else Idle
  }

  /** The phase's remembered claim, if it has one. */
  function WorkOf(p: Phase): Option<Work> {
    if p.Idle? then None else Some(p.work)
  }

  predicate Cached(db: Db, identity: Identity) {
    exists a :: a in db.analyses && db.analyses[a].identity == identity
  }

  /** Nobody else has an uncommitted row for this identity or under this id. */
  predicate IndexFree(procs: map<WorkerId, Process>, w: WorkerId, identity: Identity, aid: AnalysisId) {
    forall v | v in procs && v != w && procs[v].phase.Staged? ::
      procs[v].phase.work.identity != identity && procs[v].phase.aid != aid
  }

  predicate Enabled(s: State, e: Event) {
    match e
    case Start(w, _, _) => w !in s.procs
    case Crash(w) => w in s.procs
    case ClaimOne(w, id) => w in s.procs && s.procs[w].phase.Idle? && Claimable(s.db.jobs, s.procs[w].build, id)
    case LoadReplay(w) => PhaseOf(s, w).Claimed?
    case Beat(w) => PhaseOf(s, w).Analysing?
    case StrayBeat(_, _, _) => true
    case EngineFails(w, _, _) => PhaseOf(s, w).Analysing?
    case EngineReturns(w, _, _, _, _, _) => PhaseOf(s, w).Analysing?
    case ReportFailure(w) => PhaseOf(s, w).Failing?
    case StageUpsert(w, aid) =>
      PhaseOf(s, w).Finished?
      && UpsertTarget(s.db.analyses, PhaseOf(s, w).work.identity, aid)
      && IndexFree(s.procs, w, PhaseOf(s, w).work.identity, aid)
    case CloseReport(w) => PhaseOf(s, w).Staged?
    case ReclaimExpired(w) => w in s.procs && s.procs[w].phase.Idle?
    case Tick(later) => s.now <= later
    case Arrive(q, _, _) => q !in s.subs
    case CheckCache(q) => q in s.subs && s.subs[q].stage.Arrived?
    case Admit(q) => q in s.subs && s.subs[q].stage.Missed?
    case Refuse(q) => q in s.subs && s.subs[q].stage.Missed?
    case LookUpReplay(q) => q in s.subs && s.subs[q].stage.Admitted?
    case FetchReplay(q, _) => q in s.subs && s.subs[q].stage.Unstored?
    case FetchFails(q) => q in s.subs && s.subs[q].stage.Unstored?
    case StoreReplay(q) => q in s.subs && s.subs[q].stage.Fetched?
    case EnqueueJob(q, newId, _, _) => q in s.subs && s.subs[q].stage.Ready? && newId !in s.db.jobs
  }

  function Enter(s: State, w: WorkerId, phase: Phase): State
    requires w in s.procs
  {
    s.(procs := s.procs[w := s.procs[w].(phase := phase)])
  }

  function Advance(s: State, q: nat, stage: Stage): State
    requires q in s.subs
  {
    s.(subs := s.subs[q := s.subs[q].(stage := stage)])
  }

  function Truncated(detail: string): string {
    if |detail| <= 2000 then detail else detail[..2000]
  }

  function Run(p: Process, e: Event): AnalysisRun
    requires p.phase.Analysing? && e.EngineReturns?
  {
    AnalysisRun(
      Document(e.text, e.totalTurns, e.gradableTurns, p.build, p.phase.work.identity, p.phase.log),
      e.wallMs, e.degraded)
  }

  function Apply(s: State, e: Event): State
    requires Enabled(s, e)
  {
    match e
    case Start(w, build, leaseSeconds) => s.(procs := s.procs[w := Process(build, leaseSeconds, Idle)])
    case Crash(w) => s.(procs := s.procs - {w})
    case ClaimOne(w, id) =>
      var db := Claim(s.db, id, w, s.now, s.procs[w].leaseSeconds);
      Enter(s.(db := db), w, Claimed(Work(id, db.jobs[id].identity, db.jobs[id].attempts)))
    case LoadReplay(w) =>
      var work := s.procs[w].phase.work;
      if work.identity.replayId in s.db.replays
      then Enter(s, w, Analysing(work, s.db.replays[work.identity.replayId].log, false))
      else Enter(s, w, Failing(work, ReplayNotFound, "no stored replay " + work.identity.replayId))
    case Beat(w) =>
      var p := s.procs[w].phase;
      if p.work.job in s.db.jobs && Owned(s.db.jobs[p.work.job], w)
      then s.(db := Heartbeat(s.db, p.work.job, w, s.now, s.procs[w].leaseSeconds))
      else Enter(s, w, p.(lost := true))
    case StrayBeat(w, id, leaseSeconds) => s.(db := Heartbeat(s.db, id, w, s.now, leaseSeconds))
    case EngineFails(w, kind, detail) => Enter(s, w, Failing(s.procs[w].phase.work, kind, detail))
    case EngineReturns(w, _, _, _, _, _) =>
      var p := s.procs[w];
      Enter(s, w, if p.phase.lost then Idle else Finished(p.phase.work, Run(p, e)))
    case ReportFailure(w) =>
      var p := s.procs[w].phase;
      var db := Fail(s.db, p.work.job, w, Retryable(p.kind), p.kind, Truncated(p.detail), s.cap, s.now);
      Enter(s.(db := db), w, Idle)
    case StageUpsert(w, aid) =>
      var p := s.procs[w].phase;
      Enter(s, w, Staged(p.work, p.run, aid, s.now))
    case CloseReport(w) =>
      var p := s.procs[w].phase;
      Enter(s.(db := ReportSuccess(s.db, p.work.job, w, p.aid, p.work.identity, p.run, p.began)), w, Idle)
    case ReclaimExpired(_) => s.(db := Reclaim(s.db, s.cap, s.now))
    case Tick(later) => s.(now := later)
    case Arrive(q, identity, profile) => s.(subs := s.subs[q := Submission(identity, profile, Arrived)])
    case CheckCache(q) => Advance(s, q, if Cached(s.db, s.subs[q].identity) then Answered else Missed)
    case Admit(q) => Advance(s, q, Admitted)
    case Refuse(q) => Advance(s, q, Answered)
    case LookUpReplay(q) => Advance(s, q, if s.subs[q].identity.replayId in s.db.replays then Ready else Unstored)
    case FetchReplay(q, replay) => Advance(s, q, Fetched(replay))
    case FetchFails(q) => Advance(s, q, Answered)
    case StoreReplay(q) =>
      var sub := s.subs[q];
      Advance(s.(db := UpsertReplay(s.db, sub.identity.replayId, sub.stage.replay)), q, Ready)
    case EnqueueJob(q, newId, turns, searchMs) =>
      var sub := s.subs[q];
      Advance(s.(db := Enqueue(s.db, newId, sub.identity, sub.profile, turns, searchMs, s.now)), q, Answered)
  }

  predicate Init(s: State) {
    1 <= s.cap && s.db == EMPTY && s.procs == map[] && s.subs == map[]
  }

  // ---------------------------------------------------------------- the invariant

  /** A process's claim is the latest one of its job for as long as the job is the process's own. */
  predicate WorkOk(jobs: map<JobId, Job>, w: WorkerId, build: Build, k: Work) {
    && k.job in jobs
    && jobs[k.job].identity == k.identity
    && BuildOf(k.identity) == build
    && 1 <= k.attempt <= jobs[k.job].attempts
    && (Owned(jobs[k.job], w) ==> jobs[k.job].attempts == k.attempt)
  }

  predicate LogOk(identity: Identity, log: string, replays: map<string, Replay>) {
    identity.replayId in replays && replays[identity.replayId].log == log
  }

  predicate PhaseOk(db: Db, w: WorkerId, p: Process) {
    && (!p.phase.Idle? ==> WorkOk(db.jobs, w, p.build, p.phase.work))
    && (p.phase.Analysing? ==> LogOk(p.phase.work.identity, p.phase.log, db.replays))
    && (p.phase.Analysing? && p.phase.lost ==> !Owned(db.jobs[p.phase.work.job], w))
    && (p.phase.Finished? || p.phase.Staged? ==> Provenance(p.phase.work.identity, p.phase.run.document, db.replays))
    && (p.phase.Staged? ==> UpsertTarget(db.analyses, p.phase.work.identity, p.phase.aid))
  }

  predicate StagesApart(procs: map<WorkerId, Process>) {
    forall v, w | v in procs && w in procs && v != w && procs[v].phase.Staged? && procs[w].phase.Staged? ::
      procs[v].phase.work.identity != procs[w].phase.work.identity && procs[v].phase.aid != procs[w].phase.aid
  }

  /** A stored replay behind every job. */
  predicate JobsHaveReplays(jobs: map<JobId, Job>, replays: map<string, Replay>) {
    forall id | id in jobs :: jobs[id].identity.replayId in replays
  }

  predicate SubsOk(subs: map<nat, Submission>, replays: map<string, Replay>) {
    forall q | q in subs && subs[q].stage.Ready? :: subs[q].identity.replayId in replays
  }

  predicate ProcsOk(db: Db, procs: map<WorkerId, Process>) {
    forall w | w in procs :: PhaseOk(db, w, procs[w])
  }

  predicate Inv(s: State) {
    && 1 <= s.cap
    && DbOk(s.db, s.cap)
    && JobsHaveReplays(s.db.jobs, s.db.replays)
    && ProcsOk(s.db, s.procs)
    && StagesApart(s.procs)
    && SubsOk(s.subs, s.db.replays)
  }
}
