/** Every step keeps the invariant and is a `DbStep`: one lemma per family of events. */
module ClusterInvariant {
  import opened Wrappers
  import opened Contract
  import opened Tables
  import opened Statements
  import opened Cluster

  // ---------------------------------------------------------------- bystanders

  /** No job became `w`'s in this change. */
  predicate NoNewOwner(before: map<JobId, Job>, after: map<JobId, Job>, w: WorkerId) {
    forall id | id in before && id in after && Owned(after[id], w) :: Owned(before[id], w)
  }

  /** No job became anyone's. */
  predicate NobodyGains(before: map<JobId, Job>, after: map<JobId, Job>) {
    forall id | id in before && id in after && after[id].status == Running ::
      before[id].status == Running && after[id].claimedBy == before[id].claimedBy
  }

  lemma StoppedJobHasNoOwner(jobs: map<JobId, Job>, id: JobId, j: Job)
    requires j.status != Running
    ensures NobodyGains(jobs, jobs[id := j])
  {
  }

  lemma WorkStays(before: map<JobId, Job>, after: map<JobId, Job>, w: WorkerId, build: Build, k: Work)
    requires WorkOk(before, w, build, k) && JobsStep(before, after) && NoNewOwner(before, after, w)
    ensures WorkOk(after, w, build, k)
    ensures !Owned(before[k.job], w) ==> !Owned(after[k.job], w)
  {
    assert RowStep(before[k.job], after[k.job]);
  }

  lemma TargetStays(
    before: map<AnalysisId, Analysis>, after: map<AnalysisId, Analysis>, identity: Identity, aid: AnalysisId)
    requires UpsertTarget(before, identity, aid) && AnalysesStep(before, after)
    requires forall a | a in after && a !in before :: a != aid && after[a].identity != identity
    ensures UpsertTarget(after, identity, aid)
  {
    forall a | a in before
      ensures SameRow(before[a], after[a])
    {
    }
  }

  /** A process not involved in a step keeps what is known of it. */
  lemma BystanderOk(before: Db, after: Db, w: WorkerId, p: Process)
    requires PhaseOk(before, w, p) && DbStep(before, after)
    requires NoNewOwner(before.jobs, after.jobs, w)
    requires p.phase.Staged? ==>
      forall a | a in after.analyses && a !in before.analyses ::
        a != p.phase.aid && after.analyses[a].identity != p.phase.work.identity
    ensures PhaseOk(after, w, p)
  {
    if !p.phase.Idle? {
      WorkStays(before.jobs, after.jobs, w, p.build, p.phase.work);
    }
    if p.phase.Staged? {
      TargetStays(before.analyses, after.analyses, p.phase.work.identity, p.phase.aid);
    }
  }

  /** A change of job rows in which nobody but `claimer` gains a job leaves the other processes alone. */
  lemma BystandersOk(before: Db, after: Db, procs: map<WorkerId, Process>, claimer: WorkerId)
    requires ProcsOk(before, procs) && DbStep(before, after) && after.analyses == before.analyses
    requires forall w | w != claimer :: NoNewOwner(before.jobs, after.jobs, w)
    ensures forall w | w in procs && w != claimer :: PhaseOk(after, w, procs[w])
  {
    forall w | w in procs && w != claimer
      ensures PhaseOk(after, w, procs[w])
    {
      BystanderOk(before, after, w, procs[w]);
    }
  }

  lemma ReplaysBehindJobsStay(before: Db, after: Db)
    requires JobsHaveReplays(before.jobs, before.replays) && DbStep(before, after)
    requires forall id | id in after.jobs && id !in before.jobs :: after.jobs[id].identity.replayId in after.replays
    ensures JobsHaveReplays(after.jobs, after.replays)
  {
    forall id | id in after.jobs
      ensures after.jobs[id].identity.replayId in after.replays
    {
      if id in before.jobs {
        assert RowStep(before.jobs[id], after.jobs[id]);
      }
    }
  }

  /** A statement that moves no process and gives no job to anyone. */
  lemma StatementKeeps(s: State, db: Db)
    requires Inv(s) && DbOk(db, s.cap) && DbStep(s.db, db)
    requires db.analyses == s.db.analyses
    requires NobodyGains(s.db.jobs, db.jobs)
    requires forall id | id in db.jobs && id !in s.db.jobs :: db.jobs[id].identity.replayId in db.replays
    ensures Inv(s.(db := db))
  {
    forall w | w in s.procs
      ensures PhaseOk(db, w, s.procs[w])
    {
      BystanderOk(s.db, db, w, s.procs[w]);
    }
    ReplaysBehindJobsStay(s.db, db);
  }

  /** A process changing phase, with nothing staged by the change. */
  lemma EnterKeeps(s: State, w: WorkerId, phase: Phase)
    requires Inv(s) && w in s.procs
    requires PhaseOk(s.db, w, s.procs[w].(phase := phase))
    requires phase.Staged? ==> IndexFree(s.procs, w, phase.work.identity, phase.aid)
    ensures Inv(Enter(s, w, phase))
  {
  }

  // ---------------------------------------------------------------- worker events

  lemma ClaimStep(s: State, w: WorkerId, id: JobId)
    requires Inv(s) && Enabled(s, ClaimOne(w, id))
    ensures Inv(Apply(s, ClaimOne(w, id))) && DbStep(s.db, Apply(s, ClaimOne(w, id)).db)
  {
    var db := Claim(s.db, id, w, s.now, s.procs[w].leaseSeconds);
    ClaimKeeps(s.db, id, w, s.now, s.procs[w].leaseSeconds, s.cap);
    BystandersOk(s.db, db, s.procs, w);
    ReplaysBehindJobsStay(s.db, db);
    var t := s.(db := db);
    assert PhaseOk(db, w, s.procs[w]);
    assert Inv(t);
    EnterKeeps(t, w, Claimed(Work(id, db.jobs[id].identity, db.jobs[id].attempts)));
  }

  lemma BeatStep(s: State, w: WorkerId)
    requires Inv(s) && Enabled(s, Beat(w))
    ensures Inv(Apply(s, Beat(w))) && DbStep(s.db, Apply(s, Beat(w)).db)
  {
    var p := s.procs[w].phase;
    assert PhaseOk(s.db, w, s.procs[w]);
    if Owned(s.db.jobs[p.work.job], w) {
      HeartbeatKeeps(s.db, p.work.job, w, s.now, s.procs[w].leaseSeconds, s.cap);
      StatementKeeps(s, Heartbeat(s.db, p.work.job, w, s.now, s.procs[w].leaseSeconds));
    } else {
      SameDb(s.db);
      EnterKeeps(s, w, p.(lost := true));
    }
  }

  lemma StrayBeatStep(s: State, w: WorkerId, id: JobId, leaseSeconds: nat)
    requires Inv(s)
    ensures var e := StrayBeat(w, id, leaseSeconds);
      Inv(Apply(s, e)) && DbStep(s.db, Apply(s, e).db)
  {
    HeartbeatKeeps(s.db, id, w, s.now, leaseSeconds, s.cap);
    StatementKeeps(s, Heartbeat(s.db, id, w, s.now, leaseSeconds));
  }

  lemma ReportFailureStep(s: State, w: WorkerId)
    requires Inv(s) && Enabled(s, ReportFailure(w))
    ensures Inv(Apply(s, ReportFailure(w))) && DbStep(s.db, Apply(s, ReportFailure(w)).db)
  {
    var p := s.procs[w].phase;
    assert PhaseOk(s.db, w, s.procs[w]);
    var db := Fail(s.db, p.work.job, w, Retryable(p.kind), p.kind, Truncated(p.detail), s.cap, s.now);
    FailKeeps(s.db, p.work.job, w, Retryable(p.kind), p.kind, Truncated(p.detail), s.cap, s.now);
    if Owned(s.db.jobs[p.work.job], w) {
      StoppedJobHasNoOwner(s.db.jobs, p.work.job, db.jobs[p.work.job]);
    }
    StatementKeeps(s, db);
    EnterKeeps(s.(db := db), w, Idle);
  }

  lemma StageStep(s: State, w: WorkerId, aid: AnalysisId)
    requires Inv(s) && Enabled(s, StageUpsert(w, aid))
    ensures Inv(Apply(s, StageUpsert(w, aid))) && DbStep(s.db, Apply(s, StageUpsert(w, aid)).db)
  {
    var p := s.procs[w].phase;
    assert PhaseOk(s.db, w, s.procs[w]);
    SameDb(s.db);
    EnterKeeps(s, w, Staged(p.work, p.run, aid, s.now));
  }

  /** What another process has staged is for another identity and another row, so a commit does not disturb it. */
  lemma OthersKeepGoing(s: State, w: WorkerId, db: Db, aid: AnalysisId, identity: Identity)
    requires Inv(s) && DbStep(s.db, db)
    requires w in s.procs && s.procs[w].phase.Staged?
    requires s.procs[w].phase.aid == aid && s.procs[w].phase.work.identity == identity
    requires aid in db.analyses && db.analyses[aid].identity == identity
    requires db.analyses.Keys == s.db.analyses.Keys + {aid}
    requires NobodyGains(s.db.jobs, db.jobs)
    ensures forall v | v in s.procs && v != w :: PhaseOk(db, v, s.procs[v])
  {
    forall v | v in s.procs && v != w
      ensures PhaseOk(db, v, s.procs[v])
    {
      BystanderOk(s.db, db, v, s.procs[v]);
    }
  }

  lemma CommitKeeps(s: State, w: WorkerId, db: Db)
    requires Inv(s) && w in s.procs && DbOk(db, s.cap) && JobsHaveReplays(db.jobs, db.replays)
    requires db.replays == s.db.replays
    requires forall v | v in s.procs && v != w :: PhaseOk(db, v, s.procs[v])
    ensures Inv(Enter(s.(db := db), w, Idle))
  {
  }

  /** What an accepted report leaves in the tables. */
  lemma AcceptedTables(s: State, w: WorkerId, db: Db)
    requires Inv(s) && w in s.procs && s.procs[w].phase.Staged?
    requires PhaseOk(s.db, w, s.procs[w]) && Owned(s.db.jobs[s.procs[w].phase.work.job], w)
    requires var p := s.procs[w].phase;
      db == ReportSuccess(s.db, p.work.job, w, p.aid, p.work.identity, p.run, p.began)
    ensures DbOk(db, s.cap) && DbStep(s.db, db) && db.replays == s.db.replays
    ensures NobodyGains(s.db.jobs, db.jobs) && JobsHaveReplays(db.jobs, db.replays)
    ensures var p := s.procs[w].phase;
      && p.aid in db.analyses && db.analyses[p.aid].identity == p.work.identity
      && db.analyses.Keys == s.db.analyses.Keys + {p.aid}
  {
    var p := s.procs[w].phase;
    ReportSuccessKeeps(s.db, p.work.job, w, p.aid, p.work.identity, p.run, p.began, s.cap);
    StoppedJobHasNoOwner(s.db.jobs, p.work.job, CompleteRow(s.db.jobs[p.work.job], p.aid, p.began));
    ReplaysBehindJobsStay(s.db, db);
  }

  lemma AcceptedReport(s: State, w: WorkerId)
    requires Inv(s) && Enabled(s, CloseReport(w))
    requires PhaseOk(s.db, w, s.procs[w]) && Owned(s.db.jobs[s.procs[w].phase.work.job], w)
    ensures Inv(Apply(s, CloseReport(w))) && DbStep(s.db, Apply(s, CloseReport(w)).db)
  {
    var p := s.procs[w].phase;
    var k := p.work;
    var db := ReportSuccess(s.db, k.job, w, p.aid, k.identity, p.run, p.began);
    assert PhaseOk(s.db, w, s.procs[w]);
    AcceptedTables(s, w, db);
    OthersKeepGoing(s, w, db, p.aid, k.identity);
    CommitKeeps(s, w, db);
  }

  lemma CloseReportStep(s: State, w: WorkerId)
    requires Inv(s) && Enabled(s, CloseReport(w))
    ensures Inv(Apply(s, CloseReport(w))) && DbStep(s.db, Apply(s, CloseReport(w)).db)
  {
    var job := s.procs[w].phase.work.job;
    assert PhaseOk(s.db, w, s.procs[w]);
    if Owned(s.db.jobs[job], w) {
      AcceptedReport(s, w);
    } else {
      SameDb(s.db);
      EnterKeeps(s, w, Idle);
    }
  }

  lemma ReclaimStep(s: State, w: WorkerId)
    requires Inv(s) && Enabled(s, ReclaimExpired(w))
    ensures Inv(Apply(s, ReclaimExpired(w))) && DbStep(s.db, Apply(s, ReclaimExpired(w)).db)
  {
    ReclaimKeeps(s.db, s.cap, s.now);
    StatementKeeps(s, Reclaim(s.db, s.cap, s.now));
  }

  lemma SameDb(db: Db)
    ensures DbStep(db, db)
  {
  }

  /** Steps of one process that touch no table. */
  lemma PrivateStep(s: State, e: Event)
    requires Inv(s) && Enabled(s, e)
    requires e.Start? || e.Crash? || e.LoadReplay? || e.EngineFails? || e.EngineReturns? || e.Tick?
    ensures Inv(Apply(s, e)) && DbStep(s.db, Apply(s, e).db)
  {
    SameDb(s.db);
    if e.LoadReplay? || e.EngineFails? || e.EngineReturns? {
      assert PhaseOk(s.db, e.w, s.procs[e.w]);
      EnterKeeps(s, e.w, Apply(s, e).procs[e.w].phase);
    }
  }

  // ---------------------------------------------------------------- submission events

  lemma AdvanceKeeps(s: State, q: nat, stage: Stage)
    requires Inv(s) && q in s.subs
    requires stage.Ready? ==> s.subs[q].identity.replayId in s.db.replays
    ensures Inv(Advance(s, q, stage))
  {
  }

  lemma StoreReplayStep(s: State, q: nat)
    requires Inv(s) && Enabled(s, StoreReplay(q))
    ensures Inv(Apply(s, StoreReplay(q))) && DbStep(s.db, Apply(s, StoreReplay(q)).db)
  {
    var sub := s.subs[q];
    UpsertReplayKeeps(s.db, sub.identity.replayId, sub.stage.replay, s.cap);
    var db := UpsertReplay(s.db, sub.identity.replayId, sub.stage.replay);
    StatementKeeps(s, db);
    AdvanceKeeps(s.(db := db), q, Ready);
  }

  lemma EnqueueStep(s: State, q: nat, newId: JobId, turns: nat, searchMs: nat)
    requires Inv(s) && Enabled(s, EnqueueJob(q, newId, turns, searchMs))
    ensures var e := EnqueueJob(q, newId, turns, searchMs);
      Inv(Apply(s, e)) && DbStep(s.db, Apply(s, e).db)
  {
    var sub := s.subs[q];
    EnqueueKeeps(s.db, newId, sub.identity, sub.profile, turns, searchMs, s.now, s.cap);
    var db := Enqueue(s.db, newId, sub.identity, sub.profile, turns, searchMs, s.now);
    if !HasLiveJob(s.db.jobs, sub.identity) {
      StoppedJobHasNoOwner(s.db.jobs, newId, db.jobs[newId]);
    }
    StatementKeeps(s, db);
    AdvanceKeeps(s.(db := db), q, Answered);
  }

  lemma SubmissionStep(s: State, e: Event)
    requires Inv(s) && Enabled(s, e)
    requires e.Arrive? || e.CheckCache? || e.Admit? || e.Refuse? || e.LookUpReplay? || e.FetchReplay? || e.FetchFails?
    ensures Inv(Apply(s, e)) && DbStep(s.db, Apply(s, e).db)
  {
    SameDb(s.db);
    if !e.Arrive? {
      AdvanceKeeps(s, e.q, Apply(s, e).subs[e.q].stage);
    }
  }

  // ---------------------------------------------------------------- all of them

  /** The invariant holds initially, and whatever happens next it still holds. */
  lemma StepKeepsInv(s: State, e: Event)
    requires Inv(s) && Enabled(s, e)
    ensures Inv(Apply(s, e)) && DbStep(s.db, Apply(s, e).db)
  {
    match e
    case ClaimOne(w, id) => ClaimStep(s, w, id);
    case Beat(w) => BeatStep(s, w);
    case StrayBeat(w, id, leaseSeconds) => StrayBeatStep(s, w, id, leaseSeconds);
    case ReportFailure(w) => ReportFailureStep(s, w);
    case StageUpsert(w, aid) => StageStep(s, w, aid);
    case CloseReport(w) => CloseReportStep(s, w);
    case ReclaimExpired(w) => ReclaimStep(s, w);
    case StoreReplay(q) => StoreReplayStep(s, q);
    case EnqueueJob(q, newId, turns, searchMs) => EnqueueStep(s, q, newId, turns, searchMs);
    case Start(_, _, _) => PrivateStep(s, e);
    case Crash(_) => PrivateStep(s, e);
    case LoadReplay(_) => PrivateStep(s, e);
    case EngineFails(_, _, _) => PrivateStep(s, e);
    case EngineReturns(_, _, _, _, _, _) => PrivateStep(s, e);
    case Tick(_) => PrivateStep(s, e);
    case _ => SubmissionStep(s, e);
  }

  lemma InitIsOk(s: State)
    requires Init(s)
    ensures Inv(s)
  {
  }
}
