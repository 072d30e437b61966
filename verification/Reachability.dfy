/** Building runs one enabled step at a time, and the stretches that a submission and a worker take. */
module Reachability {
  import opened Wrappers
  import opened Contract
  import opened Tables
  import opened Statements
  import opened Cluster
  import opened Runs

  ghost predicate EndsIn(ss: seq<State>, es: seq<Event>, s: State) {
    IsRun(ss, es) && ss[|es|] == s
  }

  ghost predicate Reachable(s: State) {
    exists ss, es :: EndsIn(ss, es, s)
  }

  ghost predicate Steps(states: seq<State>, events: seq<Event>) {
    && |states| == |events| + 1
    && forall i {:trigger events[i]} :: 0 <= i < |events| ==> Step(states[i], events[i], states[i + 1])
  }

  /** The states and events from `c` to the end are these. */
  ghost predicate Follows(ss: seq<State>, es: seq<Event>, c: nat, states: seq<State>, events: seq<Event>) {
    && |states| == |events| + 1 && |es| == c + |events| && |ss| == |es| + 1
    && (forall i :: 0 <= i <= |events| ==> ss[c + i] == states[i])
    && (forall i :: 0 <= i < |events| ==> es[c + i] == events[i])
  }

  /** A run followed by steps from its last state. */
  lemma Append(ss: seq<State>, es: seq<Event>, states: seq<State>, events: seq<Event>)
    returns (allStates: seq<State>, allEvents: seq<Event>)
    requires IsRun(ss, es) && Steps(states, events) && states[0] == ss[|es|]
    ensures IsRun(allStates, allEvents) && Follows(allStates, allEvents, |es|, states, events)
  {
    allStates, allEvents := ss + states[1..], es + events;
    forall i | 0 <= i < |allEvents|
      ensures Step(allStates[i], allEvents[i], allStates[i + 1])
    {
      if i < |es| {
        assert Step(ss[i], es[i], ss[i + 1]);
      } else {
        assert Step(states[i - |es|], events[i - |es|], states[i - |es| + 1]);
      }
    }
  }

  lemma Next(s: State, e: Event)
    requires Reachable(s) && Enabled(s, e)
    ensures Reachable(Apply(s, e))
  {
    var ss, es :| EndsIn(ss, es, s);
    var allStates, allEvents := Append(ss, es, [s, Apply(s, e)], [e]);
    assert allStates[|es| + 1] == [s, Apply(s, e)][1] && |allEvents| == |es| + 1;
    assert EndsIn(allStates, allEvents, Apply(s, e));
  }

  lemma InitIsReachable(s: State)
    requires Init(s)
    ensures Reachable(s)
  {
    assert EndsIn([s], [], s);
  }

  // ---------------------------------------------------------------- a submission

  /** A submission whose cache check is behind it. */
  predicate Waits(s: State, q: nat, identity: Identity) {
    q in s.subs && s.subs[q] == Submission(identity, "fast", Missed)
  }

  lemma Check(s: State, q: nat, identity: Identity) returns (t: State)
    requires Reachable(s) && q !in s.subs && !Cached(s.db, identity)
    ensures Reachable(t) && t.db == s.db && t.procs == s.procs && t.cap == s.cap
    ensures t.subs.Keys == s.subs.Keys + {q}
    ensures Waits(t, q, identity) && forall p | p in s.subs :: p in t.subs && t.subs[p] == s.subs[p]
  {
    Next(s, Arrive(q, identity, "fast"));
    t := Apply(s, Arrive(q, identity, "fast"));
    Next(t, CheckCache(q));
    t := Apply(t, CheckCache(q));
  }

  /** The rest of a submission, up to the moment before it enqueues. */
  lemma Prepare(s: State, q: nat, identity: Identity, replay: Replay) returns (t: State)
    requires Reachable(s) && Waits(s, q, identity)
    ensures Reachable(t) && t.procs == s.procs && t.cap == s.cap
    ensures t.db == UpsertReplay(s.db, identity.replayId, replay)
    ensures q in t.subs && t.subs[q] == Submission(identity, "fast", Ready)
    ensures forall p | p in s.subs && p != q :: p in t.subs && t.subs[p] == s.subs[p]
  {
    Next(s, Admit(q));
    t := Apply(s, Admit(q));
    Next(t, LookUpReplay(q));
    t := Apply(t, LookUpReplay(q));
    if identity.replayId !in s.db.replays {
      t := Fetch(t, q, replay);
    }
  }

  lemma Fetch(s: State, q: nat, replay: Replay) returns (t: State)
    requires Reachable(s) && q in s.subs && s.subs[q].stage == Unstored
    ensures Reachable(t) && t.procs == s.procs && t.cap == s.cap
    ensures t.db == UpsertReplay(s.db, s.subs[q].identity.replayId, replay)
    ensures t.subs == s.subs[q := s.subs[q].(stage := Ready)]
  {
    Next(s, FetchReplay(q, replay));
    t := Apply(s, FetchReplay(q, replay));
    Next(t, StoreReplay(q));
    t := Apply(t, StoreReplay(q));
  }

  lemma Enqueues(s: State, q: nat, id: JobId) returns (t: State)
    requires Reachable(s) && q in s.subs && s.subs[q].stage.Ready? && id !in s.db.jobs
    requires !HasLiveJob(s.db.jobs, s.subs[q].identity)
    ensures Reachable(t) && t.procs == s.procs && t.cap == s.cap
    ensures t.db == s.db.(jobs := s.db.jobs[id := NewJob(s.subs[q].identity, s.subs[q].profile, 1, 1, s.now)])
    ensures forall p | p in s.subs && p != q :: p in t.subs && t.subs[p] == s.subs[p]
  {
    Next(s, EnqueueJob(q, id, 1, 1));
    t := Apply(s, EnqueueJob(q, id, 1, 1));
  }

  // ---------------------------------------------------------------- a worker

  /** Nobody is at work and the job waits with its replay. */
  predicate Waiting(s: State, id: JobId) {
    && s.procs == map[] && id in s.db.jobs && s.db.jobs[id].status == Queued
    && s.db.jobs[id].identity.replayId in s.db.replays
  }

  /** A worker starts and claims the job. */
  lemma StartAndClaim(s: State, id: JobId, w: WorkerId) returns (t: State)
    requires Reachable(s) && Waiting(s, id)
    ensures Reachable(t) && t.db == Claim(s.db, id, w, s.now, 2) && t.subs == s.subs && t.cap == s.cap
    ensures var j := s.db.jobs[id];
      t.procs == map[w := Process(BuildOf(j.identity), 2, Claimed(Work(id, j.identity, j.attempts + 1)))]
  {
    var start := Start(w, BuildOf(s.db.jobs[id].identity), 2);
    Next(s, start);
    t := Apply(s, start);
    Next(t, ClaimOne(w, id));
    t := Apply(t, ClaimOne(w, id));
  }

  /** Having loaded the replay it has a document with so many turns, and stages it. */
  lemma AnalyseAndStage(s: State, w: WorkerId, work: Work, turns: nat, aid: AnalysisId) returns (t: State)
    requires Reachable(s) && s.procs.Keys == {w} && s.procs[w].phase == Claimed(work)
    requires work.identity.replayId in s.db.replays && UpsertTarget(s.db.analyses, work.identity, aid)
    ensures Reachable(t) && t.db == s.db && t.subs == s.subs && t.cap == s.cap && t.procs.Keys == {w}
    ensures t.procs[w].phase.Staged? && t.procs[w].phase.work == work && t.procs[w].phase.aid == aid
    ensures t.procs[w].phase.run.document.totalTurns == turns
  {
    Next(s, LoadReplay(w));
    t := Apply(s, LoadReplay(w));
    var done := EngineReturns(w, "{}", turns, 0, 1, false);
    Next(t, done);
    t := Apply(t, done);
    Next(t, StageUpsert(w, aid));
    t := Apply(t, StageUpsert(w, aid));
  }

  /** It commits, and is gone afterwards. */
  lemma CommitAndStop(s: State, w: WorkerId) returns (t: State)
    requires Reachable(s) && s.procs.Keys == {w} && s.procs[w].phase.Staged?
    ensures Reachable(t) && t.procs == map[] && t.subs == s.subs && t.cap == s.cap
    ensures var p := s.procs[w].phase;
      t.db == ReportSuccess(s.db, p.work.job, w, p.aid, p.work.identity, p.run, p.began)
  {
    Next(s, CloseReport(w));
    t := Apply(s, CloseReport(w));
    Next(t, Crash(w));
    t := Apply(t, Crash(w));
  }

  /** The whole search. An analysis that exists already keeps its turn counts. */
  lemma Succeed(s: State, id: JobId, w: WorkerId, turns: nat, aid: AnalysisId) returns (t: State)
    requires Reachable(s) && Waiting(s, id) && UpsertTarget(s.db.analyses, s.db.jobs[id].identity, aid)
    ensures Reachable(t) && t.procs == map[] && t.cap == s.cap && t.subs == s.subs
    ensures t.db.replays == s.db.replays && t.db.jobs.Keys == s.db.jobs.Keys
    ensures t.db.jobs[id].status == Succeeded && t.db.jobs[id].identity == s.db.jobs[id].identity
    ensures forall k | k in s.db.jobs && k != id :: t.db.jobs[k] == s.db.jobs[k]
    ensures t.db.analyses.Keys == s.db.analyses.Keys + {aid}
    ensures t.db.analyses[aid].identity == s.db.jobs[id].identity
    ensures t.db.analyses[aid].document.totalTurns == turns
    ensures t.db.analyses[aid].totalTurns == if aid in s.db.analyses then s.db.analyses[aid].totalTurns else turns
  {
    var j := s.db.jobs[id];
    t := StartAndClaim(s, id, w);
    t := AnalyseAndStage(t, w, Work(id, j.identity, j.attempts + 1), turns, aid);
    t := CommitAndStop(t, w);
  }
}
