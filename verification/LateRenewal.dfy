/**
 How much delay a lease tolerates, exactly: a renewal that is late by no more than the slack
 keeps the job in every run, and for any greater lateness there is a run that loses it.
*/
module LateRenewal {
  import opened Wrappers
  import opened Contract
  import opened Tables
  import opened Statements
  import opened Cluster
  import opened Runs
  import opened Reachability
  import opened Lease

  /**
   A worker with this lease, whose renewals commit at most `latency` after they are due, finds
   at state `n` that its job is gone.
  */
  ghost predicate Loses(
    ss: seq<State>, es: seq<Event>, c: nat, n: nat, w: WorkerId, k: Work, leaseSeconds: nat, latency: int)
  {
    && IsRun(ss, es) && BusySince(ss, es, c, n, w, k)
    && ss[c].procs[w].leaseSeconds == leaseSeconds
    && Punctual(ss, es, c, n, w, Interval(leaseSeconds) + latency)
    && PhaseOf(ss[n], w).Analysing? && PhaseOf(ss[n], w).lost
  }

  ghost predicate CanLose(leaseSeconds: nat, latency: int) {
    exists ss, es, c, n, w, k :: Loses(ss, es, c, n, w, k, leaseSeconds, latency)
  }

  /** Two idle workers and one job of their build. */
  ghost predicate Ready(s: State, w: WorkerId, v: WorkerId, id: JobId, leaseSeconds: nat) {
    && w != v && id in s.db.jobs && s.db.jobs[id].status == Queued && s.db.jobs[id].attempts == 0
    && s.db.jobs[id].identity.replayId in s.db.replays
    && var p := Process(BuildOf(s.db.jobs[id].identity), leaseSeconds, Idle);
       s.procs == map[w := p, v := p]
  }

  lemma ReadyIsReachable(identity: Identity, replay: Replay, w: WorkerId, v: WorkerId, leaseSeconds: nat)
    returns (s: State)
    requires w != v
    ensures Reachable(s) && Ready(s, w, v, 0, leaseSeconds) && s.db.jobs[0].identity == identity
  {
    s := State(1, 0, EMPTY, map[], map[]);
    InitIsReachable(s);
    s := Check(s, 0, identity);
    s := Prepare(s, 0, identity, replay);
    s := Enqueues(s, 0, 0);
    Next(s, Start(w, BuildOf(identity), leaseSeconds));
    s := Apply(s, Start(w, BuildOf(identity), leaseSeconds));
    Next(s, Start(v, BuildOf(identity), leaseSeconds));
    s := Apply(s, Start(v, BuildOf(identity), leaseSeconds));
  }

  /** `w` works on `k`, in this phase, since it claimed the job at time `began`. */
  predicate At(s: State, w: WorkerId, v: WorkerId, k: Work, phase: Phase, began: Time, leaseSeconds: nat) {
    && w != v && WorkOf(phase) == Some(k) && k.job in s.db.jobs
    && w in s.procs && s.procs[w].phase == phase && s.procs[w].leaseSeconds == leaseSeconds
    && v in s.procs && s.procs[v].phase == Idle
    && (Owned(s.db.jobs[k.job], w) ==>
          s.db.jobs[k.job].attempts == k.attempt
          && s.db.jobs[k.job].leaseExpiresAt == Some(began + leaseSeconds * SECOND))
  }

  lemma Claims(s: State, w: WorkerId, v: WorkerId, id: JobId, leaseSeconds: nat)
    requires Ready(s, w, v, id, leaseSeconds)
    ensures Enabled(s, ClaimOne(w, id))
    ensures var k, t := Work(id, s.db.jobs[id].identity, 1), Apply(s, ClaimOne(w, id));
      && At(t, w, v, k, Claimed(k), s.now, leaseSeconds) && Owned(t.db.jobs[id], w)
      && k.identity.replayId in t.db.replays && t.now == s.now
  {
  }

  lemma Loads(s: State, w: WorkerId, v: WorkerId, k: Work, began: Time, leaseSeconds: nat)
    requires At(s, w, v, k, Claimed(k), began, leaseSeconds) && k.identity.replayId in s.db.replays
    ensures Enabled(s, LoadReplay(w))
    ensures var t := Apply(s, LoadReplay(w));
      At(t, w, v, k, Analysing(k, s.db.replays[k.identity.replayId].log, false), began, leaseSeconds) && t.now == s.now
  {
  }

  lemma Ticks(s: State, w: WorkerId, v: WorkerId, k: Work, phase: Phase, began: Time, leaseSeconds: nat, late: Time)
    requires At(s, w, v, k, phase, began, leaseSeconds) && s.now <= late
    ensures Enabled(s, Tick(late))
    ensures var t := Apply(s, Tick(late));
      At(t, w, v, k, phase, began, leaseSeconds) && t.now == late
  {
  }

  /** Once the lease has run out the other worker's reclaim takes the job. */
  lemma Reclaims(s: State, w: WorkerId, v: WorkerId, k: Work, phase: Phase, began: Time, leaseSeconds: nat)
    requires At(s, w, v, k, phase, began, leaseSeconds) && began + leaseSeconds * SECOND < s.now
    ensures Enabled(s, ReclaimExpired(v))
    ensures var t := Apply(s, ReclaimExpired(v));
      At(t, w, v, k, phase, began, leaseSeconds) && t.now == s.now && !Owned(t.db.jobs[k.job], w)
  {
  }

  lemma Beats(s: State, w: WorkerId, v: WorkerId, k: Work, log: string, began: Time, leaseSeconds: nat)
    requires At(s, w, v, k, Analysing(k, log, false), began, leaseSeconds) && !Owned(s.db.jobs[k.job], w)
    ensures Enabled(s, Beat(w))
    ensures var t := Apply(s, Beat(w));
      At(t, w, v, k, Analysing(k, log, true), began, leaseSeconds) && t.now == s.now
  {
  }

  /** From event `c` on: a claim, no renewal for a long time, and then a renewal that finds the job gone. */
  ghost predicate IsLate(
    ss: seq<State>, es: seq<Event>, c: nat, w: WorkerId, k: Work, leaseSeconds: nat, late: int)
  {
    && |ss| == |es| + 1 == c + 6
    && es[c] == ClaimOne(w, k.job) && es[c + 4] == Beat(w)
    && (forall i {:trigger es[i]} :: c < i < c + 4 ==> es[i] != Beat(w) && !es[i].StrayBeat?)
    && w in ss[c].procs && ss[c].procs[w].leaseSeconds == leaseSeconds
    && k.job in ss[c + 1].db.jobs && Owned(ss[c + 1].db.jobs[k.job], w)
    && ss[c + 1].db.jobs[k.job].attempts == k.attempt
    && (forall i {:trigger ss[i]} :: c < i <= c + 5 ==>
          WorkOf(PhaseOf(ss[i], w)) == Some(k) && ss[i].now <= ss[c].now + late)
    && ss[c + 5].now == ss[c + 4].now
    && PhaseOf(ss[c + 5], w).Analysing? && PhaseOf(ss[c + 5], w).lost
  }

  lemma LateStory(s: State, w: WorkerId, v: WorkerId, id: JobId, leaseSeconds: nat, late: int)
    returns (states: seq<State>, events: seq<Event>)
    requires Ready(s, w, v, id, leaseSeconds) && leaseSeconds * SECOND < late
    ensures Steps(states, events) && states[0] == s
    ensures IsLate(states, events, 0, w, Work(id, s.db.jobs[id].identity, 1), leaseSeconds, late)
  {
    var k := Work(id, s.db.jobs[id].identity, 1);
    var log, a, ea := FirstHalf(s, w, v, id, leaseSeconds);
    var b, eb := LateHalf(a[2], w, v, k, log, s.now, leaseSeconds, s.now + late);
    states, events := Join(a, ea, b, eb);
    ItIsLate(states, events, w, k, leaseSeconds, late);
  }

  lemma ItIsLate(ss: seq<State>, es: seq<Event>, w: WorkerId, k: Work, leaseSeconds: nat, late: int)
    requires |ss| == 6 && |es| == 5 && 0 <= late
    requires es[0] == ClaimOne(w, k.job) && es[4] == Beat(w)
    requires es[1].LoadReplay? && es[2].Tick? && es[3].ReclaimExpired?
    requires w in ss[0].procs && ss[0].procs[w].leaseSeconds == leaseSeconds
    requires k.job in ss[1].db.jobs && Owned(ss[1].db.jobs[k.job], w) && ss[1].db.jobs[k.job].attempts == k.attempt
    requires ss[0].now == ss[1].now == ss[2].now && ss[3].now == ss[4].now == ss[5].now == ss[0].now + late
    requires WorkOf(PhaseOf(ss[1], w)) == WorkOf(PhaseOf(ss[2], w)) == WorkOf(PhaseOf(ss[3], w)) == Some(k)
    requires WorkOf(PhaseOf(ss[4], w)) == WorkOf(PhaseOf(ss[5], w)) == Some(k)
    requires PhaseOf(ss[5], w).Analysing? && PhaseOf(ss[5], w).lost
    ensures IsLate(ss, es, 0, w, k, leaseSeconds, late)
  {
    forall i | 0 < i <= 5
      ensures WorkOf(PhaseOf(ss[i], w)) == Some(k) && ss[i].now <= ss[0].now + late
    {
      assert i == 1 || i == 2 || i == 3 || i == 4 || i == 5;
    }
  }

  lemma Join(a: seq<State>, ea: seq<Event>, b: seq<State>, eb: seq<Event>)
    returns (states: seq<State>, events: seq<Event>)
    requires |ea| == 2 && |eb| == 3 && Steps(a, ea) && Steps(b, eb) && a[2] == b[0]
    ensures Steps(states, events) && |events| == 5
    ensures states[0] == a[0] && states[1] == a[1] && states[2] == a[2]
    ensures states[3] == b[1] && states[4] == b[2] && states[5] == b[3]
    ensures events[0] == ea[0] && events[1] == ea[1]
    ensures events[2] == eb[0] && events[3] == eb[1] && events[4] == eb[2]
  {
    states, events := a + b[1..], ea + eb;
    forall i | 0 <= i < 5
      ensures Step(states[i], events[i], states[i + 1])
    {
      if i < 2 {
        assert Step(a[i], ea[i], a[i + 1]);
      } else {
        assert Step(b[i - 2], eb[i - 2], b[i - 2 + 1]);
      }
    }
  }

  lemma TwoSteps(s: State, e: Event, f: Event) returns (states: seq<State>, events: seq<Event>)
    requires Enabled(s, e) && Enabled(Apply(s, e), f)
    ensures Steps(states, events) && |events| == 2 && events[0] == e && events[1] == f
    ensures states[0] == s && states[1] == Apply(s, e) && states[2] == Apply(Apply(s, e), f)
  {
    states, events := [s, Apply(s, e), Apply(Apply(s, e), f)], [e, f];
  }

  lemma ThreeSteps(s: State, e: Event, f: Event, g: Event) returns (states: seq<State>, events: seq<Event>)
    requires Enabled(s, e) && Enabled(Apply(s, e), f) && Enabled(Apply(Apply(s, e), f), g)
    ensures Steps(states, events) && |events| == 3 && events[0] == e && events[1] == f && events[2] == g
    ensures states[0] == s && states[1] == Apply(s, e) && states[2] == Apply(Apply(s, e), f)
    ensures states[3] == Apply(states[2], g)
  {
    states := [s, Apply(s, e), Apply(Apply(s, e), f), Apply(Apply(Apply(s, e), f), g)];
    events := [e, f, g];
  }

  lemma FirstHalf(s: State, w: WorkerId, v: WorkerId, id: JobId, leaseSeconds: nat)
    returns (log: string, states: seq<State>, events: seq<Event>)
    requires Ready(s, w, v, id, leaseSeconds)
    ensures w in s.procs && s.procs[w].leaseSeconds == leaseSeconds
    ensures Steps(states, events) && |events| == 2 && events[0] == ClaimOne(w, id) && events[1] == LoadReplay(w)
    ensures states[0] == s && states[1].now == states[2].now == s.now
    ensures var k := Work(id, s.db.jobs[id].identity, 1);
      && PhaseOf(states[1], w) == Claimed(k) && id in states[1].db.jobs && Owned(states[1].db.jobs[id], w)
      && states[1].db.jobs[id].attempts == 1
      && At(states[2], w, v, k, Analysing(k, log, false), s.now, leaseSeconds)
  {
    var k := Work(id, s.db.jobs[id].identity, 1);
    Claims(s, w, v, id, leaseSeconds);
    var s1 := Apply(s, ClaimOne(w, id));
    Loads(s1, w, v, k, s.now, leaseSeconds);
    log := s1.db.replays[k.identity.replayId].log;
    states, events := TwoSteps(s, ClaimOne(w, id), LoadReplay(w));
  }

  lemma LateHalf(
    s: State, w: WorkerId, v: WorkerId, k: Work, log: string, began: Time, leaseSeconds: nat, late: Time)
    returns (states: seq<State>, events: seq<Event>)
    requires At(s, w, v, k, Analysing(k, log, false), began, leaseSeconds)
    requires s.now <= late && began + leaseSeconds * SECOND < late
    ensures Steps(states, events) && |events| == 3
    ensures events[0] == Tick(late) && events[1] == ReclaimExpired(v) && events[2] == Beat(w)
    ensures states[0] == s && states[1].now == states[2].now == states[3].now == late
    ensures PhaseOf(states[1], w) == PhaseOf(states[2], w) == Analysing(k, log, false)
    ensures PhaseOf(states[3], w) == Analysing(k, log, true)
  {
    Ticks(s, w, v, k, Analysing(k, log, false), began, leaseSeconds, late);
    var s3 := Apply(s, Tick(late));
    Reclaims(s3, w, v, k, Analysing(k, log, false), began, leaseSeconds);
    var s4 := Apply(s3, ReclaimExpired(v));
    Beats(s4, w, v, k, log, began, leaseSeconds);
    states, events := ThreeSteps(s, Tick(late), ReclaimExpired(v), Beat(w));
  }

  lemma {:induction false} StartsAtClaim(ss: seq<State>, es: seq<Event>, c: nat, m: nat, w: WorkerId)
    requires c < m <= |es| < |ss|
    requires forall i :: c < i < m ==> es[i] != Beat(w)
    ensures LeaseStart(ss, es, c, m, w) == ss[c].now
  {
    if m > c + 1 {
      StartsAtClaim(ss, es, c, m - 1, w);
    }
  }

  /** No renewal before the late one, so the lease runs from the claim until then. */
  lemma LateIsPunctual(ss: seq<State>, es: seq<Event>, c: nat, w: WorkerId, k: Work, leaseSeconds: nat, late: int)
    requires IsLate(ss, es, c, w, k, leaseSeconds, late) && 0 <= late
    ensures Punctual(ss, es, c, c + 5, w, late)
  {
    forall m | c < m <= c + 5
      ensures Within(ss, es, c, m, w, late)
    {
      if m <= c + 4 {
        StartsAtClaim(ss, es, c, m, w);
      }
    }
  }

  lemma LateLoses(
    ss: seq<State>, es: seq<Event>, c: nat, w: WorkerId, k: Work, leaseSeconds: nat, latency: int)
    requires IsRun(ss, es) && 0 <= Interval(leaseSeconds) + latency
    requires IsLate(ss, es, c, w, k, leaseSeconds, Interval(leaseSeconds) + latency)
    ensures Loses(ss, es, c, c + 5, w, k, leaseSeconds, latency)
  {
    LateIsPunctual(ss, es, c, w, k, leaseSeconds, Interval(leaseSeconds) + latency);
    assert BusySince(ss, es, c, c + 5, w, k);
  }

  /** The same story later in a run. */
  lemma LateAfter(
    ss: seq<State>, es: seq<Event>, c: nat, states: seq<State>, events: seq<Event>,
    w: WorkerId, k: Work, leaseSeconds: nat, late: int)
    requires IsLate(states, events, 0, w, k, leaseSeconds, late)
    requires Follows(ss, es, c, states, events)
    ensures IsLate(ss, es, c, w, k, leaseSeconds, late)
  {
    forall i | c <= i <= c + 5
      ensures ss[i] == states[i - c]
    {
      assert ss[c + (i - c)] == states[i - c];
    }
    forall i | c <= i < c + 5
      ensures es[i] == events[i - c]
    {
      assert es[c + (i - c)] == events[i - c];
    }
  }

  lemma LateCanLose(s: State, w: WorkerId, v: WorkerId, leaseSeconds: nat, latency: int)
    requires Reachable(s) && Ready(s, w, v, 0, leaseSeconds) && 1 <= leaseSeconds && Slack(leaseSeconds) < latency
    ensures CanLose(leaseSeconds, latency)
  {
    var k, late := Work(0, s.db.jobs[0].identity, 1), Interval(leaseSeconds) + latency;
    var states, events := LateStory(s, w, v, 0, leaseSeconds, late);
    var ss, es :| EndsIn(ss, es, s);
    var allStates, allEvents := LateAtTheEnd(ss, es, states, events, w, k, leaseSeconds, late);
    LateLoses(allStates, allEvents, |es|, w, k, leaseSeconds, latency);
  }

  lemma LateAtTheEnd(
    ss: seq<State>, es: seq<Event>, states: seq<State>, events: seq<Event>,
    w: WorkerId, k: Work, leaseSeconds: nat, late: int)
    returns (allStates: seq<State>, allEvents: seq<Event>)
    requires IsRun(ss, es) && Steps(states, events) && ss[|es|] == states[0]
    requires IsLate(states, events, 0, w, k, leaseSeconds, late)
    ensures IsRun(allStates, allEvents) && IsLate(allStates, allEvents, |es|, w, k, leaseSeconds, late)
  {
    allStates, allEvents := Append(ss, es, states, events);
    LateAfter(allStates, allEvents, |es|, states, events, w, k, leaseSeconds, late);
  }

  lemma PunctualCannotLose(
    ss: seq<State>, es: seq<Event>, c: nat, n: nat, w: WorkerId, k: Work, leaseSeconds: nat, latency: int)
    requires latency <= Slack(leaseSeconds)
    ensures !Loses(ss, es, c, n, w, k, leaseSeconds, latency)
  {
    if Loses(ss, es, c, n, w, k, leaseSeconds, latency) {
      PunctualWorkerKeepsItsJob(ss, es, c, n, w, k, latency);
    }
  }

  /** The slack is exact: renewals this late can lose the job if and only if the lateness exceeds it. */
  lemma SlackIsExact(leaseSeconds: nat, latency: int)
    requires 1 <= leaseSeconds
    ensures CanLose(leaseSeconds, latency) <==> Slack(leaseSeconds) < latency
    ensures CanLose(leaseSeconds, latency) <==>
      (if leaseSeconds <= 3 then (leaseSeconds - 1) * 1_000_000 else leaseSeconds * 700_000) < latency
  {
    SlackIsPositive(leaseSeconds);
    if Slack(leaseSeconds) < latency {
      var identity := Identity("", P1, 1, 1, 1, 0, "", "", 0);
      var s := ReadyIsReachable(identity, Replay("", None, [], "", 0), "w", "v", leaseSeconds);
      LateCanLose(s, "w", "v", leaseSeconds, latency);
    } else {
      forall ss, es, c, n, w, k
        ensures !Loses(ss, es, c, n, w, k, leaseSeconds, latency)
      {
        PunctualCannotLose(ss, es, c, n, w, k, leaseSeconds, latency);
      }
    }
  }
}
