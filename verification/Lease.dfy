/**
 Leases on the clock. A worker's job cannot be reclaimed while it is being analysed as long as
 every renewal commits within the lease of the one before, and how much delay that allows.
*/
module Lease {
  import opened Wrappers
  import opened Contract
  import opened Tables
  import opened Statements
  import opened Cluster
  import opened Runs

  // ---------------------------------------------------------------- the renewal period

  /** `max(1.0, lease_seconds * 0.3)` seconds, in microseconds. */
  function Interval(leaseSeconds: nat): int {
    if leaseSeconds * 300_000 < SECOND then SECOND else leaseSeconds * 300_000
  }

  /** How late a renewal may commit after it is due. */
  function Slack(leaseSeconds: nat): int {
    leaseSeconds * SECOND - Interval(leaseSeconds)
  }

  /**
   Any lease of two seconds or more leaves room for delay; a lease of one second, which the
   configuration allows, leaves none.
  */
  lemma SlackIsPositive(leaseSeconds: nat)
    requires 1 <= leaseSeconds
    ensures 0 <= Slack(leaseSeconds)
    ensures Slack(leaseSeconds) > 0 <==> 2 <= leaseSeconds
    ensures Slack(leaseSeconds) == if leaseSeconds <= 3 then (leaseSeconds - 1) * 1_000_000 else leaseSeconds * 700_000
  {
  }

  // ---------------------------------------------------------------- one step

  /** `w` owns the job at this attempt, with a lease that lasts until `end` at least. */
  predicate Covered(jobs: map<JobId, Job>, w: WorkerId, k: Work, end: Time) {
    && k.job in jobs
    && Owned(jobs[k.job], w)
    && jobs[k.job].attempts == k.attempt
    && jobs[k.job].leaseExpiresAt.Some?
    && end <= jobs[k.job].leaseExpiresAt.value
  }

  /** A late heartbeat of an earlier run of the process does not shorten the lease below `leaseSeconds`. */
  predicate KeepsLease(e: Event, w: WorkerId, id: JobId, leaseSeconds: nat) {
    e.StrayBeat? && e.w == w && e.id == id ==> leaseSeconds <= e.leaseSeconds
  }

  function Earlier(a: Time, b: Time): Time {
    if a <= b then a else b
  }

  lemma ProcessStays(s: State, e: Event, w: WorkerId, k: Work)
    requires Enabled(s, e) && WorkOf(PhaseOf(s, w)) == Some(k) && WorkOf(PhaseOf(Apply(s, e), w)) == Some(k)
    ensures Apply(s, e).procs[w].leaseSeconds == s.procs[w].leaseSeconds
    ensures !(IsReport(e) && e.w == w) && !ClaimsBy(e, w)
  {
  }

  /** Statements of other workers do not find the job. */
  lemma OthersDoNotTouch(s: State, e: Event, w: WorkerId, k: Work, end: Time)
    requires Enabled(s, e) && Covered(s.db.jobs, w, k, end)
    requires (e.Beat? || IsReport(e)) && e.w != w
    ensures Covered(Apply(s, e).db.jobs, w, k, end)
  {
  }

  lemma BulkKeepsCover(s: State, e: Event, w: WorkerId, k: Work, end: Time)
    requires Enabled(s, e) && Covered(s.db.jobs, w, k, end) && s.now <= end
    requires e.ClaimOne? || e.ReclaimExpired? || e.EnqueueJob?
    ensures Covered(Apply(s, e).db.jobs, w, k, end)
  {
  }

  lemma StrayKeepsCover(s: State, e: Event, w: WorkerId, k: Work, end: Time, leaseSeconds: nat)
    requires e.StrayBeat? && Covered(s.db.jobs, w, k, end) && KeepsLease(e, w, k.job, leaseSeconds)
    ensures Covered(Apply(s, e).db.jobs, w, k, Earlier(end, s.now + leaseSeconds * SECOND))
  {
  }

  lemma OwnBeatRenews(s: State, w: WorkerId, k: Work, end: Time)
    requires Enabled(s, Beat(w)) && WorkOf(PhaseOf(s, w)) == Some(k) && Covered(s.db.jobs, w, k, end)
    ensures Covered(Apply(s, Beat(w)).db.jobs, w, k, s.now + s.procs[w].leaseSeconds * SECOND)
  {
  }

  /** A step that does not end the work keeps the job, and a heartbeat of the worker renews it. */
  lemma CoveredStep(s: State, e: Event, w: WorkerId, k: Work, end: Time)
    requires Enabled(s, e) && Covered(s.db.jobs, w, k, end) && s.now <= end
    requires WorkOf(PhaseOf(s, w)) == Some(k) && WorkOf(PhaseOf(Apply(s, e), w)) == Some(k)
    requires KeepsLease(e, w, k.job, s.procs[w].leaseSeconds)
    ensures var renewed := s.now + s.procs[w].leaseSeconds * SECOND;
      Covered(Apply(s, e).db.jobs, w, k, if e == Beat(w) then renewed else Earlier(end, renewed))
  {
    ProcessStays(s, e, w, k);
    if e == Beat(w) {
      OwnBeatRenews(s, w, k, end);
    } else if e.Beat? || IsReport(e) {
      OthersDoNotTouch(s, e, w, k, end);
    } else if e.StrayBeat? {
      StrayKeepsCover(s, e, w, k, end, s.procs[w].leaseSeconds);
    } else if TouchesJobs(e) {
      BulkKeepsCover(s, e, w, k, end);
    } else {
      UntouchedJobs(s, e);
    }
  }

  // ---------------------------------------------------------------- whole analyses

  /** When the lease current in state `m` was last started: by the claim at event `c` or by a later heartbeat. */
  function LeaseStart(ss: seq<State>, es: seq<Event>, c: nat, m: nat, w: WorkerId): Time
    requires c < m <= |es| < |ss|
  {
    if m == c + 1 then ss[c].now
    else if es[m - 1] == Beat(w) then ss[m - 1].now
    else LeaseStart(ss, es, c, m - 1, w)
  }

  /** From the claim at `c` up to state `n` the process is still busy with `k`. */
  predicate BusySince(ss: seq<State>, es: seq<Event>, c: nat, n: nat, w: WorkerId, k: Work)
    requires |ss| == |es| + 1
  {
    && c < n < |ss|
    && ClaimedAt(ss, es, c, w, k)
    && (forall m :: c < m <= n ==> WorkOf(PhaseOf(ss[m], w)) == Some(k))
    && w in ss[c].procs
    && (forall m :: c < m < n ==> KeepsLease(es[m], w, k.job, ss[c].procs[w].leaseSeconds))
  }

  /** In state `m` the lease current then was started at most `span` ago. */
  predicate Within(ss: seq<State>, es: seq<Event>, c: nat, m: nat, w: WorkerId, span: int)
    requires c < m <= |es| < |ss|
  {
    ss[m].now <= LeaseStart(ss, es, c, m, w) + span
  }

  /** From the claim on, no renewal commits more than `span` after the lease it renews was started. */
  predicate Punctual(ss: seq<State>, es: seq<Event>, c: nat, n: nat, w: WorkerId, span: int)
    requires c < n <= |es| < |ss|
  {
    forall m :: c < m <= n ==> Within(ss, es, c, m, w, span)
  }

  lemma ClaimCovers(s: State, t: State, w: WorkerId, k: Work)
    requires Step(s, ClaimOne(w, k.job), t) && WorkOf(PhaseOf(t, w)) == Some(k)
    ensures w in s.procs && w in t.procs && t.procs[w].leaseSeconds == s.procs[w].leaseSeconds
    ensures Covered(t.db.jobs, w, k, s.now + s.procs[w].leaseSeconds * SECOND)
    ensures s.now <= t.now
  {
  }

  /** What one step of a busy worker's analysis does to its cover. */
  ghost predicate CoverRule(s: State, e: Event, t: State, w: WorkerId, k: Work, lease: int) {
    && s.now <= t.now
    && forall end | Covered(s.db.jobs, w, k, end) && s.now <= end ::
         Covered(t.db.jobs, w, k, if e == Beat(w) then s.now + lease else Earlier(end, s.now + lease))
  }

  lemma BusyStep(s: State, e: Event, t: State, w: WorkerId, k: Work)
    requires Step(s, e, t) && WorkOf(PhaseOf(s, w)) == Some(k) && WorkOf(PhaseOf(t, w)) == Some(k)
    requires KeepsLease(e, w, k.job, s.procs[w].leaseSeconds)
    ensures t.procs[w].leaseSeconds == s.procs[w].leaseSeconds
    ensures CoverRule(s, e, t, w, k, s.procs[w].leaseSeconds * SECOND)
  {
    ProcessStays(s, e, w, k);
    forall end | Covered(s.db.jobs, w, k, end) && s.now <= end
      ensures Covered(t.db.jobs, w, k,
                if e == Beat(w) then s.now + s.procs[w].leaseSeconds * SECOND
                else Earlier(end, s.now + s.procs[w].leaseSeconds * SECOND))
    {
      CoveredStep(s, e, w, k, end);
    }
  }

  lemma {:induction false} LeaseSecondsStay(ss: seq<State>, es: seq<Event>, c: nat, n: nat, w: WorkerId, k: Work)
    requires IsRun(ss, es) && BusySince(ss, es, c, n, w, k)
    ensures w in ss[n].procs && ss[n].procs[w].leaseSeconds == ss[c].procs[w].leaseSeconds
    decreases n
  {
    if n == c + 1 {
      ClaimCovers(ss[c], ss[c + 1], w, k);
    } else {
      LeaseSecondsStay(ss, es, c, n - 1, w, k);
      BusyStep(ss[n - 1], es[n - 1], ss[n], w, k);
    }
  }

  /** The analysis as far as its lease is concerned. */
  ghost predicate CoverHistory(ss: seq<State>, es: seq<Event>, c: nat, n: nat, w: WorkerId, k: Work, lease: int) {
    && c < n < |ss| == |es| + 1
    && Covered(ss[c + 1].db.jobs, w, k, ss[c].now + lease)
    && ss[c].now <= ss[c + 1].now
    && forall i {:trigger es[i]} :: c < i < n ==> CoverRule(ss[i], es[i], ss[i + 1], w, k, lease)
  }

  lemma BusyIsCoverHistory(ss: seq<State>, es: seq<Event>, c: nat, n: nat, w: WorkerId, k: Work)
    requires IsRun(ss, es) && BusySince(ss, es, c, n, w, k)
    ensures CoverHistory(ss, es, c, n, w, k, ss[c].procs[w].leaseSeconds * SECOND)
  {
    ClaimCovers(ss[c], ss[c + 1], w, k);
    forall i | c < i < n
      ensures CoverRule(ss[i], es[i], ss[i + 1], w, k, ss[c].procs[w].leaseSeconds * SECOND)
    {
      LeaseSecondsStay(ss, es, c, i, w, k);
      BusyStep(ss[i], es[i], ss[i + 1], w, k);
    }
  }

  lemma NextCover(s: State, e: Event, t: State, w: WorkerId, k: Work, lease: int, start: Time)
    requires CoverRule(s, e, t, w, k, lease)
    requires Covered(s.db.jobs, w, k, start + lease) && start <= s.now <= start + lease
    ensures s.now <= t.now
    ensures Covered(t.db.jobs, w, k, (if e == Beat(w) then s.now else start) + lease)
  {
  }

  lemma ShorterHistory(ss: seq<State>, es: seq<Event>, c: nat, n: nat, w: WorkerId, k: Work, lease: int)
    requires CoverHistory(ss, es, c, n, w, k, lease) && c + 1 < n
    ensures CoverHistory(ss, es, c, n - 1, w, k, lease)
  {
  }

  lemma {:induction false} CoveredThroughout(
    ss: seq<State>, es: seq<Event>, c: nat, n: nat, w: WorkerId, k: Work, lease: int)
    requires CoverHistory(ss, es, c, n, w, k, lease)
    requires forall m :: c < m < n ==> Within(ss, es, c, m, w, lease)
    ensures LeaseStart(ss, es, c, n, w) <= ss[n].now
    ensures Covered(ss[n].db.jobs, w, k, LeaseStart(ss, es, c, n, w) + lease)
    decreases n
  {
    if n > c + 1 {
      ShorterHistory(ss, es, c, n, w, k, lease);
      CoveredThroughout(ss, es, c, n - 1, w, k, lease);
      var i, start := n - 1, LeaseStart(ss, es, c, n - 1, w);
      assert CoverRule(ss[i], es[i], ss[i + 1], w, k, lease);
      assert Within(ss, es, c, i, w, lease);
      NextCover(ss[i], es[i], ss[i + 1], w, k, lease, start);
      assert LeaseStart(ss, es, c, n, w) == if es[i] == Beat(w) then ss[i].now else start;
    }
  }

  /**
   Timed lease safety: while every renewal commits no later than the slack after it is due,
   nobody else gets the job, no heartbeat of the worker finds it gone, and the claim is still
   the latest one whenever the worker comes to report.
   */
  lemma PunctualWorkerKeepsItsJob(ss: seq<State>, es: seq<Event>, c: nat, n: nat, w: WorkerId, k: Work, latency: int)
    requires IsRun(ss, es) && BusySince(ss, es, c, n, w, k)
    requires latency <= Slack(ss[c].procs[w].leaseSeconds)
    requires Punctual(ss, es, c, n, w, Interval(ss[c].procs[w].leaseSeconds) + latency)
    ensures forall m :: c < m <= n ==> Holds(ss[m], w, k)
    ensures forall m :: c < m <= n && PhaseOf(ss[m], w).Analysing? ==> !PhaseOf(ss[m], w).lost
  {
    forall m | c < m <= n
      ensures Holds(ss[m], w, k)
      ensures PhaseOf(ss[m], w).Analysing? ==> !PhaseOf(ss[m], w).lost
    {
      BusyIsCoverHistory(ss, es, c, m, w, k);
      forall i | c < i < m
        ensures Within(ss, es, c, i, w, ss[c].procs[w].leaseSeconds * SECOND)
      {
        assert Within(ss, es, c, i, w, Interval(ss[c].procs[w].leaseSeconds) + latency);
      }
      CoveredThroughout(ss, es, c, m, w, k, ss[c].procs[w].leaseSeconds * SECOND);
      RunKeepsInv(ss, es, m);
      assert PhaseOk(ss[m].db, w, ss[m].procs[w]);
    }
  }
}
