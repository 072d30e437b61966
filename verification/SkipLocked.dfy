/**
 Overlapping runs of `claim_job.sql` at the level of row locks.

 Each claimer scans the queued rows of its build as its snapshot ordered them. A row somebody
 else has locked is skipped without waiting; a row that is free is locked, re-checked against
 the latest committed version (it may have been claimed since the snapshot), and either kept
 or passed over. The update becomes visible, and the lock goes away, at commit. An enqueue
 that joins a live job locks that job's row for a moment as well.
*/
module SkipLocked {
  import opened Wrappers
  import opened Contract
  import opened Tables
  import opened Statements
  import Cluster

  datatype Locker = ByClaimer(c: WorkerId) | ByJoin

  datatype Claimer =
    | Waiting
    | Scanning(rest: seq<JobId>, began: Time)
    | Holding(id: JobId, began: Time)
    | Done(result: Option<JobId>, began: Time)

  /** `order` records which claimers have locked a row for keeps, first to last. */
  datatype Table = Table(
    jobs: map<JobId, Job>,
    locks: map<JobId, Locker>,
    claimers: map<WorkerId, Claimer>,
    order: seq<WorkerId>)

  datatype Event =
    | Begin(c: WorkerId, listing: seq<JobId>, at: Time)
    | Examine(c: WorkerId)
    | FindNothing(c: WorkerId)
    | Commit(c: WorkerId)
    | JoinLock(id: JobId)
    | JoinRelease(id: JobId)

  /** The rows a claim for `build` would consider, in claim order. */
  predicate IsListing(listing: seq<JobId>, jobs: map<JobId, Job>, build: Build) {
    && (forall i :: 0 <= i < |listing| ==> Claimable(jobs, build, listing[i]))
    && (forall i, j :: 0 <= i < j < |listing| ==> Before(jobs, listing[i], listing[j]))
    && (forall id | id in jobs && Claimable(jobs, build, id) :: id in listing)
  }

  /** The front of the listing is the head that a claim takes when it meets no lock. */
  lemma FrontIsHead(listing: seq<JobId>, jobs: map<JobId, Job>, build: Build, id: JobId)
    requires IsListing(listing, jobs, build)
    ensures IsHead(jobs, build, id) <==> listing != [] && listing[0] == id
  {
    if IsHead(jobs, build, id) {
      assert id in listing;
      var i :| 0 <= i < |listing| && listing[i] == id;
      assert i > 0 ==> Before(jobs, listing[0], listing[i]) && Claimable(jobs, build, listing[0]);
    }
  }

  predicate Enabled(t: Table, e: Event, build: Build) {
    match e
    case Begin(c, listing, _) => c in t.claimers && t.claimers[c].Waiting? && IsListing(listing, t.jobs, build)
    case Examine(c) => c in t.claimers && t.claimers[c].Scanning? && t.claimers[c].rest != []
    case FindNothing(c) => c in t.claimers && t.claimers[c].Scanning? && t.claimers[c].rest == []
    case Commit(c) => c in t.claimers && t.claimers[c].Holding? && t.claimers[c].id in t.jobs
    case JoinLock(id) => id in t.jobs && Live(t.jobs[id]) && id !in t.locks
    case JoinRelease(id) => id in t.locks && t.locks[id].ByJoin?
  }

  function Apply(t: Table, e: Event, build: Build, leaseSeconds: nat): Table
    requires Enabled(t, e, build)
  {
    match e
    case Begin(c, listing, at) => t.(claimers := t.claimers[c := Scanning(listing, at)])
    case Examine(c) =>
      var id, rest, began := t.claimers[c].rest[0], t.claimers[c].rest[1..], t.claimers[c].began;
      if id in t.locks || !Claimable(t.jobs, build, id)
      then t.(claimers := t.claimers[c := Scanning(rest, began)])
      else t.(locks := t.locks[id := ByClaimer(c)],
              claimers := t.claimers[c := Holding(id, began)],
              order := t.order + [c])
    case FindNothing(c) => t.(claimers := t.claimers[c := Done(None, t.claimers[c].began)])
    case Commit(c) =>
      var id, began := t.claimers[c].id, t.claimers[c].began;
      t.(jobs := t.jobs[id := ClaimRow(t.jobs[id], c, began, leaseSeconds)],
         locks := t.locks - {id},
         claimers := t.claimers[c := Done(Some(id), began)])
    case JoinLock(id) => t.(locks := t.locks[id := ByJoin])
    case JoinRelease(id) => t.(locks := t.locks - {id})
  }

  predicate Init(t: Table) {
    t.locks == map[] && t.order == [] && forall c | c in t.claimers :: t.claimers[c].Waiting?
  }

  ghost predicate IsRun(ts: seq<Table>, es: seq<Event>, build: Build, leaseSeconds: nat) {
    && |ts| == |es| + 1
    && Init(ts[0])
    && forall i {:trigger es[i]} :: 0 <= i < |es| ==>
         Enabled(ts[i], es[i], build) && ts[i + 1] == Apply(ts[i], es[i], build, leaseSeconds)
  }

  // ---------------------------------------------------------------- no row twice

  predicate ClaimerOk(t: Table, c: WorkerId)
    requires c in t.claimers
  {
    match t.claimers[c]
    case Waiting => true
    case Scanning(_, _) => true
    case Holding(id, _) =>
      id in t.jobs && t.jobs[id].status == Queued && id in t.locks && t.locks[id] == ByClaimer(c)
    case Done(result, _) =>
      result.Some? ==> result.value in t.jobs && Owned(t.jobs[result.value], c)
  }

  predicate LocksOk(t: Table) {
    forall c | c in t.claimers :: ClaimerOk(t, c)
  }

  lemma StepKeepsLocks(t: Table, e: Event, build: Build, leaseSeconds: nat)
    requires LocksOk(t) && Enabled(t, e, build)
    ensures LocksOk(Apply(t, e, build, leaseSeconds))
  {
    var u := Apply(t, e, build, leaseSeconds);
    forall c | c in u.claimers
      ensures ClaimerOk(u, c)
    {
      assert ClaimerOk(t, c);
      if e.Commit? {
        assert ClaimerOk(t, e.c);
      }
    }
  }

  lemma {:induction false} RunKeepsLocks(ts: seq<Table>, es: seq<Event>, build: Build, leaseSeconds: nat, n: nat)
    requires IsRun(ts, es, build, leaseSeconds) && n <= |es|
    ensures LocksOk(ts[n])
  {
    if n > 0 {
      RunKeepsLocks(ts, es, build, leaseSeconds, n - 1);
      StepKeepsLocks(ts[n - 1], es[n - 1], build, leaseSeconds);
    }
  }

  /** The row a claimer has locked or claimed. */
  function Taken(c: Claimer): Option<JobId> {
    match c
    case Holding(id, _) => Some(id)
    case Done(result, _) => result
    case _ => None
  }

  /** Joins or no joins, no two claimers ever hold or get the same row. */
  lemma NoRowTwice(ts: seq<Table>, es: seq<Event>, build: Build, leaseSeconds: nat, n: nat, c: WorkerId, d: WorkerId)
    requires IsRun(ts, es, build, leaseSeconds) && n <= |es|
    requires c in ts[n].claimers && d in ts[n].claimers
    requires Taken(ts[n].claimers[c]).Some? && Taken(ts[n].claimers[c]) == Taken(ts[n].claimers[d])
    ensures c == d
  {
    RunKeepsLocks(ts, es, build, leaseSeconds, n);
    assert ClaimerOk(ts[n], c) && ClaimerOk(ts[n], d);
  }

  // ---------------------------------------------------------------- claims as the protocol sees them

  /** A row locked for keeps is held by its locker, and a held row is still up for a claim. */
  predicate HoldersOk(t: Table, build: Build) {
    && (forall id | id in t.locks && t.locks[id].ByClaimer? :: HeldBy(t, id, t.locks[id].c))
    && (forall c | c in t.claimers && t.claimers[c].Holding? :: Claimable(t.jobs, build, t.claimers[c].id))
  }

  predicate HeldBy(t: Table, id: JobId, c: WorkerId) {
    c in t.claimers && t.claimers[c].Holding? && t.claimers[c].id == id
  }

  lemma StepKeepsHolders(t: Table, e: Event, build: Build, leaseSeconds: nat)
    requires LocksOk(t) && HoldersOk(t, build) && Enabled(t, e, build)
    ensures HoldersOk(Apply(t, e, build, leaseSeconds), build)
  {
    var u := Apply(t, e, build, leaseSeconds);
    forall c | c in u.claimers && u.claimers[c].Holding?
      ensures Claimable(u.jobs, build, u.claimers[c].id)
    {
      assert ClaimerOk(t, c);
      assert e.Commit? ==> ClaimerOk(t, e.c);
    }
    forall id | id in u.locks && u.locks[id].ByClaimer?
      ensures HeldBy(u, id, u.locks[id].c)
    {
      assert id in t.locks && t.locks[id].ByClaimer? ==> HeldBy(t, id, t.locks[id].c);
    }
  }

  lemma {:induction false} RunKeepsHolders(ts: seq<Table>, es: seq<Event>, build: Build, leaseSeconds: nat, n: nat)
    requires IsRun(ts, es, build, leaseSeconds) && n <= |es|
    ensures LocksOk(ts[n]) && HoldersOk(ts[n], build)
    ensures ts[n].claimers.Keys == ts[0].claimers.Keys
  {
    RunKeepsLocks(ts, es, build, leaseSeconds, n);
    if n > 0 {
      RunKeepsHolders(ts, es, build, leaseSeconds, n - 1);
      StepKeepsHolders(ts[n - 1], es[n - 1], build, leaseSeconds);
    }
  }

  /** A process of the cluster that could take the claim a holder is about to commit. */
  predicate Stands(s: Cluster.State, t: Table, c: WorkerId, build: Build, leaseSeconds: nat)
    requires c in t.claimers && t.claimers[c].Holding?
  {
    && s.db.jobs == t.jobs && s.now == t.claimers[c].began
    && c in s.procs && s.procs[c] == Cluster.Process(build, leaseSeconds, Cluster.Idle)
  }

  /** What a commit does to the jobs is one claim of the cluster, made when the statement began. */
  lemma CommitIsClaim(t: Table, c: WorkerId, s: Cluster.State, build: Build, leaseSeconds: nat)
    requires HoldersOk(t, build) && Enabled(t, Commit(c), build) && Stands(s, t, c, build, leaseSeconds)
    ensures var claim := Cluster.ClaimOne(c, t.claimers[c].id);
      && Cluster.Enabled(s, claim)
      && Cluster.Apply(s, claim).db == s.db.(jobs := Apply(t, Commit(c), build, leaseSeconds).jobs)
  {
  }

  /** The jobs change in this step by one claim of a claimable row, stamped with the time its statement began. */
  predicate OneClaim(t: Table, e: Event, u: Table, build: Build, leaseSeconds: nat) {
    && e.Commit? && e.c in t.claimers && t.claimers[e.c].Holding?
    && var id := t.claimers[e.c].id;
       Claimable(t.jobs, build, id)
       && u.jobs == t.jobs[id := ClaimRow(t.jobs[id], e.c, t.claimers[e.c].began, leaseSeconds)]
  }

  /** To the jobs table a lock-level run is a sequence of claims of queued rows and nothing else. */
  lemma RunIsClaims(ts: seq<Table>, es: seq<Event>, build: Build, leaseSeconds: nat, n: nat)
    requires IsRun(ts, es, build, leaseSeconds) && n < |es|
    ensures if es[n].Commit? then OneClaim(ts[n], es[n], ts[n + 1], build, leaseSeconds)
            else ts[n + 1].jobs == ts[n].jobs
  {
    RunKeepsHolders(ts, es, build, leaseSeconds, n);
  }

  // ---------------------------------------------------------------- the queue is split from the front

  /** The `i`-th row of the queue is the `i`-th locker's, or nobody's yet. */
  predicate Slot(t: Table, start: map<JobId, Job>, queue: seq<JobId>, i: nat, leaseSeconds: nat)
    requires i < |queue|
  {
    var id := queue[i];
    && id in start && id in t.jobs
    && if i < |t.order| then SlotTaken(t, start, id, t.order[i], leaseSeconds)
       else t.jobs[id] == start[id] && id !in t.locks
  }

  predicate SlotTaken(t: Table, start: map<JobId, Job>, id: JobId, c: WorkerId, leaseSeconds: nat)
    requires id in start && id in t.jobs
  {
    && c in t.claimers
    && match t.claimers[c]
       case Holding(held, _) => held == id && t.jobs[id] == start[id] && id in t.locks
       case Done(result, began) =>
         result == Some(id) && t.jobs[id] == ClaimRow(start[id], c, began, leaseSeconds) && id !in t.locks
       case _ => false
  }

  /** A scan still has every free row ahead of it, in order. */
  predicate ScanOk(t: Table, start: map<JobId, Job>, queue: seq<JobId>, rest: seq<JobId>) {
    && (forall k :: 0 <= k < |rest| ==> rest[k] in queue && rest[k] in start)
    && (forall j, k :: 0 <= j < k < |rest| ==> Before(start, rest[j], rest[k]))
    && (forall i :: |t.order| <= i < |queue| ==> queue[i] in rest)
  }

  predicate OthersOk(t: Table, start: map<JobId, Job>, queue: seq<JobId>, c: WorkerId)
    requires c in t.claimers
  {
    match t.claimers[c]
    case Waiting => c !in t.order
    case Scanning(rest, _) => c !in t.order && ScanOk(t, start, queue, rest)
    case Holding(_, _) => c in t.order
    case Done(result, _) => if result.Some? then c in t.order else c !in t.order && |t.order| == |queue|
  }

  predicate NoRepeats(order: seq<WorkerId>) {
    forall i, j :: 0 <= i < j < |order| ==> order[i] != order[j]
  }

  predicate Split(t: Table, start: map<JobId, Job>, queue: seq<JobId>, build: Build, leaseSeconds: nat) {
    && IsListing(queue, start, build)
    && t.jobs.Keys == start.Keys
    && |t.order| <= |queue|
    && NoRepeats(t.order)
    && (forall i :: 0 <= i < |queue| ==> Slot(t, start, queue, i, leaseSeconds))
    && (forall id | id in start && id !in queue :: t.jobs[id] == start[id])
    && (forall id | id in t.locks :: id in queue)
    && (forall c | c in t.claimers :: OthersOk(t, start, queue, c))
  }

  predicate Quiet(e: Event) {
    !e.JoinLock? && !e.JoinRelease?
  }

  lemma BeginKeepsSplit(
    t: Table, c: WorkerId, listing: seq<JobId>, at: Time, start: map<JobId, Job>, queue: seq<JobId>,
    build: Build, leaseSeconds: nat)
    requires Split(t, start, queue, build, leaseSeconds) && Enabled(t, Begin(c, listing, at), build)
    ensures Split(Apply(t, Begin(c, listing, at), build, leaseSeconds), start, queue, build, leaseSeconds)
  {
    var u := Apply(t, Begin(c, listing, at), build, leaseSeconds);
    forall id | id in start
      ensures t.jobs[id].createdAt == start[id].createdAt
      ensures Claimable(t.jobs, build, id) ==> id in queue
    {
      if id in queue {
        var i :| 0 <= i < |queue| && queue[i] == id;
        assert Slot(t, start, queue, i, leaseSeconds);
      }
    }
    forall i | |t.order| <= i < |queue|
      ensures queue[i] in listing
    {
      assert Slot(t, start, queue, i, leaseSeconds);
      assert Claimable(t.jobs, build, queue[i]);
    }
    assert ScanOk(u, start, queue, listing);
    OnlyThisClaimer(t, u, c, start, queue, build, leaseSeconds);
  }

  /** A step of claimer `c` that touches no row, lock or order keeps everything but what it says about `c`. */
  lemma OnlyThisClaimer(
    t: Table, u: Table, c: WorkerId, start: map<JobId, Job>, queue: seq<JobId>, build: Build, leaseSeconds: nat)
    requires Split(t, start, queue, build, leaseSeconds) && c in t.claimers && c !in t.order
    requires c in u.claimers && u == t.(claimers := t.claimers[c := u.claimers[c]])
    requires OthersOk(u, start, queue, c)
    ensures Split(u, start, queue, build, leaseSeconds)
  {
    forall i | 0 <= i < |queue|
      ensures Slot(u, start, queue, i, leaseSeconds)
    {
      assert Slot(t, start, queue, i, leaseSeconds);
    }
    forall d | d in u.claimers
      ensures OthersOk(u, start, queue, d)
    {
      assert d != c ==> OthersOk(t, start, queue, d);
    }
  }

  /** A row at the head of a scan is the front of what is left of the queue, or gone already. */
  lemma HeadOfScan(
    t: Table, rest: seq<JobId>, start: map<JobId, Job>, queue: seq<JobId>, build: Build, leaseSeconds: nat)
    requires Split(t, start, queue, build, leaseSeconds) && ScanOk(t, start, queue, rest) && rest != []
    ensures if rest[0] in t.locks || !Claimable(t.jobs, build, rest[0])
            then rest[0] !in queue[|t.order|..]
            else |t.order| < |queue| && rest[0] == queue[|t.order|]
  {
    var n := |t.order|;
    assert rest[0] in queue;
    var j :| 0 <= j < |queue| && queue[j] == rest[0];
    assert Slot(t, start, queue, j, leaseSeconds);
    assert Claimable(start, build, queue[j]);
    forall i | n <= i < |queue|
      ensures queue[i] !in t.locks && Claimable(t.jobs, build, queue[i])
    {
      assert Slot(t, start, queue, i, leaseSeconds);
      assert Claimable(start, build, queue[i]);
    }
    if j < n {
      assert SlotTaken(t, start, queue[j], t.order[j], leaseSeconds);
      assert forall i :: n <= i < |queue| ==> Before(start, queue[j], queue[i]);
    } else {
      assert queue[n] in rest;
      assert j > n ==> Before(start, queue[n], queue[j]);
    }
  }

  lemma StillInRest(rest: seq<JobId>, queue: seq<JobId>, n: nat)
    requires rest != [] && n <= |queue| && rest[0] !in queue[n..]
    requires forall i :: n <= i < |queue| ==> queue[i] in rest
    ensures forall i :: n <= i < |queue| ==> queue[i] in rest[1..]
  {
    forall i | n <= i < |queue|
      ensures queue[i] in rest[1..]
    {
      assert queue[i] in queue[n..];
      assert rest == [rest[0]] + rest[1..];
    }
  }

  lemma PassOverKeepsSplit(
    t: Table, c: WorkerId, start: map<JobId, Job>, queue: seq<JobId>, build: Build, leaseSeconds: nat)
    requires Split(t, start, queue, build, leaseSeconds) && Enabled(t, Examine(c), build)
    requires t.claimers[c].rest[0] in t.locks || !Claimable(t.jobs, build, t.claimers[c].rest[0])
    ensures Split(Apply(t, Examine(c), build, leaseSeconds), start, queue, build, leaseSeconds)
  {
    var rest := t.claimers[c].rest;
    assert OthersOk(t, start, queue, c);
    HeadOfScan(t, rest, start, queue, build, leaseSeconds);
    var u := Apply(t, Examine(c), build, leaseSeconds);
    StillInRest(rest, queue, |t.order|);
    OnlyThisClaimer(t, u, c, start, queue, build, leaseSeconds);
  }

  lemma LockKeepsSplit(
    t: Table, c: WorkerId, start: map<JobId, Job>, queue: seq<JobId>, build: Build, leaseSeconds: nat)
    requires Split(t, start, queue, build, leaseSeconds) && Enabled(t, Examine(c), build)
    requires t.claimers[c].rest[0] !in t.locks && Claimable(t.jobs, build, t.claimers[c].rest[0])
    ensures Split(Apply(t, Examine(c), build, leaseSeconds), start, queue, build, leaseSeconds)
  {
    var rest, n := t.claimers[c].rest, |t.order|;
    assert OthersOk(t, start, queue, c);
    HeadOfScan(t, rest, start, queue, build, leaseSeconds);
    var u := Apply(t, Examine(c), build, leaseSeconds);
    forall i | 0 <= i < |queue|
      ensures Slot(u, start, queue, i, leaseSeconds)
    {
      assert Slot(t, start, queue, i, leaseSeconds);
      assert i != n ==> queue[i] != queue[n] by {
        assert i < n ==> Before(start, queue[i], queue[n]);
        assert n < i ==> Before(start, queue[n], queue[i]);
      }
      assert i < n ==> u.order[i] == t.order[i] && t.order[i] != c;
    }
    forall d | d in u.claimers
      ensures OthersOk(u, start, queue, d)
    {
      assert OthersOk(t, start, queue, d);
    }
  }

  lemma CommitKeepsSplit(
    t: Table, c: WorkerId, start: map<JobId, Job>, queue: seq<JobId>, build: Build, leaseSeconds: nat)
    requires Split(t, start, queue, build, leaseSeconds) && Enabled(t, Commit(c), build)
    ensures Split(Apply(t, Commit(c), build, leaseSeconds), start, queue, build, leaseSeconds)
  {
    var u := Apply(t, Commit(c), build, leaseSeconds);
    assert OthersOk(t, start, queue, c);
    var k :| 0 <= k < |t.order| && t.order[k] == c;
    assert Slot(t, start, queue, k, leaseSeconds);
    var id := queue[k];
    forall i | 0 <= i < |queue|
      ensures Slot(u, start, queue, i, leaseSeconds)
    {
      assert Slot(t, start, queue, i, leaseSeconds);
      assert i != k ==> queue[i] != id by {
        assert i < k ==> Before(start, queue[i], queue[k]);
        assert k < i ==> Before(start, queue[k], queue[i]);
      }
      assert i < |t.order| && i != k ==> t.order[i] != c;
    }
    forall d | d in u.claimers
      ensures OthersOk(u, start, queue, d)
    {
      assert OthersOk(t, start, queue, d);
    }
  }

  lemma FreeRowsAreAhead(t: Table, start: map<JobId, Job>, queue: seq<JobId>, rest: seq<JobId>)
    requires ScanOk(t, start, queue, rest)
    ensures |t.order| < |queue| ==> rest != []
  {
    if |t.order| < |queue| {
      assert queue[|t.order|] in rest;
    }
  }

  lemma StepKeepsSplit(t: Table, e: Event, start: map<JobId, Job>, queue: seq<JobId>, build: Build, leaseSeconds: nat)
    requires Split(t, start, queue, build, leaseSeconds) && Enabled(t, e, build) && Quiet(e)
    ensures Split(Apply(t, e, build, leaseSeconds), start, queue, build, leaseSeconds)
  {
    match e
    case Begin(c, listing, at) => BeginKeepsSplit(t, c, listing, at, start, queue, build, leaseSeconds);
    case Examine(c) =>
      var id := t.claimers[c].rest[0];
      if id in t.locks || !Claimable(t.jobs, build, id) {
        PassOverKeepsSplit(t, c, start, queue, build, leaseSeconds);
      } else {
        LockKeepsSplit(t, c, start, queue, build, leaseSeconds);
      }
    case FindNothing(c) =>
      assert OthersOk(t, start, queue, c);
      FreeRowsAreAhead(t, start, queue, t.claimers[c].rest);
      OnlyThisClaimer(t, Apply(t, e, build, leaseSeconds), c, start, queue, build, leaseSeconds);
    case Commit(c) => CommitKeepsSplit(t, c, start, queue, build, leaseSeconds);
  }

  lemma {:induction false} RunKeepsSplit(
    ts: seq<Table>, es: seq<Event>, queue: seq<JobId>, build: Build, leaseSeconds: nat, n: nat)
    requires IsRun(ts, es, build, leaseSeconds) && n <= |es|
    requires IsListing(queue, ts[0].jobs, build)
    requires forall i :: 0 <= i < n ==> Quiet(es[i])
    ensures Split(ts[n], ts[0].jobs, queue, build, leaseSeconds)
    ensures ts[n].claimers.Keys == ts[0].claimers.Keys
  {
    if n > 0 {
      RunKeepsSplit(ts, es, queue, build, leaseSeconds, n - 1);
      StepKeepsSplit(ts[n - 1], es[n - 1], ts[0].jobs, queue, build, leaseSeconds);
    }
  }

  lemma {:induction false} NoRepeatsSize(order: seq<WorkerId>, all: set<WorkerId>)
    requires NoRepeats(order) && forall i :: 0 <= i < |order| ==> order[i] in all
    ensures |order| <= |all|
    ensures (forall c | c in all :: c in order) ==> |order| == |all|
  {
    if order == [] {
      if c :| c in all {
        assert c !in order;
      }
    } else {
      var n := |order| - 1;
      NoRepeatsSize(order[..n], all - {order[n]});
      assert order == order[..n] + [order[n]];
    }
  }

  /** Claimer `c` got row `id` and nothing else happened to that row. */
  predicate Got(start: Table, end: Table, c: WorkerId, id: JobId, leaseSeconds: nat) {
    && c in end.claimers && end.claimers[c].Done? && end.claimers[c].result == Some(id)
    && id in start.jobs && id in end.jobs
    && end.jobs[id] == ClaimRow(start.jobs[id], c, end.claimers[c].began, leaseSeconds)
  }

  /** The first rows of the queue went to the claimers in the order they locked; everything else is as it was. */
  predicate Partitioned(start: Table, end: Table, queue: seq<JobId>, leaseSeconds: nat) {
    && end.claimers.Keys == start.claimers.Keys
    && end.jobs.Keys == start.jobs.Keys
    && |end.order| == (if |start.claimers| <= |queue| then |start.claimers| else |queue|)
    && NoRepeats(end.order)
    && (forall i :: 0 <= i < |end.order| ==> Got(start, end, end.order[i], queue[i], leaseSeconds))
    && (forall c | c in end.claimers && c !in end.order :: end.claimers[c].Done? && end.claimers[c].result == None)
    && (forall id | id in start.jobs && id !in queue[..|end.order|] :: end.jobs[id] == start.jobs[id])
  }

  lemma RowsOutsideStay(
    end: Table, start: map<JobId, Job>, queue: seq<JobId>, build: Build, leaseSeconds: nat, id: JobId)
    requires Split(end, start, queue, build, leaseSeconds)
    requires id in start
    ensures id in queue[..|end.order|] || end.jobs[id] == start[id]
  {
    if id in queue {
      var i :| 0 <= i < |queue| && queue[i] == id;
      assert Slot(end, start, queue, i, leaseSeconds);
      if i < |end.order| {
        assert queue[..|end.order|][i] == id;
      }
    }
  }

  lemma AllDoneCount(end: Table, start: map<JobId, Job>, queue: seq<JobId>, build: Build, leaseSeconds: nat)
    requires Split(end, start, queue, build, leaseSeconds)
    requires forall c | c in end.claimers :: end.claimers[c].Done?
    ensures |end.order| == (if |end.claimers| <= |queue| then |end.claimers| else |queue|)
    ensures forall c | c in end.claimers && c !in end.order :: end.claimers[c].result == None
  {
    forall c | c in end.claimers
      ensures end.claimers[c].result.Some? ==> c in end.order
      ensures end.claimers[c].result == None ==> |end.order| == |queue|
    {
      assert OthersOk(end, start, queue, c);
    }
    forall i | 0 <= i < |end.order|
      ensures end.order[i] in end.claimers.Keys
    {
      assert Slot(end, start, queue, i, leaseSeconds);
    }
    NoRepeatsSize(end.order, end.claimers.Keys);
  }

  /**
   Any interleaving of overlapping claims for one build, once all have committed and with no
   join in between, splits the queue from the front: `n` claimers and `q` matching rows give
   exactly the `min(n, q)` first rows to as many distinct claimers, the `i`-th to lock getting
   the `i`-th row, and change nothing else.
   */
  lemma ConcurrentClaimsPartition(ts: seq<Table>, es: seq<Event>, queue: seq<JobId>, build: Build, leaseSeconds: nat)
    requires IsRun(ts, es, build, leaseSeconds)
    requires IsListing(queue, ts[0].jobs, build)
    requires forall i :: 0 <= i < |es| ==> Quiet(es[i])
    requires forall c | c in ts[|es|].claimers :: ts[|es|].claimers[c].Done?
    ensures Partitioned(ts[0], ts[|es|], queue, leaseSeconds)
  {
    RunKeepsSplit(ts, es, queue, build, leaseSeconds, |es|);
    var start, end := ts[0], ts[|es|];
    AllDoneCount(end, start.jobs, queue, build, leaseSeconds);
    forall i | 0 <= i < |end.order|
      ensures Got(start, end, end.order[i], queue[i], leaseSeconds)
    {
      assert Slot(end, start.jobs, queue, i, leaseSeconds);
    }
    forall id | id in start.jobs && id !in queue[..|end.order|]
      ensures end.jobs[id] == start.jobs[id]
    {
      RowsOutsideStay(end, start.jobs, queue, build, leaseSeconds, id);
    }
  }

  /** The claimer came away empty-handed from a queue that still holds a row for it. */
  ghost predicate MissesARow(ts: seq<Table>, es: seq<Event>, c: WorkerId, id: JobId, build: Build, leaseSeconds: nat) {
    && IsRun(ts, es, build, leaseSeconds)
    && var end := ts[|es|];
       c in end.claimers && end.claimers[c].Done? && end.claimers[c].result == None && Claimable(end.jobs, build, id)
  }

  /**
   With a join holding the only queued row for a moment, a claimer can find nothing although the
   queue is not empty.
  */
  lemma JoinHidesARow(start: Table, c: WorkerId, id: JobId, at: Time, build: Build, leaseSeconds: nat)
    requires Init(start) && c in start.claimers && IsListing([id], start.jobs, build)
    ensures exists ts, es :: MissesARow(ts, es, c, id, build, leaseSeconds)
  {
    var es := [Begin(c, [id], at), JoinLock(id), Examine(c), FindNothing(c)];
    var t1 := Apply(start, es[0], build, leaseSeconds);
    assert Claimable(start.jobs, build, [id][0]);
    var t2 := Apply(t1, es[1], build, leaseSeconds);
    var t3 := Apply(t2, es[2], build, leaseSeconds);
    var t4 := Apply(t3, es[3], build, leaseSeconds);
    assert MissesARow([start, t1, t2, t3, t4], es, c, id, build, leaseSeconds);
  }

  // ---------------------------------------------------------------- what a join hides

  /** In this step `c` examines row `id` and passes it over because a join has it locked. */
  predicate JoinBlocks(t: Table, e: Event, c: WorkerId, id: JobId) {
    && e == Examine(c) && c in t.claimers && t.claimers[c].Scanning?
    && t.claimers[c].rest != [] && t.claimers[c].rest[0] == id
    && id in t.locks && t.locks[id].ByJoin?
  }

  /** Some step before state `n` did that. */
  ghost predicate PassedOver(ts: seq<Table>, es: seq<Event>, n: nat, c: WorkerId, id: JobId)
    requires n <= |es| < |ts|
  {
    exists i :: 0 <= i < n && JoinBlocks(ts[i], es[i], c, id)
  }

  /** `c` is done and was left without a row, or with one that row `id` comes before. */
  predicate Missed(t: Table, c: WorkerId, id: JobId)
    requires c in t.claimers && t.claimers[c].Done? && id in t.jobs
  {
    var result := t.claimers[c].result;
    result.None? || (result.value in t.jobs && Before(t.jobs, id, result.value))
  }

  predicate SamePlaces(a: map<JobId, Job>, b: map<JobId, Job>) {
    a.Keys == b.Keys && forall id | id in a :: a[id].createdAt == b[id].createdAt
  }

  /** The rows of a scan in claim order. */
  predicate Sorted(rows: seq<JobId>, jobs: map<JobId, Job>) {
    && (forall i :: 0 <= i < |rows| ==> rows[i] in jobs)
    && (forall i, j :: 0 <= i < j < |rows| ==> Before(jobs, rows[i], rows[j]))
  }

  /** Where claimer `x` stands with row `id`, which nobody takes: still ahead, or passed over. */
  predicate Sees(x: Claimer, jobs: map<JobId, Job>, id: JobId, passed: bool)
    requires id in jobs
  {
    match x
    case Waiting => !passed
    case Scanning(rest, _) =>
      Sorted(rest, jobs) && if passed then forall r | r in rest :: Before(jobs, id, r) else id in rest
    case Holding(h, _) => h in jobs && h != id && (passed <==> Before(jobs, id, h))
    case Done(None, _) => passed
    case Done(Some(h), _) => h in jobs && h != id && (passed <==> Before(jobs, id, h))
  }

  /** Nobody has the row, or is about to. */
  predicate Untaken(t: Table, id: JobId, build: Build) {
    Claimable(t.jobs, build, id) && (id in t.locks ==> t.locks[id].ByJoin?)
  }

  /** A row is never given back during a run of claims. */
  lemma {:induction false} UntakenBefore(
    ts: seq<Table>, es: seq<Event>, id: JobId, build: Build, leaseSeconds: nat, m: nat, n: nat)
    requires IsRun(ts, es, build, leaseSeconds) && m <= n <= |es| && Untaken(ts[n], id, build)
    ensures Untaken(ts[m], id, build)
    decreases n - m
  {
    if m < n {
      RunKeepsHolders(ts, es, build, leaseSeconds, n - 1);
      assert es[n - 1].Commit? ==> ClaimerOk(ts[n - 1], es[n - 1].c);
      UntakenBefore(ts, es, id, build, leaseSeconds, m, n - 1);
    }
  }

  lemma {:induction false} PlacesStay(ts: seq<Table>, es: seq<Event>, build: Build, leaseSeconds: nat, n: nat)
    requires IsRun(ts, es, build, leaseSeconds) && n <= |es|
    ensures SamePlaces(ts[0].jobs, ts[n].jobs)
  {
    if n > 0 {
      PlacesStay(ts, es, build, leaseSeconds, n - 1);
      assert Enabled(ts[n - 1], es[n - 1], build);
    }
  }

  lemma ListingIsSorted(listing: seq<JobId>, jobs: map<JobId, Job>, now: map<JobId, Job>, build: Build)
    requires IsListing(listing, now, build) && SamePlaces(jobs, now)
    ensures Sorted(listing, jobs)
  {
    forall i, j | 0 <= i < j < |listing|
      ensures Before(jobs, listing[i], listing[j])
    {
      assert Before(now, listing[i], listing[j]);
    }
  }

  lemma ExamineKeepsSight(
    t: Table, c: WorkerId, jobs: map<JobId, Job>, id: JobId, passed: bool, build: Build, leaseSeconds: nat)
    requires Enabled(t, Examine(c), build) && id in jobs && Untaken(t, id, build)
    requires Untaken(Apply(t, Examine(c), build, leaseSeconds), id, build)
    requires Sees(t.claimers[c], jobs, id, passed)
    ensures var u := Apply(t, Examine(c), build, leaseSeconds);
      Sees(u.claimers[c], jobs, id, passed || JoinBlocks(t, Examine(c), c, id))
  {
    var rest := t.claimers[c].rest;
    assert rest[0] != id ==> rest[0] in jobs;
    forall r | r in rest[1..]
      ensures r in rest && Before(jobs, rest[0], r)
    {
      var k :| 0 <= k < |rest[1..]| && rest[1..][k] == r;
      assert Before(jobs, rest[0], rest[k + 1]);
    }
    assert id in rest && rest[0] != id ==> id in rest[1..];
  }

  lemma StepKeepsSight(
    t: Table, e: Event, c: WorkerId, jobs: map<JobId, Job>, id: JobId, passed: bool, build: Build,
    leaseSeconds: nat)
    requires Enabled(t, e, build) && c in t.claimers && SamePlaces(jobs, t.jobs)
    requires Untaken(t, id, build) && Untaken(Apply(t, e, build, leaseSeconds), id, build)
    requires Sees(t.claimers[c], jobs, id, passed)
    ensures Sees(Apply(t, e, build, leaseSeconds).claimers[c], jobs, id, passed || JoinBlocks(t, e, c, id))
  {
    if e == Examine(c) {
      ExamineKeepsSight(t, c, jobs, id, passed, build, leaseSeconds);
    } else if e.Begin? && e.c == c {
      ListingIsSorted(e.listing, jobs, t.jobs, build);
    }
  }

  lemma PassedOverNext(ts: seq<Table>, es: seq<Event>, n: nat, c: WorkerId, id: JobId)
    requires n < |es| < |ts|
    ensures PassedOver(ts, es, n + 1, c, id) <==> PassedOver(ts, es, n, c, id) || JoinBlocks(ts[n], es[n], c, id)
  {
  }

  lemma {:induction false} RunKeepsSight(
    ts: seq<Table>, es: seq<Event>, c: WorkerId, id: JobId, build: Build, leaseSeconds: nat, n: nat)
    requires IsRun(ts, es, build, leaseSeconds) && n <= |es|
    requires c in ts[0].claimers && Untaken(ts[n], id, build)
    ensures id in ts[0].jobs && c in ts[n].claimers
    ensures Sees(ts[n].claimers[c], ts[0].jobs, id, PassedOver(ts, es, n, c, id))
  {
    UntakenBefore(ts, es, id, build, leaseSeconds, 0, n);
    if n > 0 {
      UntakenBefore(ts, es, id, build, leaseSeconds, n - 1, n);
      RunKeepsSight(ts, es, c, id, build, leaseSeconds, n - 1);
      PlacesStay(ts, es, build, leaseSeconds, n - 1);
      PassedOverNext(ts, es, n - 1, c, id);
      assert ts[n] == Apply(ts[n - 1], es[n - 1], build, leaseSeconds);
      StepKeepsSight(ts[n - 1], es[n - 1], c, ts[0].jobs, id, PassedOver(ts, es, n - 1, c, id), build, leaseSeconds);
    }
  }

  /**
   What joins can hide, exactly: a claimer misses a row that is still queued in the end if and
   only if it examined that row while a join had it locked. Without such a moment claims are FIFO.
  */
  lemma MissedIffPassedOver(ts: seq<Table>, es: seq<Event>, c: WorkerId, id: JobId, build: Build, leaseSeconds: nat)
    requires IsRun(ts, es, build, leaseSeconds)
    requires forall d | d in ts[|es|].claimers :: ts[|es|].claimers[d].Done?
    requires c in ts[|es|].claimers && Claimable(ts[|es|].jobs, build, id)
    ensures id in ts[0].jobs
    ensures Missed(ts[|es|], c, id) <==> PassedOver(ts, es, |es|, c, id)
  {
    var n := |es|;
    RunKeepsHolders(ts, es, build, leaseSeconds, n);
    assert id in ts[n].locks && ts[n].locks[id].ByClaimer? ==> HeldBy(ts[n], id, ts[n].locks[id].c);
    RunKeepsSight(ts, es, c, id, build, leaseSeconds, n);
    PlacesStay(ts, es, build, leaseSeconds, n);
  }
}
