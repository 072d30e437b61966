/**
 The database as an object whose tables the statements update in place. Each method is one SQL
 statement, tied to its specification in module Statements.
*/
module Queue {
  import opened Wrappers
  import opened Contract
  import opened Tables
  import opened Statements
  import opened Columns

  lemma FreshIdExists(used: set<nat>)
    ensures exists n: nat :: n !in used
  {
    var n := LargerThanAll(used);
    assert n !in used;
  }

  lemma {:induction false} LargerThanAll(used: set<nat>) returns (n: nat)
    ensures forall k | k in used :: k < n
    decreases |used|
  {
    if used == {} {
      n := 0;
    } else {
      var x :| x in used;
      var m := LargerThanAll(used - {x});
      n := if x < m then m else x + 1;
      assert forall k | k in used :: k == x || k in used - {x};
    }
  }

  ghost predicate Leads(jobs: map<JobId, Job>, ids: set<JobId>, id: JobId)
    requires forall k | k in ids :: k in jobs
  {
    id in ids && forall k | k in ids && k != id :: Before(jobs, id, k)
  }

  /** Of a row and the front of the others, the earlier one leads them all. */
  lemma EarlierLeads(jobs: map<JobId, Job>, ids: set<JobId>, x: JobId, id: JobId)
    requires forall k | k in ids :: k in jobs
    requires x in ids && Leads(jobs, ids - {x}, id)
    ensures Leads(jobs, ids, if Before(jobs, x, id) then x else id)
  {
    assert forall k | k in ids && k != x :: k in ids - {x};
  }

  /** Rows waiting have a front. */
  lemma {:induction false} FrontExists(jobs: map<JobId, Job>, ids: set<JobId>)
    requires ids != {} && forall id | id in ids :: id in jobs
    ensures exists id :: Leads(jobs, ids, id)
    decreases |ids|
  {
    var x :| x in ids;
    if exists y :: y in ids && y != x {
      var y :| y in ids && y != x;
      assert y in ids - {x};
      FrontExists(jobs, ids - {x});
      var id :| Leads(jobs, ids - {x}, id);
      EarlierLeads(jobs, ids, x, id);
    } else {
      assert Leads(jobs, ids, x);
    }
  }

  /** Whenever the build has a claimable row, one of them is the head. */
  lemma HeadExists(jobs: map<JobId, Job>, build: Build, queued: set<JobId>)
    requires queued != {} && forall id :: id in queued <==> Claimable(jobs, build, id)
    ensures exists id :: id in queued && IsHead(jobs, build, id)
  {
    FrontExists(jobs, queued);
    var id :| Leads(jobs, queued, id);
    assert IsHead(jobs, build, id);
  }

  /** The oldest of the jobs that wait for this build; of two created together the one with the smaller id. */
  predicate FirstInLine(jobs: map<JobId, Job>, build: Build, id: JobId) {
    && id in jobs && WaitsFor(jobs[id], build)
    && forall k | k in jobs && k != id && WaitsFor(jobs[k], build) ::
         || jobs[id].createdAt < jobs[k].createdAt
         || (jobs[id].createdAt == jobs[k].createdAt && id < k)
  }

  lemma HeadIsFirst(jobs: map<JobId, Job>, build: Build, id: JobId)
    ensures IsHead(jobs, build, id) <==> FirstInLine(jobs, build, id)
  {
    forall k | k in jobs
      ensures Claimable(jobs, build, k) <==> WaitsFor(jobs[k], build)
    {
    }
  }

  lemma NobodyWaits(jobs: map<JobId, Job>, build: Build)
    ensures (forall id :: !Claimable(jobs, build, id)) <==> forall id | id in jobs :: !WaitsFor(jobs[id], build)
  {
    forall k | k in jobs
      ensures Claimable(jobs, build, k) <==> WaitsFor(jobs[k], build)
    {
    }
  }

  /** At most a reclaim of an expired lease happened to the row. */
  ghost predicate Reclaimed(j: Job, k: Job, cap: nat) {
    k == j || exists t: Time :: Expired(j, t) && RowReclaimed(j, k, cap, t)
  }

  /** Abandoned jobs were reclaimed, all of them, and no other row changed. */
  predicate AbandonedReclaimed(before: map<JobId, Job>, after: map<JobId, Job>, cap: nat, now: Time) {
    && after.Keys == before.Keys
    && forall id | id in before ::
         if Abandoned(before[id], now) then RowReclaimed(before[id], after[id], cap, now)
         else after[id] == before[id]
  }

  lemma ReclaimColumns(db: Db, cap: nat, now: Time)
    ensures var jobs := Reclaim(db, cap, now).jobs;
      && AbandonedReclaimed(db.jobs, jobs, cap, now)
      && Reclaims(db.jobs, jobs, {}, cap)
      && forall id | id in jobs :: !Expired(jobs[id], now)
  {
    var jobs := Reclaim(db, cap, now).jobs;
    forall id | id in db.jobs
      ensures if Abandoned(db.jobs[id], now) then RowReclaimed(db.jobs[id], jobs[id], cap, now)
              else jobs[id] == db.jobs[id]
      ensures Reclaimed(db.jobs[id], jobs[id], cap) && !Expired(jobs[id], now)
    {
      ReclaimColumn(db.jobs[id], cap, now);
    }
  }

  lemma ReclaimColumn(j: Job, cap: nat, now: Time)
    ensures Abandoned(j, now) <==> Expired(j, now)
    ensures Expired(j, now) ==>
      RowReclaimed(j, ReclaimRow(j, cap, now), cap, now) && Reclaimed(j, ReclaimRow(j, cap, now), cap)
  {
  }

  /** Nothing but reclaims happened, to rows other than those in `but`. */
  ghost predicate Reclaims(before: map<JobId, Job>, after: map<JobId, Job>, but: set<JobId>, cap: nat) {
    && after.Keys == before.Keys
    && forall id | id in before && id !in but :: Reclaimed(before[id], after[id], cap)
  }

  /** A reclaimed row is not running, so it is not reclaimed again. */
  lemma ReclaimsCompose(a: map<JobId, Job>, b: map<JobId, Job>, c: map<JobId, Job>, but: set<JobId>, cap: nat)
    requires Reclaims(a, b, but, cap) && Reclaims(b, c, but, cap)
    ensures Reclaims(a, c, but, cap)
  {
  }

  lemma OneRowChanges(before: map<JobId, Job>, after: map<JobId, Job>, id: JobId, cap: nat)
    requires id in before && after.Keys == before.Keys && after - {id} == before - {id}
    ensures Reclaims(before, after, {id}, cap)
  {
    forall k | k in before && k != id
      ensures after[k] == before[k]
    {
      assert (after - {id})[k] == (before - {id})[k];
    }
  }

  class Database {
    var replays: map<string, Replay>
    var analyses: map<AnalysisId, Analysis>
    var jobs: map<JobId, Job>
    var now: Time
    /** How many rows `ClaimJob` has handed out. */
    ghost var claims: nat

    ghost function View(): Db
      reads this
    {
      Db(replays, analyses, jobs)
    }

    ghost predicate Valid(cap: nat)
      reads this
    {
      1 <= cap && DbOk(View(), cap)
    }

    constructor (at: Time)
      ensures View() == EMPTY && now == at && claims == 0
      ensures forall cap: nat | 1 <= cap :: Valid(cap)
    {
      replays, analyses, jobs, now, claims := map[], map[], map[], at, 0;
    }

    /** The inner `SELECT`: the front of the build's queued rows. */
    method Head(build: Build) returns (head: Option<JobId>)
      ensures match head
              case None => forall id :: !Claimable(jobs, build, id)
              case Some(id) => IsHead(jobs, build, id)
    {
      var queued := set id | id in jobs && Claimable(jobs, build, id);
      if queued == {} {
        assert forall id :: Claimable(jobs, build, id) ==> id in queued;
        return None;
      }
      HeadExists(jobs, build, queued);
      var id :| id in queued && IsHead(jobs, build, id);
      return Some(id);
    }

    method ClaimJob(w: WorkerId, leaseSeconds: nat, build: Build, ghost cap: nat) returns (claimed: Option<JobId>)
      requires Valid(cap)
      modifies this`jobs, this`claims
      ensures Valid(cap)
      ensures match claimed
              case None => View() == old(View()) && claims == old(claims) && forall id :: !Claimable(jobs, build, id)
              case Some(id) =>
                && IsHead(old(jobs), build, id)
                && View() == Claim(old(View()), id, w, now, leaseSeconds)
                && claims == old(claims) + 1
      ensures claimed.None? ==> forall id | id in jobs :: !WaitsFor(jobs[id], build)
      ensures claimed.Some? ==>
        && FirstInLine(old(jobs), build, claimed.value)
        && OnlyRow(old(jobs), jobs, claimed.value)
        && RowClaimed(old(jobs)[claimed.value], jobs[claimed.value], w, now, leaseSeconds)
    {
      claimed := Head(build);
      if claimed.Some? {
        HeadIsFirst(jobs, build, claimed.value);
        ClaimKeeps(View(), claimed.value, w, now, leaseSeconds, cap);
        TakeRow(claimed.value, w, leaseSeconds);
      } else {
        NobodyWaits(jobs, build);
      }
    }

    method TakeRow(id: JobId, w: WorkerId, leaseSeconds: nat)
      requires id in jobs
      modifies this`jobs, this`claims
      ensures View() == Claim(old(View()), id, w, now, leaseSeconds)
      ensures OnlyRow(old(jobs), jobs, id) && RowClaimed(old(jobs)[id], jobs[id], w, now, leaseSeconds)
      ensures claims == old(claims) + 1
    {
      var j := jobs[id];
      jobs := jobs[id := j.(
        status := Running, attempts := j.attempts + 1, claimedBy := Some(w), claimedAt := Some(now),
        leaseExpiresAt := Some(now + leaseSeconds * SECOND), updatedAt := now)];
      claims := claims + 1;
    }

    method HeartbeatJob(id: JobId, w: WorkerId, leaseSeconds: nat, ghost cap: nat) returns (found: bool)
      requires Valid(cap)
      modifies this`jobs
      ensures Valid(cap)
      ensures View() == Heartbeat(old(View()), id, w, now, leaseSeconds)
      ensures found <==> id in old(jobs) && old(jobs)[id].status == Running && old(jobs)[id].claimedBy == Some(w)
      ensures if found then OnlyRow(old(jobs), jobs, id) && RowRenewed(old(jobs)[id], jobs[id], now, leaseSeconds)
              else jobs == old(jobs)
    {
      found := id in jobs && jobs[id].status == Running && jobs[id].claimedBy == Some(w);
      if found {
        jobs := jobs[id := jobs[id].(leaseExpiresAt := Some(now + leaseSeconds * SECOND), updatedAt := now)];
      }
      assert View() == Heartbeat(old(View()), id, w, now, leaseSeconds);
      HeartbeatKeeps(old(View()), id, w, now, leaseSeconds, cap);
    }

    /** The second statement of the success transaction; it relies on the first for what it keeps. */
    method CompleteJob(id: JobId, w: WorkerId, aid: AnalysisId) returns (found: bool)
      modifies this`jobs
      ensures View() == Complete(old(View()), id, w, aid, now)
      ensures found <==> id in old(jobs) && old(jobs)[id].status == Running && old(jobs)[id].claimedBy == Some(w)
      ensures if found then OnlyRow(old(jobs), jobs, id) && RowCompleted(old(jobs)[id], jobs[id], aid, now)
              else jobs == old(jobs)
    {
      found := id in jobs && jobs[id].status == Running && jobs[id].claimedBy == Some(w);
      if found {
        jobs := jobs[id := jobs[id].(
          status := Succeeded, analysisId := Some(aid), errorKind := None, errorDetail := None,
          claimedBy := None, claimedAt := None, leaseExpiresAt := None, updatedAt := now)];
      }
    }

    /** Whether to retry is the caller's judgement; only giving up a job worth a retry breaks the invariant. */
    method FailJob(id: JobId, w: WorkerId, retryable: bool, cap: nat, kind: ErrorKind, detail: string)
      returns (found: bool)
      requires Valid(cap)
      modifies this`jobs
      ensures Valid(cap) <==> !GivesUp(old(View()), id, w, retryable, kind, cap)
      ensures View() == Fail(old(View()), id, w, retryable, kind, detail, cap, now)
      ensures found <==> id in old(jobs) && old(jobs)[id].status == Running && old(jobs)[id].claimedBy == Some(w)
      ensures if found then
                && OnlyRow(old(jobs), jobs, id)
                && RowFailed(old(jobs)[id], jobs[id], retryable, kind, detail, cap, now)
              else jobs == old(jobs)
    {
      found := id in jobs && jobs[id].status == Running && jobs[id].claimedBy == Some(w);
      if found {
        var status := if retryable && jobs[id].attempts < cap then Queued else Failed;
        jobs := jobs[id := jobs[id].(
          status := status, errorKind := Some(kind), errorDetail := Some(detail),
          claimedBy := None, claimedAt := None, leaseExpiresAt := None, updatedAt := now)];
      }
      assert View() == Fail(old(View()), id, w, retryable, kind, detail, cap, now);
      FailKeeps(old(View()), id, w, retryable, kind, detail, cap, now);
    }

    method ReclaimExpired(cap: nat)
      requires Valid(cap)
      modifies this`jobs
      ensures Valid(cap)
      ensures View() == Reclaim(old(View()), cap, now)
      ensures Reclaims(old(jobs), jobs, {}, cap)
      ensures forall id | id in jobs :: !Expired(jobs[id], now)
      ensures AbandonedReclaimed(old(jobs), jobs, cap, now)
    {
      ReclaimKeeps(View(), cap, now);
      ReclaimColumns(View(), cap, now);
      jobs := map id | id in jobs :: if Expired(jobs[id], now) then ReclaimRow(jobs[id], cap, now) else jobs[id];
    }

    /** Joins the identity's live job, or inserts one under a fresh id. */
    method EnqueueJob(identity: Identity, profile: string, turns: nat, searchMs: nat, ghost cap: nat)
      returns (id: JobId, created: bool)
      requires Valid(cap)
      modifies this`jobs
      ensures Valid(cap)
      ensures id in jobs && Live(jobs[id]) && jobs[id].identity == identity
      ensures created <==> !HasLiveJob(old(jobs), identity)
      ensures created ==>
        && id !in old(jobs) && OnlyRow(old(jobs), jobs, id)
        && RowInserted(jobs[id], identity, profile, turns, searchMs, now)
        && forall k | k in old(jobs) && old(jobs)[k].createdAt < now :: Before(jobs, k, id)
      ensures !created ==> jobs == old(jobs)
      ensures created <==> forall k | k in old(jobs) && old(jobs)[k].identity == identity ::
        old(jobs)[k].status != Queued && old(jobs)[k].status != Running
      ensures View() == Enqueue(old(View()), id, identity, profile, turns, searchMs, now)
    {
      var live := set k | k in jobs && Live(jobs[k]) && jobs[k].identity == identity;
      if live != {} {
        id :| id in live;
        created := false;
      } else {
        assert forall k :: k in jobs && Live(jobs[k]) && jobs[k].identity == identity ==> k in live;
        FreshIdExists(jobs.Keys);
        id :| id !in jobs;
        jobs := jobs[id :=
          Job(identity, profile, turns, searchMs, now, Queued, 0, None, None, None, None, None, None, now)];
        created := true;
        assert View() == Enqueue(old(View()), id, identity, profile, turns, searchMs, now);
        EnqueueKeeps(old(View()), id, identity, profile, turns, searchMs, now, cap);
      }
    }

    /** `ON CONFLICT (id) DO NOTHING`: a stored replay is never replaced. */
    method UpsertReplay(id: string, replay: Replay, ghost cap: nat)
      requires Valid(cap)
      modifies this`replays
      ensures Valid(cap)
      ensures View() == Statements.UpsertReplay(old(View()), id, replay)
      ensures replays.Keys == old(replays).Keys + {id}
      ensures replays[id] == if id in old(replays) then old(replays)[id] else replay
      ensures forall k | k in old(replays) :: replays[k] == old(replays)[k]
    {
      UpsertReplayKeeps(View(), id, replay, cap);
      if id !in replays {
        replays := replays[id := replay];
      }
    }

    /** The first statement of the success transaction. */
    method UpsertAnalysis(identity: Identity, run: AnalysisRun) returns (aid: AnalysisId)
      requires OneAnalysis(analyses)
      modifies this`analyses
      ensures UpsertTarget(old(analyses), identity, aid)
      ensures View() == Statements.UpsertAnalysis(old(View()), aid, identity, run, now)
      ensures AnalysisWritten(old(analyses), analyses, aid, identity, run.document, run.wallMs, run.degraded, now)
    {
      var same := set a | a in analyses && analyses[a].identity == identity;
      if same != {} {
        aid :| aid in same;
        analyses := analyses[aid :=
          analyses[aid].(document := run.document, wallMs := run.wallMs, degraded := run.degraded)];
      } else {
        assert forall a :: a in analyses && analyses[a].identity == identity ==> a in same;
        FreshIdExists(analyses.Keys);
        aid :| aid !in analyses;
        analyses := analyses[aid :=
          Analysis(identity, run.document, run.document.totalTurns, run.document.gradableTurns,
                   run.wallMs, run.degraded, now)];
      }
    }

    /** Time passes, and another worker may reclaim. */
    method PassTime(atLeast: nat, cap: nat)
      requires Valid(cap)
      modifies this`jobs, this`now
      ensures Valid(cap) && old(now) + atLeast <= now
      ensures Reclaims(old(jobs), jobs, {}, cap)
    {
      var later: Time :| now + atLeast <= later;
      now := later;
      var reclaims: bool := *;
      if reclaims {
        ReclaimExpired(cap);
      }
    }
  }
}
