/**
 The submission handler as it runs against the stores when nothing interleaves with it. What
 interleaving changes is the subject of module Submissions.
*/
module Routes {
  import opened Wrappers
  import opened Contract
  import opened Tables
  import opened Statements
  import opened Columns
  import Cluster
  import Queue
  import RateLimit
  import Submissions

  datatype Response =
    | Known(aid: AnalysisId)
    | RateLimited(retryAfterSeconds: int)
    | ReplayError
    | Accepted(id: JobId, created: bool)

  /** The replay a submission runs on: the stored one, else the fetched one. */
  function ReplayFor(replays: map<string, Replay>, id: string, fetched: Option<Replay>): Option<Replay> {
    if id in replays then Some(replays[id]) else fetched
  }

  /** What may change while no search is redundant: jobs of uncached identities may appear. */
  lemma InsertStaysUseful(db: Db, id: JobId, identity: Identity, profile: string, turns: nat, searchMs: nat, now: Time)
    requires Submissions.NoneRedundant(db) && id !in db.jobs
    requires forall a | a in db.analyses :: db.analyses[a].identity != identity
    ensures Submissions.NoneRedundant(Enqueue(db, id, identity, profile, turns, searchMs, now))
  {
    var after := Enqueue(db, id, identity, profile, turns, searchMs, now);
    forall k, a | k in after.jobs && a in after.analyses
      ensures !Submissions.Redundant(after, k, a)
    {
      if k in db.jobs {
        assert !Submissions.Redundant(db, k, a);
      }
    }
  }

  class Api {
    const db: Queue.Database
    const limiter: RateLimit.RateLimiter
    /** The public replay server, turn counting and the duration estimate. */
    const fetch: string -> Option<Replay>
    const estimateTurns: string -> nat
    const estimateDuration: (nat, string) -> nat

    constructor (db: Queue.Database, limiter: RateLimit.RateLimiter, fetch: string -> Option<Replay>,
                 estimateTurns: string -> nat, estimateDuration: (nat, string) -> nat)
      ensures this.db == db && this.limiter == limiter
      ensures this.fetch == fetch && this.estimateTurns == estimateTurns && this.estimateDuration == estimateDuration
    {
      this.db, this.limiter, this.fetch := db, limiter, fetch;
      this.estimateTurns, this.estimateDuration := estimateTurns, estimateDuration;
    }

    ghost predicate Ready(cap: nat)
      reads this, db, limiter, limiter.store
    {
      && db.Valid(cap)
      && Cluster.JobsHaveReplays(db.jobs, db.replays)
      && Submissions.NoneRedundant(db.View())
      && 1 <= limiter.limit && 1 <= limiter.windowMs && limiter.store.Valid(limiter.windowMs)
    }

    method AnalysisByIdentity(identity: Identity) returns (found: Option<AnalysisId>)
      ensures match found
              case None => forall a | a in db.analyses :: db.analyses[a].identity != identity
              case Some(aid) => aid in db.analyses && db.analyses[aid].identity == identity
    {
      var same := set a | a in db.analyses && db.analyses[a].identity == identity;
      if same == {} {
        assert forall a | a in db.analyses && db.analyses[a].identity == identity :: a in same;
        return None;
      }
      var aid :| aid in same;
      return Some(aid);
    }

    /**
     Answers from the cache before it charges the client; stores the replay once; joins the
     identity's live job or starts one. No answer leaves a search running whose result is known.
     The clock is read at `at` to charge the client and again, at `refusedAt`, for a refusal.
    */
    method Submit(identity: Identity, profile: string, client: string, at: int, refusedAt: int, ghost cap: nat)
      returns (response: Response)
      requires Ready(cap) && limiter.store.clock <= at
      modifies db`jobs, db`replays, limiter`lastSweep, limiter.store
      ensures Ready(cap)
      ensures response.Known? <==> Cluster.Cached(old(db.View()), identity)
      ensures response.Known? ==>
        && response.aid in db.analyses && db.analyses[response.aid].identity == identity
        && db.View() == old(db.View()) && limiter.store.history == old(limiter.store.history)
      ensures !response.Known? ==>
        && limiter.store.history == old(limiter.store.history) + [RateLimit.Entry(client, at, !response.RateLimited?)]
        && var window := RateLimit.WindowStart(at, limiter.windowMs);
           var spent := RateLimit.Accepted(old(limiter.store.history), client, window, limiter.windowMs);
           var missing := identity.replayId !in old(db.replays) && fetch(identity.replayId).None?;
           && (response.RateLimited? <==> limiter.limit <= spent)
           && (response.ReplayError? <==> spent < limiter.limit && missing)
           && (response.Accepted? <==> spent < limiter.limit && !missing)
      ensures response.RateLimited? ==>
        && db.View() == old(db.View())
        && response.retryAfterSeconds == RateLimit.RetryAfterSeconds(refusedAt, limiter.windowMs)
      ensures response.ReplayError? || response.Accepted? ==>
        Taken(old(db.View()), db.View(), identity, profile, response, db.now)
    {
      var cached := AnalysisByIdentity(identity);
      if cached.Some? {
        return Known(cached.value);
      }
      var allowed := limiter.TryConsume(client, at);
      if !allowed {
        return RateLimited(RateLimit.RetryAfterSeconds(refusedAt, limiter.windowMs));
      }
      response := Take(identity, profile, cap);
    }

    /**
     What an admitted submission leaves in the tables: the replay, stored before or fetched now,
     and a live job, either the identity's own or a new one that counts the turns of that replay.
    */
    predicate Taken(before: Db, after: Db, identity: Identity, profile: string, response: Response, now: Time) {
      var rid := identity.replayId;
      if rid !in before.replays && fetch(rid).None? then response == ReplayError && after == before
      else
        && response.Accepted? && after.analyses == before.analyses
        && after.replays == (if rid in before.replays then before.replays else before.replays[rid := fetch(rid).value])
        && var id, turns := response.id, estimateTurns(after.replays[rid].log);
           && id in after.jobs && after.jobs[id].identity == identity
           && (after.jobs[id].status == Queued || after.jobs[id].status == Running)
           && (response.created <==> forall k | k in before.jobs && before.jobs[k].identity == identity ::
                 before.jobs[k].status != Queued && before.jobs[k].status != Running)
           && if response.created then
                && OnlyRow(before.jobs, after.jobs, id) && id !in before.jobs
                && RowInserted(after.jobs[id], identity, profile, turns, estimateDuration(turns, profile), now)
              else after.jobs == before.jobs
    }

    method Take(identity: Identity, profile: string, ghost cap: nat) returns (response: Response)
      requires db.Valid(cap) && Cluster.JobsHaveReplays(db.jobs, db.replays) && Submissions.NoneRedundant(db.View())
      requires forall a | a in db.analyses :: db.analyses[a].identity != identity
      modifies db`jobs, db`replays
      ensures db.Valid(cap) && Cluster.JobsHaveReplays(db.jobs, db.replays) && Submissions.NoneRedundant(db.View())
      ensures Taken(old(db.View()), db.View(), identity, profile, response, db.now)
    {
      var replay := ReplayFor(db.replays, identity.replayId, fetch(identity.replayId));
      if replay.None? {
        return ReplayError;
      }
      db.UpsertReplay(identity.replayId, replay.value, cap);
      var id, created := Enqueue(identity, profile, estimateTurns(replay.value.log), cap);
      return Accepted(id, created);
    }

    method Enqueue(identity: Identity, profile: string, turns: nat, ghost cap: nat) returns (id: JobId, created: bool)
      requires db.Valid(cap) && Cluster.JobsHaveReplays(db.jobs, db.replays) && Submissions.NoneRedundant(db.View())
      requires identity.replayId in db.replays
      requires forall a | a in db.analyses :: db.analyses[a].identity != identity
      modifies db`jobs
      ensures db.Valid(cap) && Cluster.JobsHaveReplays(db.jobs, db.replays) && Submissions.NoneRedundant(db.View())
      ensures id in db.jobs && db.jobs[id].identity == identity
      ensures db.jobs[id].status == Queued || db.jobs[id].status == Running
      ensures created <==> forall k | k in old(db.jobs) && old(db.jobs)[k].identity == identity ::
        old(db.jobs)[k].status != Queued && old(db.jobs)[k].status != Running
      ensures if created then
                && OnlyRow(old(db.jobs), db.jobs, id) && id !in old(db.jobs)
                && RowInserted(db.jobs[id], identity, profile, turns, estimateDuration(turns, profile), db.now)
              else db.jobs == old(db.jobs)
    {
      id, created := db.EnqueueJob(identity, profile, turns, estimateDuration(turns, profile), cap);
      if created {
        InsertStaysUseful(old(db.View()), id, identity, profile, turns, estimateDuration(turns, profile), db.now);
      }
    }
  }
}
