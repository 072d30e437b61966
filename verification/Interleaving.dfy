/**
 Two submissions of one identity, interleaved so that the second one's cache check is stale
 when it enqueues: the identity is searched for, and succeeds, twice.
*/
module Interleaving {
  import opened Wrappers
  import opened Contract
  import opened Tables
  import opened Statements
  import opened Cluster
  import opened Runs
  import opened Reachability
  import Submissions

  /** Both submissions have checked the cache; the first one's job is in the queue. */
  lemma OneWaitsOneEnqueued(cap: nat, identity: Identity, replay: Replay) returns (s: State)
    requires 1 <= cap
    ensures Reachable(s) && s.db.analyses == map[] && s.db.jobs.Keys == {0} && Waiting(s, 0)
    ensures s.db.jobs[0].identity == identity && Waits(s, 1, identity)
  {
    s := State(cap, 0, EMPTY, map[], map[]);
    InitIsReachable(s);
    s := Check(s, 0, identity);
    s := Check(s, 1, identity);
    s := Prepare(s, 0, identity, replay);
    s := Enqueues(s, 0, 0);
  }

  /** The second submission is about to search for what the first job has already found. */
  predicate StaleInsertNext(s: State, identity: Identity, turns: nat) {
    && s.procs == map[] && 1 in s.subs && s.subs[1].identity == identity
    && s.db.jobs.Keys == {0} && s.db.jobs[0].status == Succeeded && s.db.jobs[0].identity == identity
    && identity.replayId in s.db.replays
    && s.db.analyses.Keys == {0} && s.db.analyses[0].identity == identity && s.db.analyses[0].totalTurns == turns
    && Submissions.StaleInsert(s, EnqueueJob(1, 1, 1, 1))
  }

  /** For any identity there is a run in which an enqueue comes after its check has gone stale. */
  lemma ChecksGoStale(cap: nat, identity: Identity, replay: Replay, turns: nat) returns (s: State)
    requires 1 <= cap
    ensures Reachable(s) && StaleInsertNext(s, identity, turns)
  {
    s := OneWaitsOneEnqueued(cap, identity, replay);
    s := Succeed(s, 0, "a", turns, 0);
    s := Prepare(s, 1, identity, replay);
  }

  /**
   For any identity there is a run in which two of its jobs succeed. The analysis then holds the
   second document beside the turn counts of the first, whatever the two are.
  */
  lemma SearchedTwice(cap: nat, identity: Identity, replay: Replay, first: nat, second: nat) returns (s: State)
    requires 1 <= cap
    ensures Reachable(s) && !Submissions.OneSucceeded(s.db.jobs)
    ensures 0 in s.db.analyses && s.db.analyses[0].identity == identity
    ensures s.db.analyses[0].totalTurns == first && s.db.analyses[0].document.totalTurns == second
  {
    s := ChecksGoStale(cap, identity, replay, first);
    s := Enqueues(s, 1, 1);
    s := Succeed(s, 1, "b", second, 0);
    assert s.db.jobs[0].status == Succeeded && s.db.jobs[1].status == Succeeded;
  }
}
