/** The jobs table over time: what a sequence of committed job tables, each a `JobsStep` from the last, implies. */
module JobHistory {
  import opened Wrappers
  import opened Contract
  import opened Tables

  type Jobs = map<JobId, Job>

  ghost predicate IsTrace(ts: seq<Jobs>) {
    forall i :: 0 <= i < |ts| - 1 ==> JobsStep(ts[i], ts[i + 1])
  }

  /** What any number of steps may do to a row. */
  predicate Later(j: Job, k: Job) {
    SameOrigin(j, k) && Epoch(j) <= Epoch(k)
  }

  lemma RowStepIsLater(j: Job, k: Job)
    requires RowStep(j, k)
    ensures Later(j, k)
    ensures Epoch(j) == Epoch(k) ==> k.status == j.status && k.claimedBy == j.claimedBy && k.attempts == j.attempts
  {
  }

  lemma LaterTransitive(a: Job, b: Job, c: Job)
    requires Later(a, b) && Later(b, c)
    ensures Later(a, c)
  {
  }

  /** A job, once there, keeps its identity and its place in the queue, and only makes progress. */
  lemma {:induction false} Progresses(ts: seq<Jobs>, m: nat, n: nat, id: JobId)
    requires IsTrace(ts) && m <= n < |ts| && id in ts[m]
    ensures id in ts[n] && Later(ts[m][id], ts[n][id])
    decreases n - m
  {
    if m < n {
      assert JobsStep(ts[m], ts[m + 1]);
      RowStepIsLater(ts[m][id], ts[m + 1][id]);
      Progresses(ts, m + 1, n, id);
      LaterTransitive(ts[m][id], ts[m + 1][id], ts[n][id]);
    }
  }

  predicate SameHold(j: Job, k: Job) {
    k.status == j.status && k.claimedBy == j.claimedBy && k.attempts == j.attempts
  }

  /** Without progress between two moments nothing about status and ownership changed in between. */
  lemma {:induction false} NoProgressNoChange(ts: seq<Jobs>, m: nat, n: nat, p: nat, id: JobId)
    requires IsTrace(ts) && m <= p <= n < |ts| && id in ts[m] && id in ts[n]
    requires Epoch(ts[m][id]) == Epoch(ts[n][id])
    ensures id in ts[p] && SameHold(ts[m][id], ts[p][id])
    decreases p - m
  {
    if m < p {
      assert JobsStep(ts[m], ts[m + 1]);
      Progresses(ts, m + 1, n, id);
      RowStepIsLater(ts[m][id], ts[m + 1][id]);
      NoProgressNoChange(ts, m + 1, n, p, id);
    }
  }

  /** Succeeded and failed rows never change again. */
  lemma {:induction false} EndedIsFinal(ts: seq<Jobs>, m: nat, n: nat, id: JobId)
    requires IsTrace(ts) && m <= n < |ts| && id in ts[m] && !Live(ts[m][id])
    ensures id in ts[n] && ts[n][id] == ts[m][id]
    decreases n - m
  {
    if m < n {
      assert JobsStep(ts[m], ts[m + 1]);
      assert RowStep(ts[m][id], ts[m + 1][id]);
      EndedIsFinal(ts, m + 1, n, id);
    }
  }

  predicate Changes(before: Jobs, after: Jobs, id: JobId) {
    id in before && id in after && before[id].status != after[id].status
  }

  function StatusChanges(ts: seq<Jobs>, id: JobId, n: nat): nat
    requires n < |ts|
  {
    if n == 0 then 0 else StatusChanges(ts, id, n - 1) + if Changes(ts[n - 1], ts[n], id) then 1 else 0
  }

  lemma OneChange(before: Jobs, after: Jobs, id: JobId)
    requires JobsStep(before, after) && id in after
    ensures Epoch(after[id]) ==
      if id in before then Epoch(before[id]) + (if Changes(before, after, id) then 1 else 0) else 1
  {
    if id in before {
      assert RowStep(before[id], after[id]);
    }
  }

  /** Progress is the number of status changes since the row was inserted. */
  lemma {:induction false} ProgressCountsChanges(ts: seq<Jobs>, id: JobId, n: nat)
    requires IsTrace(ts) && n < |ts| && ts[0] == map[]
    ensures StatusChanges(ts, id, n) == if id in ts[n] then Epoch(ts[n][id]) - 1 else 0
  {
    if n > 0 {
      ProgressCountsChanges(ts, id, n - 1);
      assert JobsStep(ts[n - 1], ts[n - 1 + 1]);
      if id in ts[n] {
        OneChange(ts[n - 1], ts[n], id);
      }
    }
  }
}
