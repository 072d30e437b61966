/** The attempts a build's live jobs have left, and how that total moves. */
module Remaining {
  import opened Wrappers
  import opened Contract
  import opened Tables
  import opened Statements

  ghost function Sum(m: map<JobId, nat>): nat {
    if m == map[] then 0
    else
      var k :| k in m;
      m[k] + Sum(m - {k})
  }

  lemma {:induction false} SumRemove(m: map<JobId, nat>, x: JobId)
    requires x in m
    ensures Sum(m) == m[x] + Sum(m - {x})
    decreases |m|
  {
    var k :| k in m && Sum(m) == m[k] + Sum(m - {k});
    if k != x {
      SumRemove(m - {k}, x);
      SumRemove(m - {x}, k);
      assert m - {k} - {x} == m - {x} - {k};
    }
  }

  predicate Below(a: map<JobId, nat>, b: map<JobId, nat>) {
    forall k | k in a :: a[k] <= if k in b then b[k] else 0
  }

  lemma {:induction false} SumBelow(a: map<JobId, nat>, b: map<JobId, nat>)
    requires Below(a, b)
    ensures Sum(a) <= Sum(b)
    decreases |a|
  {
    if a != map[] {
      var k :| k in a;
      SumRemove(a, k);
      if k in b {
        SumRemove(b, k);
        SumBelow(a - {k}, b - {k});
      } else {
        SumBelow(a - {k}, b);
      }
    }
  }

  lemma SumStrictlyBelow(a: map<JobId, nat>, b: map<JobId, nat>, x: JobId)
    requires Below(a, b) && x in a && x in b && a[x] + 1 <= b[x]
    ensures Sum(a) + 1 <= Sum(b)
  {
    SumRemove(a, x);
    SumRemove(b, x);
    SumBelow(a - {x}, b - {x});
  }

  /** A place in the queue; `None` stands for its end. */
  datatype Place = Place(createdAt: Time, id: JobId)

  predicate Precedes(j: Job, id: JobId, limit: Option<Place>) {
    limit.None? || j.createdAt < limit.value.createdAt || (j.createdAt == limit.value.createdAt && id < limit.value.id)
  }

  /** The attempts left to a live job of the build ahead of the limit. */
  function Weight(j: Job, id: JobId, cap: nat, build: Build, limit: Option<Place>): nat {
    if Live(j) && BuildOf(j.identity) == build && Precedes(j, id, limit) && j.attempts <= cap
    then cap - j.attempts else 0
  }

  function Weights(jobs: map<JobId, Job>, cap: nat, build: Build, limit: Option<Place>): map<JobId, nat> {
    map id | id in jobs :: Weight(jobs[id], id, cap, build, limit)
  }

  ghost function Left(jobs: map<JobId, Job>, cap: nat, build: Build, limit: Option<Place>): nat {
    Sum(Weights(jobs, cap, build, limit))
  }

  /** New rows, if any, are not ahead of the limit. */
  predicate NewRowsBehind(before: map<JobId, Job>, after: map<JobId, Job>, limit: Option<Place>) {
    forall id | id in after && id !in before :: !Precedes(after[id], id, limit)
  }

  lemma WeightNeverRises(j: Job, k: Job, id: JobId, cap: nat, build: Build, limit: Option<Place>)
    requires RowStep(j, k)
    ensures Weight(k, id, cap, build, limit) <= Weight(j, id, cap, build, limit)
  {
  }

  lemma StepsWeigh(before: map<JobId, Job>, after: map<JobId, Job>, cap: nat, build: Build, limit: Option<Place>)
    requires JobsStep(before, after) && NewRowsBehind(before, after, limit)
    ensures Below(Weights(after, cap, build, limit), Weights(before, cap, build, limit))
  {
    forall id | id in after && id in before
      ensures Weight(after[id], id, cap, build, limit) <= Weight(before[id], id, cap, build, limit)
    {
      assert RowStep(before[id], after[id]);
      WeightNeverRises(before[id], after[id], id, cap, build, limit);
    }
  }

  /** No statement raises the total. */
  lemma LeftNeverRises(before: map<JobId, Job>, after: map<JobId, Job>, cap: nat, build: Build, limit: Option<Place>)
    requires JobsStep(before, after) && NewRowsBehind(before, after, limit)
    ensures Left(after, cap, build, limit) <= Left(before, cap, build, limit)
  {
    StepsWeigh(before, after, cap, build, limit);
    SumBelow(Weights(after, cap, build, limit), Weights(before, cap, build, limit));
  }

  /** A claim ahead of the limit spends one. */
  lemma ClaimSpendsOne(
    before: map<JobId, Job>, after: map<JobId, Job>, id: JobId, cap: nat, build: Build, limit: Option<Place>)
    requires JobsStep(before, after) && NewRowsBehind(before, after, limit)
    requires id in before && id in after && Live(before[id]) && before[id].attempts < cap
    requires after[id].attempts == before[id].attempts + 1
    requires BuildOf(before[id].identity) == build && Precedes(before[id], id, limit)
    ensures Left(after, cap, build, limit) + 1 <= Left(before, cap, build, limit)
  {
    StepsWeigh(before, after, cap, build, limit);
    assert RowStep(before[id], after[id]);
    SumStrictlyBelow(Weights(after, cap, build, limit), Weights(before, cap, build, limit), id);
  }
}
