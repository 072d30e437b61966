/**
 The fixed-window submission limiter: counters in a shared table that every instance purges
 at its own pace, against the full history of calls that the table stands in for.

 Times are whole milliseconds, as `Date.now()` gives them.
*/
module RateLimit {

  /** `rate_limit_windows`: client key and window start to count. */
  type Table = map<(string, int), nat>

  // ---------------------------------------------------------------- clock arithmetic

  function WindowStart(at: int, windowMs: int): int
    requires 1 <= windowMs
  {
    at / windowMs * windowMs
  }

  function CeilDiv(x: int, d: int): int
    requires 1 <= d
  {
    -(-x / d)
  }

  function RetryAfterSeconds(at: int, windowMs: int): int
    requires 1 <= windowMs
  {
    var wait := CeilDiv(WindowStart(at, windowMs) + windowMs - at, 1000);
    if wait < 0 then 0 else wait
  }

  lemma WindowBounds(at: int, windowMs: int)
    requires 1 <= windowMs
    ensures WindowStart(at, windowMs) <= at < WindowStart(at, windowMs) + windowMs
  {
    assert at == at / windowMs * windowMs + at % windowMs;
  }

  /** The window a time lies in is the one that starts at a whole multiple of its length and contains it. */
  lemma WindowIsAligned(at: int, windowMs: int, k: int)
    requires 1 <= windowMs
    ensures k * windowMs <= at < k * windowMs + windowMs <==> WindowStart(at, windowMs) == k * windowMs
  {
    WindowBounds(at, windowMs);
    var q := at / windowMs;
    if k < q {
      NextMultiple(k, q, windowMs);
    } else if q < k {
      NextMultiple(q, k, windowMs);
    }
  }

  lemma NextMultiple(p: int, q: int, windowMs: int)
    requires 1 <= windowMs && p < q
    ensures p * windowMs + windowMs <= q * windowMs
    ensures p + 1 < q ==> p * windowMs + windowMs + windowMs <= q * windowMs
    ensures p + 1 == q ==> p * windowMs + windowMs == q * windowMs
  {
    var k := q - p - 1;
    assert q * windowMs == p * windowMs + windowMs + k * windowMs;
    assert k >= 1 ==> k * windowMs >= windowMs;
  }

  /** Two window starts are equal, or a whole number of windows apart. */
  lemma WindowsAreAligned(a: int, b: int, windowMs: int)
    requires 1 <= windowMs
    ensures var v, w := WindowStart(a, windowMs), WindowStart(b, windowMs);
      v == w || v + windowMs == w || w + windowMs == v || v + windowMs + windowMs <= w || w + windowMs + windowMs <= v
  {
    var p, q := a / windowMs, b / windowMs;
    if p < q {
      NextMultiple(p, q, windowMs);
    } else if q < p {
      NextMultiple(q, p, windowMs);
    }
  }

  lemma WindowMonotone(a: int, b: int, windowMs: int)
    requires 1 <= windowMs && a <= b
    ensures WindowStart(a, windowMs) <= WindowStart(b, windowMs)
  {
    WindowBounds(a, windowMs);
    WindowBounds(b, windowMs);
    WindowsAreAligned(a, b, windowMs);
  }

  /** A later window starts exactly when the clock passes this window's end. */
  lemma LaterWindow(at: int, later: int, windowMs: int)
    requires 1 <= windowMs && at <= later
    ensures WindowStart(later, windowMs) > WindowStart(at, windowMs)
      <==> later >= WindowStart(at, windowMs) + windowMs
  {
    WindowBounds(at, windowMs);
    WindowBounds(later, windowMs);
    WindowsAreAligned(at, later, windowMs);
  }

  /** The advertised wait is the least whole number of seconds after which the clock is in a later window. */
  lemma RetryAfterIsLeast(at: int, windowMs: int, n: int)
    requires 1 <= windowMs
    ensures var wait := RetryAfterSeconds(at, windowMs);
      && 1 <= wait <= CeilDiv(windowMs, 1000)
      && (0 <= n ==> (WindowStart(at + 1000 * n, windowMs) > WindowStart(at, windowMs) <==> wait <= n))
  {
    WindowBounds(at, windowMs);
    if 0 <= n {
      LaterWindow(at, at + 1000 * n, windowMs);
    }
  }

  // ---------------------------------------------------------------- the statements

  function Count(rows: Table, key: string, window: int): nat {
    if (key, window) in rows then rows[(key, window)] else 0
  }

  /** `INSERT ... ON CONFLICT DO UPDATE ... WHERE count < limit`: the new rows, and whether one was returned. */
  function Consume(rows: Table, key: string, window: int, limit: nat): (Table, bool) {
    if (key, window) !in rows then (rows[(key, window) := 1], true)
    else if rows[(key, window)] < limit then (rows[(key, window) := rows[(key, window)] + 1], true)
    else (rows, false)
  }

  /** `DELETE ... WHERE window_start < before`. */
  function Sweep(rows: Table, before: int): Table {
    map k | k in rows && k.1 >= before :: rows[k]
  }

  /** One `tryConsume`; `sweeps` says whether the serving instance's own `lastSweep` was a window old. */
  datatype Call = Call(key: string, at: int, sweeps: bool)

  /** What became of a call. */
  datatype Entry = Entry(key: string, at: int, allowed: bool)

  function Serve(rows: Table, c: Call, limit: nat, windowMs: int): (Table, bool)
    requires 1 <= windowMs
  {
    var (consumed, allowed) := Consume(rows, c.key, WindowStart(c.at, windowMs), limit);
    (if c.sweeps then Sweep(consumed, WindowStart(c.at, windowMs)) else consumed, allowed)
  }

  /** The table after a sequence of calls served one at a time, and their outcomes. */
  function ServeAll(calls: seq<Call>, limit: nat, windowMs: int): (r: (Table, seq<Entry>))
    requires 1 <= windowMs
    ensures |r.1| == |calls|
  {
    if calls == [] then (map[], [])
    else
      var n := |calls| - 1;
      var (rows, history) := ServeAll(calls[..n], limit, windowMs);
      var (after, allowed) := Serve(rows, calls[n], limit, windowMs);
      (after, history + [Entry(calls[n].key, calls[n].at, allowed)])
  }

  // ---------------------------------------------------------------- the full history

  /** How many calls for `key` in the window that starts at `window` were let through. */
  function Accepted(history: seq<Entry>, key: string, window: int, windowMs: int): nat
    requires 1 <= windowMs
  {
    if history == [] then 0
    else
      var e := history[|history| - 1];
      Accepted(history[..|history| - 1], key, window, windowMs)
      + if e.allowed && e.key == key && WindowStart(e.at, windowMs) == window then 1 else 0
  }

  /** The limiter that forgets nothing: a call passes when fewer than `limit` earlier ones of its window did. */
  function Ideal(calls: seq<Call>, limit: nat, windowMs: int): (history: seq<Entry>)
    requires 1 <= windowMs
    ensures |history| == |calls|
  {
    if calls == [] then []
    else
      var c := calls[|calls| - 1];
      var history := Ideal(calls[..|calls| - 1], limit, windowMs);
      history + [Entry(c.key, c.at, Accepted(history, c.key, WindowStart(c.at, windowMs), windowMs) < limit)]
  }

  predicate Nondecreasing(calls: seq<Call>) {
    forall i, j :: 0 <= i < j < |calls| ==> calls[i].at <= calls[j].at
  }

  /** The table agrees with the history on every window that is not over by `now`. */
  ghost predicate Agrees(rows: Table, history: seq<Entry>, now: int, windowMs: int)
    requires 1 <= windowMs
  {
    forall key, window :: WindowStart(now, windowMs) <= window ==>
      Count(rows, key, window) == Accepted(history, key, window, windowMs)
  }

  lemma AcceptedSnoc(history: seq<Entry>, e: Entry, key: string, window: int, windowMs: int)
    requires 1 <= windowMs
    ensures Accepted(history + [e], key, window, windowMs)
      == Accepted(history, key, window, windowMs)
         + if e.allowed && e.key == key && WindowStart(e.at, windowMs) == window then 1 else 0
  {
    assert (history + [e])[..|history|] == history;
  }

  /** One call: the answer is the full history's, and the agreement is kept, purge or no purge. */
  lemma ServeAgrees(rows: Table, history: seq<Entry>, now: int, c: Call, limit: nat, windowMs: int)
    requires 1 <= windowMs && 1 <= limit && now <= c.at
    requires Agrees(rows, history, now, windowMs)
    ensures var (after, allowed) := Serve(rows, c, limit, windowMs);
      && (allowed <==> Accepted(history, c.key, WindowStart(c.at, windowMs), windowMs) < limit)
      && Agrees(after, history + [Entry(c.key, c.at, allowed)], c.at, windowMs)
  {
    var current := WindowStart(c.at, windowMs);
    WindowMonotone(now, c.at, windowMs);
    var (after, allowed) := Serve(rows, c, limit, windowMs);
    assert Count(rows, c.key, current) == Accepted(history, c.key, current, windowMs);
    forall key, window | current <= window
      ensures Count(after, key, window)
        == Accepted(history + [Entry(c.key, c.at, allowed)], key, window, windowMs)
    {
      AcceptedSnoc(history, Entry(c.key, c.at, allowed), key, window, windowMs);
      assert Count(rows, key, window) == Accepted(history, key, window, windowMs);
    }
  }

  /** No purge has passed this window. */
  predicate Retained(calls: seq<Call>, window: int, windowMs: int)
    requires 1 <= windowMs
  {
    forall i :: 0 <= i < |calls| && calls[i].sweeps ==> WindowStart(calls[i].at, windowMs) <= window
  }

  /** No call is made in a window that an earlier purge has passed. Clocks may differ otherwise. */
  predicate NoneReturns(calls: seq<Call>, windowMs: int)
    requires 1 <= windowMs
  {
    forall j :: 0 <= j < |calls| ==> Retained(calls[..j], WindowStart(calls[j].at, windowMs), windowMs)
  }

  /** What no purge has passed is counted as in the full history. */
  ghost predicate Tracks(rows: Table, history: seq<Entry>, calls: seq<Call>, windowMs: int)
    requires 1 <= windowMs
  {
    forall key, window {:trigger Count(rows, key, window)} ::
      Retained(calls, window, windowMs) ==> Count(rows, key, window) == Accepted(history, key, window, windowMs)
  }

  lemma RetainedSnoc(calls: seq<Call>, c: Call, window: int, windowMs: int)
    requires 1 <= windowMs
    ensures Retained(calls + [c], window, windowMs)
      <==> Retained(calls, window, windowMs) && (c.sweeps ==> WindowStart(c.at, windowMs) <= window)
  {
    var all := calls + [c];
    if Retained(all, window, windowMs) {
      assert all[|calls|] == c;
      assert forall i :: 0 <= i < |calls| ==> all[i] == calls[i];
    }
  }

  /** What a call does to the counter of a window it does not purge. */
  lemma CallCounts(rows: Table, c: Call, current: int, limit: nat, key: string, window: int)
    requires 1 <= limit && (c.sweeps ==> current <= window)
    ensures var (consumed, allowed) := Consume(rows, c.key, current, limit);
      && (allowed <==> Count(rows, c.key, current) < limit)
      && Count(if c.sweeps then Sweep(consumed, current) else consumed, key, window)
         == Count(rows, key, window) + if allowed && c.key == key && current == window then 1 else 0
  {
  }

  /** One call in a window no purge has passed: the answer is the full history's, and the count is kept. */
  lemma ServeTracks(rows: Table, history: seq<Entry>, calls: seq<Call>, c: Call, limit: nat, windowMs: int)
    requires 1 <= windowMs && 1 <= limit && Tracks(rows, history, calls, windowMs)
    requires Retained(calls, WindowStart(c.at, windowMs), windowMs)
    ensures var (after, allowed) := Serve(rows, c, limit, windowMs);
      && (allowed <==> Accepted(history, c.key, WindowStart(c.at, windowMs), windowMs) < limit)
      && Tracks(after, history + [Entry(c.key, c.at, allowed)], calls + [c], windowMs)
  {
    var current := WindowStart(c.at, windowMs);
    var (after, allowed) := Serve(rows, c, limit, windowMs);
    CallCounts(rows, c, current, limit, c.key, current);
    forall key, window | Retained(calls + [c], window, windowMs)
      ensures Count(after, key, window)
        == Accepted(history + [Entry(c.key, c.at, allowed)], key, window, windowMs)
    {
      RetainedSnoc(calls, c, window, windowMs);
      AcceptedSnoc(history, Entry(c.key, c.at, allowed), key, window, windowMs);
      CallCounts(rows, c, current, limit, key, window);
    }
  }

  lemma NoneReturnsBefore(calls: seq<Call>, windowMs: int)
    requires 1 <= windowMs && NoneReturns(calls, windowMs) && calls != []
    ensures NoneReturns(calls[..|calls| - 1], windowMs)
  {
    var before := calls[..|calls| - 1];
    forall j | 0 <= j < |before|
      ensures Retained(before[..j], WindowStart(before[j].at, windowMs), windowMs)
    {
      assert before[..j] == calls[..j] && before[j] == calls[j];
    }
  }

  lemma {:induction false} ServeAllTracks(calls: seq<Call>, limit: nat, windowMs: int)
    requires 1 <= windowMs && 1 <= limit && NoneReturns(calls, windowMs)
    ensures ServeAll(calls, limit, windowMs).1 == Ideal(calls, limit, windowMs)
    ensures Tracks(ServeAll(calls, limit, windowMs).0, Ideal(calls, limit, windowMs), calls, windowMs)
  {
    if calls != [] {
      var before, c := calls[..|calls| - 1], calls[|calls| - 1];
      assert before + [c] == calls;
      NoneReturnsBefore(calls, windowMs);
      ServeAllTracks(before, limit, windowMs);
      assert Retained(before, WindowStart(c.at, windowMs), windowMs);
      TracksNext(before, c, limit, windowMs);
    }
  }

  lemma TracksNext(before: seq<Call>, c: Call, limit: nat, windowMs: int)
    requires 1 <= windowMs && 1 <= limit && Retained(before, WindowStart(c.at, windowMs), windowMs)
    requires ServeAll(before, limit, windowMs).1 == Ideal(before, limit, windowMs)
    requires Tracks(ServeAll(before, limit, windowMs).0, Ideal(before, limit, windowMs), before, windowMs)
    ensures ServeAll(before + [c], limit, windowMs).1 == Ideal(before + [c], limit, windowMs)
    ensures var calls := before + [c];
      Tracks(ServeAll(calls, limit, windowMs).0, Ideal(calls, limit, windowMs), calls, windowMs)
  {
    Snoc(before, c, limit, windowMs);
    var (rows, history) := ServeAll(before, limit, windowMs);
    ServeTracks(rows, history, before, c, limit, windowMs);
  }

  /** Whatever the clocks do otherwise, purges change no answer as long as nobody returns to a purged window. */
  lemma NoReturnRefinesHistory(calls: seq<Call>, limit: nat, windowMs: int)
    requires 1 <= windowMs && 1 <= limit && NoneReturns(calls, windowMs)
    ensures ServeAll(calls, limit, windowMs).1 == Ideal(calls, limit, windowMs)
  {
    ServeAllTracks(calls, limit, windowMs);
  }

  /** With one clock no purge, by any instance at any time, ever changes an answer. */
  lemma PurgedTableRefinesHistory(calls: seq<Call>, limit: nat, windowMs: int)
    requires 1 <= windowMs && 1 <= limit && Nondecreasing(calls)
    ensures ServeAll(calls, limit, windowMs).1 == Ideal(calls, limit, windowMs)
  {
    forall i, j | 0 <= i < j < |calls|
      ensures WindowStart(calls[i].at, windowMs) <= WindowStart(calls[j].at, windowMs)
    {
      WindowMonotone(calls[i].at, calls[j].at, windowMs);
    }
    NoReturnRefinesHistory(calls, limit, windowMs);
  }

  lemma Snoc(calls: seq<Call>, c: Call, limit: nat, windowMs: int)
    requires 1 <= windowMs
    ensures var (rows, history) := ServeAll(calls, limit, windowMs);
      var (after, allowed) := Serve(rows, c, limit, windowMs);
      ServeAll(calls + [c], limit, windowMs) == (after, history + [Entry(c.key, c.at, allowed)])
    ensures var history := Ideal(calls, limit, windowMs);
      var allowed := Accepted(history, c.key, WindowStart(c.at, windowMs), windowMs) < limit;
      Ideal(calls + [c], limit, windowMs) == history + [Entry(c.key, c.at, allowed)]
  {
    assert (calls + [c])[..|calls|] == calls;
  }

  lemma FirstWindows(windowMs: int)
    requires 1 <= windowMs
    ensures WindowStart(0, windowMs) == 0 && WindowStart(windowMs, windowMs) == windowMs
  {
  }

  lemma PurgeForgets(rows: Table, c: Call, limit: nat, windowMs: int, key: string, window: int)
    requires 1 <= windowMs && c.sweeps && window < WindowStart(c.at, windowMs)
    ensures (key, window) !in Serve(rows, c, limit, windowMs).0
  {
  }

  lemma UncountedPasses(rows: Table, c: Call, limit: nat, windowMs: int)
    requires 1 <= windowMs && (c.key, WindowStart(c.at, windowMs)) !in rows
    ensures Serve(rows, c, limit, windowMs).1
  {
  }

  /** Once a purge from a later window has gone over it, the same call is let through again. */
  lemma TableForgets(first: Call, purge: Call, windowMs: int)
    requires 1 <= windowMs && purge.sweeps
    requires WindowStart(first.at, windowMs) < WindowStart(purge.at, windowMs)
    ensures ServeAll([] + [first] + [purge] + [first], 1, windowMs).1[2].allowed
  {
    Snoc([] + [first], purge, 1, windowMs);
    Snoc([] + [first] + [purge], first, 1, windowMs);
    PurgeForgets(ServeAll([] + [first], 1, windowMs).0, purge, 1, windowMs, first.key, WindowStart(first.at, windowMs));
    UncountedPasses(ServeAll([] + [first] + [purge], 1, windowMs).0, first, 1, windowMs);
  }

  /** The full history refuses the second call of the window. */
  lemma HistoryRemembers(first: Call, purge: Call, windowMs: int)
    requires 1 <= windowMs
    requires WindowStart(first.at, windowMs) < WindowStart(purge.at, windowMs)
    ensures !Ideal([] + [first] + [purge] + [first], 1, windowMs)[2].allowed
  {
    var window := WindowStart(first.at, windowMs);
    Snoc([], first, 1, windowMs);
    Snoc([] + [first], purge, 1, windowMs);
    Snoc([] + [first] + [purge], first, 1, windowMs);
    var history := Ideal([] + [first], 1, windowMs);
    AcceptedSnoc([], history[0], first.key, window, windowMs);
    AcceptedSnoc(history, Ideal([] + [first] + [purge], 1, windowMs)[1], first.key, window, windowMs);
  }

  lemma PurgedWindowIsReturnedTo(first: Call, purge: Call, windowMs: int)
    requires 1 <= windowMs && purge.sweeps
    requires WindowStart(first.at, windowMs) < WindowStart(purge.at, windowMs)
    ensures !NoneReturns([] + [first] + [purge] + [first], windowMs)
  {
    var calls := [] + [first] + [purge] + [first];
    var before := calls[..2];
    assert before[1] == purge && calls[2] == first;
    assert !Retained(before, WindowStart(first.at, windowMs), windowMs);
  }

  /**
   A call in one window, a purge by an instance already in the next, and the first clock again:
   with a limit of one the table lets the third call through, the full history refuses it.
  */
  lemma ReturningIsForgotten(key: string, windowMs: int) returns (calls: seq<Call>)
    requires 1 <= windowMs
    ensures calls == [] + [Call(key, 0, false)] + [Call(key, windowMs, true)] + [Call(key, 0, false)]
    ensures ServeAll(calls, 1, windowMs).1[2].allowed && !Ideal(calls, 1, windowMs)[2].allowed
    ensures !NoneReturns(calls, windowMs)
  {
    var first, purge := Call(key, 0, false), Call(key, windowMs, true);
    FirstWindows(windowMs);
    TableForgets(first, purge, windowMs);
    HistoryRemembers(first, purge, windowMs);
    PurgedWindowIsReturnedTo(first, purge, windowMs);
    calls := [] + [first] + [purge] + [first];
  }

  // ---------------------------------------------------------------- how much gets through

  lemma {:induction false} WindowLimit(calls: seq<Call>, limit: nat, windowMs: int, key: string, window: int)
    requires 1 <= windowMs
    ensures Accepted(Ideal(calls, limit, windowMs), key, window, windowMs) <= limit
  {
    if calls != [] {
      var before := calls[..|calls| - 1];
      var history := Ideal(before, limit, windowMs);
      WindowLimit(before, limit, windowMs, key, window);
      var e := Ideal(calls, limit, windowMs)[|calls| - 1];
      AcceptedSnoc(history, e, key, window, windowMs);
    }
  }

  function AcceptedBetween(history: seq<Entry>, key: string, lo: int, hi: int): nat {
    if history == [] then 0
    else
      var e := history[|history| - 1];
      AcceptedBetween(history[..|history| - 1], key, lo, hi)
      + if e.allowed && e.key == key && lo <= e.at <= hi then 1 else 0
  }

  lemma TwoWindows(at: int, lo: int, windowMs: int)
    requires 1 <= windowMs && lo <= at <= lo + windowMs
    ensures var w := WindowStart(lo, windowMs);
      WindowStart(at, windowMs) == w || WindowStart(at, windowMs) == w + windowMs
  {
    WindowBounds(lo, windowMs);
    WindowBounds(at, windowMs);
    WindowsAreAligned(lo, at, windowMs);
  }

  lemma {:induction false} IntervalSplits(history: seq<Entry>, key: string, lo: int, windowMs: int)
    requires 1 <= windowMs
    ensures var w := WindowStart(lo, windowMs);
      AcceptedBetween(history, key, lo, lo + windowMs)
      <= Accepted(history, key, w, windowMs) + Accepted(history, key, w + windowMs, windowMs)
  {
    if history != [] {
      IntervalSplits(history[..|history| - 1], key, lo, windowMs);
      var e := history[|history| - 1];
      if lo <= e.at <= lo + windowMs {
        TwoWindows(e.at, lo, windowMs);
      }
    }
  }

  /** Any interval one window long, wherever it starts, lets at most twice the limit through. */
  lemma IntervalLimit(calls: seq<Call>, limit: nat, windowMs: int, key: string, lo: int)
    requires 1 <= windowMs && 1 <= limit && Nondecreasing(calls)
    ensures AcceptedBetween(ServeAll(calls, limit, windowMs).1, key, lo, lo + windowMs) <= 2 * limit
  {
    PurgedTableRefinesHistory(calls, limit, windowMs);
    var history := Ideal(calls, limit, windowMs);
    IntervalSplits(history, key, lo, windowMs);
    WindowLimit(calls, limit, windowMs, key, WindowStart(lo, windowMs));
    WindowLimit(calls, limit, windowMs, key, WindowStart(lo, windowMs) + windowMs);
  }

  // ---------------------------------------------------------------- the objects

  /** The counter table. `history` is what a limiter that forgets nothing would hold. */
  class Store {
    var rows: Table
    ghost var history: seq<Entry>
    ghost var clock: int

    ghost predicate Valid(windowMs: int)
      requires 1 <= windowMs
      reads this
    {
      Agrees(rows, history, clock, windowMs)
    }

    constructor (ghost now: int)
      ensures rows == map[] && history == [] && clock == now
    {
      rows := map[];
      history := [];
      clock := now;
    }

    method ConsumeRateLimit(key: string, window: int, limit: nat) returns (allowed: bool)
      modifies this`rows
      ensures (rows, allowed) == Consume(old(rows), key, window, limit)
      ensures Count(rows, key, window) == Count(old(rows), key, window) + if allowed then 1 else 0
      ensures forall k, w | (k, w) != (key, window) :: Count(rows, k, w) == Count(old(rows), k, w)
      ensures 1 <= limit ==> (allowed <==> Count(old(rows), key, window) < limit)
    {
      if (key, window) !in rows {
        rows := rows[(key, window) := 1];
        allowed := true;
      } else if rows[(key, window)] < limit {
        rows := rows[(key, window) := rows[(key, window)] + 1];
        allowed := true;
      } else {
        allowed := false;
      }
    }

    method SweepRateLimits(before: int) returns (removed: nat)
      modifies this`rows
      ensures rows == Sweep(old(rows), before)
      ensures forall k, w :: Count(rows, k, w) == if w < before then 0 else Count(old(rows), k, w)
      ensures removed == |old(rows)| - |rows|
    {
      var kept := Sweep(rows, before);
      KeptSize(rows, before);
      removed := |rows| - |kept|;
      rows := kept;
    }
  }

  lemma KeptSize(rows: Table, before: int)
    ensures |Sweep(rows, before)| <= |rows|
  {
    var kept := Sweep(rows, before).Keys;
    assert kept <= rows.Keys;
    assert rows.Keys == kept + (rows.Keys - kept);
  }

  /** One API instance. Instances share the store and nothing else. */
  class RateLimiter {
    const store: Store
    const limit: nat
    const windowMs: int
    var lastSweep: int

    constructor (store: Store, limit: nat, windowMs: int, now: int)
      requires 1 <= limit && 1 <= windowMs
      ensures this.store == store && this.limit == limit && this.windowMs == windowMs && lastSweep == now
    {
      this.store := store;
      this.limit := limit;
      this.windowMs := windowMs;
      lastSweep := now;
    }

    /**
     True exactly when fewer than `limit` earlier calls of this window were let through, whoever
     served them and whatever was purged.
    */
    method TryConsume(key: string, at: int) returns (allowed: bool)
      requires 1 <= limit && 1 <= windowMs && store.Valid(windowMs) && store.clock <= at
      modifies this`lastSweep, store
      ensures store.Valid(windowMs) && store.clock == at
      ensures allowed <==> Accepted(old(store.history), key, WindowStart(at, windowMs), windowMs) < limit
      ensures store.history == old(store.history) + [Entry(key, at, allowed)]
      ensures var sweeps := at - old(lastSweep) >= windowMs;
        && (store.rows, allowed) == Serve(old(store.rows), Call(key, at, sweeps), limit, windowMs)
        && lastSweep == (if sweeps then at else old(lastSweep))
    {
      ghost var c := Call(key, at, at - lastSweep >= windowMs);
      ServeAgrees(store.rows, store.history, store.clock, c, limit, windowMs);
      allowed := store.ConsumeRateLimit(key, WindowStart(at, windowMs), limit);
      DoSweep(at);
      store.history := store.history + [Entry(key, at, allowed)];
      store.clock := at;
    }

    /** At most once per window per instance. */
    method DoSweep(at: int)
      requires 1 <= windowMs
      modifies this`lastSweep, store`rows
      ensures if at - old(lastSweep) < windowMs then lastSweep == old(lastSweep) && store.rows == old(store.rows)
              else lastSweep == at && store.rows == Sweep(old(store.rows), WindowStart(at, windowMs))
    {
      if at - lastSweep < windowMs {
        return;
      }
      lastSweep := at;
      var _ := store.SweepRateLimits(WindowStart(at, windowMs));
    }
  }
}
