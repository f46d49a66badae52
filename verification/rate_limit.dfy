/** Fixed-window rate limiter: one counter record per key, created lazily,
    reset when its window has expired, and failing open on storage errors. */
module RateLimit {
  import opened Common

  /** Requests per window when the limit is not configured. */
  const DefaultLimit: nat := 100
  /** Window length in milliseconds when it is not configured. */
  const DefaultWindowMs: nat := 60000

  /** The stored record for one key. */
  datatype Counter = Counter(count: nat, resetAt: int)

  /** What the limiter reports to its caller. */
  datatype Decision = Decision(allowed: bool, remaining: int)

  /** Which storage operations throw if they are reached: the lookup, the
      lazy creation, the window reset, and the increment. */
  datatype Faults = Faults(find: bool, create: bool, reset: bool, increment: bool)

  const NoFaults: Faults := Faults(false, false, false, false)

  /** The fail-open answer given when any storage operation throws. */
  function FailOpen(limit: nat): Decision
  {
    Decision(true, limit)
  }

  /** One call's outcome: the decision, and the record stored for the key
      afterwards (None when the key still has no record). */
  datatype Attempt = Attempt(decision: Decision, stored: Option<Counter>)

  /** The record the admission check sees: the existing one, or a fresh one
      when the key has none, replaced by a fresh window when its reset
      time lies strictly before `now`. */
  function CurrentWindow(rec: Option<Counter>, now: int, window: nat): (c: Counter)
    ensures rec.Some? && now <= rec.value.resetAt ==> c == rec.value
    ensures (rec.None? || rec.value.resetAt < now) ==> c == Counter(0, now + window)
    ensures now <= c.resetAt
  {
    var created := if rec.None? then Counter(0, now + window) else rec.value;
    if created.resetAt < now then Counter(0, now + window) else created
  }

  /** One call of the limiter for a key whose stored record is `rec`, in the
      order the storage operations happen; an operation listed in `f`
      throws when it is reached, and everything stored before it stays. */
  function Run(rec: Option<Counter>, now: int, limit: nat, window: nat, f: Faults): (a: Attempt)
    ensures f == NoFaults ==> a.stored.Some?
    ensures rec.Some? ==> a.stored.Some?
  {
    if f.find then Attempt(FailOpen(limit), rec)
    else if rec.None? && f.create then Attempt(FailOpen(limit), rec)
    else
      var created := if rec.None? then Counter(0, now + window) else rec.value;
      if created.resetAt < now && f.reset then Attempt(FailOpen(limit), Some(created))
      else
        var cur := if created.resetAt < now then Counter(0, now + window) else created;
        if cur.count >= limit then Attempt(Decision(false, 0), Some(cur))
        else if f.increment then Attempt(FailOpen(limit), Some(cur))
        else Attempt(Decision(true, limit - cur.count - 1), Some(cur.(count := cur.count + 1)))
  }

  /** The store after a call: the key's record replaced, or nothing written. */
  function Store(m: map<string, Counter>, key: string, a: Attempt): map<string, Counter>
  {
    if a.stored.Some? then m[key := a.stored.value] else m
  }

  function Lookup(m: map<string, Counter>, key: string): Option<Counter>
  {
    if key in m then Some(m[key]) else None
  }

  /** Without storage errors, a call admits exactly when the current
      window's count is below the limit: then the count rises by one and the
      remaining allowance is `limit - count - 1`, never negative; otherwise
      the answer is `{allowed: false, remaining: 0}` and the count stays. */
  lemma AdmitIffBelowLimit(rec: Option<Counter>, now: int, limit: nat, window: nat)
    ensures var c := CurrentWindow(rec, now, window);
            var a := Run(rec, now, limit, window, NoFaults);
            && (a.decision.allowed <==> c.count < limit)
            && (c.count < limit ==>
                  a.decision.remaining == limit - c.count - 1 >= 0
                  && a.stored == Some(c.(count := c.count + 1)))
            && (c.count >= limit ==> a.decision == Decision(false, 0) && a.stored == Some(c))
  {
  }

  /** The first request for an unseen key opens a window ending at
      `now + window`, counts itself and leaves `limit - 1` requests. */
  lemma FreshKey(now: int, limit: nat, window: nat)
    requires limit > 0
    ensures Run(None, now, limit, window, NoFaults)
            == Attempt(Decision(true, limit - 1), Some(Counter(1, now + window)))
  {
  }

  /** A request at exactly `resetAt` still belongs to the old window; only a
      later one starts a new window anchored at its own time. */
  lemma ResetOnlyAfterExpiry(c: Counter, now: int, limit: nat, window: nat)
    ensures now <= c.resetAt ==>
              Run(Some(c), now, limit, window, NoFaults).stored.value.resetAt == c.resetAt
    ensures c.resetAt < now ==>
              Run(Some(c), now, limit, window, NoFaults).stored.value.resetAt == now + window
              && Run(Some(c), now, limit, window, NoFaults).stored.value.count <= 1
  {
  }

  /** A call never raises a stored count above the limit. */
  lemma CountWithinLimit(rec: Option<Counter>, now: int, limit: nat, window: nat, f: Faults)
    requires rec.Some? ==> rec.value.count <= limit
    ensures var a := Run(rec, now, limit, window, f);
            a.stored.Some? ==> a.stored.value.count <= limit
  {
  }

  /** Fail open: every outcome is either the fault-free outcome or
      `{allowed: true, remaining: limit}`; a denial is never caused by a
      storage error, and a failed lookup allows whatever the prior state. */
  lemma FailsOpen(rec: Option<Counter>, now: int, limit: nat, window: nat, f: Faults)
    ensures var d := Run(rec, now, limit, window, f).decision;
            d == Run(rec, now, limit, window, NoFaults).decision || d == FailOpen(limit)
    ensures !Run(rec, now, limit, window, f).decision.allowed ==>
              Run(rec, now, limit, window, f) == Run(rec, now, limit, window, NoFaults)
    ensures f.find ==> Run(rec, now, limit, window, f) == Attempt(Decision(true, limit), rec)
  {
  }

  /** The decisions of successive fault-free calls for one key, starting from
      record `c`, at the times `times`. */
  function Replay(c: Counter, times: seq<int>, limit: nat, window: nat): (ds: seq<Decision>)
    ensures |ds| == |times|
    decreases |times|
  {
    if times == [] then []
    else
      var a := Run(Some(c), times[0], limit, window, NoFaults);
      [a.decision] + Replay(a.stored.value, times[1..], limit, window)
  }

  /** Within one window, successive calls from count `c.count` report
      remaining `limit - c.count - 1`, then one less each time down to 0,
      and every call after that is denied. */
  lemma {:induction false} ReplayWithinWindow(c: Counter, times: seq<int>, limit: nat, window: nat)
    requires c.count <= limit
    requires forall i :: 0 <= i < |times| ==> times[i] <= c.resetAt
    ensures var ds := Replay(c, times, limit, window);
            forall i :: 0 <= i < |times| ==>
              ds[i] == if c.count + i < limit then Decision(true, limit - c.count - i - 1)
                       else Decision(false, 0)
    decreases |times|
  {
    if times != [] {
      var a := Run(Some(c), times[0], limit, window, NoFaults);
      var next := a.stored.value;
      assert next.resetAt == c.resetAt;
      assert next.count == if c.count < limit then c.count + 1 else c.count;
      assert a.decision == if c.count < limit then Decision(true, limit - c.count - 1)
                           else Decision(false, 0);
      ReplayWithinWindow(next, times[1..], limit, window);
      var rest := Replay(next, times[1..], limit, window);
      assert forall j :: 0 <= j < |times[1..]| ==>
        Replay(next, times[1..], limit, window)[j] == if next.count + j < limit then Decision(true, limit - next.count - j - 1)
                   else Decision(false, 0);
      var ds := Replay(c, times, limit, window);
      forall i | 0 <= i < |times|
        ensures ds[i] == if c.count + i < limit then Decision(true, limit - c.count - i - 1)
                         else Decision(false, 0)
      {
        if i == 0 {
          assert ds[0] == a.decision;
        } else {
          assert ds[i] == rest[i - 1];
          assert rest[i - 1] == if next.count + (i - 1) < limit
                                then Decision(true, limit - next.count - (i - 1) - 1)
                                else Decision(false, 0);
        }
      }
    }
  }

  /** For a fresh key, `limit` calls inside the first window are admitted
      with remaining `limit - 1, ..., 0`, and the next one is denied. */
  lemma FreshKeySequence(t0: int, times: seq<int>, limit: nat, window: nat)
    requires limit > 0
    requires forall i :: 0 <= i < |times| ==> times[i] <= t0 + window
    ensures Run(None, t0, limit, window, NoFaults)
            == Attempt(Decision(true, limit - 1), Some(Counter(1, t0 + window)))
    ensures var ds := Replay(Counter(1, t0 + window), times, limit, window);
            forall i :: 0 <= i < |times| ==>
              ds[i] == if i + 1 < limit then Decision(true, limit - i - 2) else Decision(false, 0)
  {
    FreshKey(t0, limit, window);
    ReplayWithinWindow(Counter(1, t0 + window), times, limit, window);
  }

  /** The worked example: limit 3, window 1000 ms. Calls at 0, 1, 2 ms are
      admitted with remaining 2, 1, 0; at 3 ms the call is denied; at
      1001 ms the window has expired and the call is admitted with 2 left. */
  lemma WindowScenario()
    ensures var first := Run(None, 0, 3, 1000, NoFaults);
            first.decision == Decision(true, 2)
            && Replay(first.stored.value, [1, 2, 3, 1001], 3, 1000)
               == [Decision(true, 1), Decision(true, 0), Decision(false, 0), Decision(true, 2)]
  {
    var first := Run(None, 0, 3, 1000, NoFaults);
    assert first.stored.value == Counter(1, 1000);
    var s1 := Run(Some(Counter(1, 1000)), 1, 3, 1000, NoFaults);
    assert s1.stored.value == Counter(2, 1000);
    var s2 := Run(Some(Counter(2, 1000)), 2, 3, 1000, NoFaults);
    assert s2.stored.value == Counter(3, 1000);
    var s3 := Run(Some(Counter(3, 1000)), 3, 3, 1000, NoFaults);
    assert s3.stored.value == Counter(3, 1000);
    assert Replay(Counter(3, 1000), [1001], 3, 1000) == [Decision(true, 2)];
    assert Replay(Counter(3, 1000), [3, 1001], 3, 1000) == [Decision(false, 0), Decision(true, 2)];
    assert Replay(Counter(2, 1000), [2, 3, 1001], 3, 1000)
           == [Decision(true, 0), Decision(false, 0), Decision(true, 2)];
  }

  /** The limiter: its configuration and the persistent per-key records. */
  class RateLimiter {
    const limit: nat
    const window: nat
    var store: map<string, Counter>

    /** No stored count exceeds the limit. */
    ghost predicate Valid()
      reads this
    {
      forall k :: k in store ==> store[k].count <= limit
    }

    /** The limiter with the default configuration: 100 requests per
        60000 ms, and no records yet. */
    constructor Default()
      ensures limit == DefaultLimit && window == DefaultWindowMs
      ensures store == map[] && Valid()
    {
      limit, window := DefaultLimit, DefaultWindowMs;
      store := map[];
    }

    /** A limiter with an explicit configuration. */
    constructor (limit: nat, window: nat)
      ensures this.limit == limit && this.window == window
      ensures store == map[] && Valid()
    {
      this.limit, this.window := limit, window;
      store := map[];
    }

    /** Decide whether a request under `key`, arriving at `now`, is admitted,
        consuming one slot of the key's window if so. Only the key's own
        record is read or written. */
    method CheckRateLimit(key: string, now: int, f: Faults) returns (d: Decision)
      requires Valid()
      modifies this
      ensures Valid()
      ensures var a := Run(Lookup(old(store), key), now, limit, window, f);
              d == a.decision && store == Store(old(store), key, a)
      ensures forall k :: k != key ==> Lookup(store, k) == Lookup(old(store), k)
    {
      if f.find {
        return FailOpen(limit);
      }
      var rec: Counter;
      if key !in store {
        if f.create {
          return FailOpen(limit);
        }
        rec := Counter(0, now + window);
        store := store[key := rec];
      } else {
        rec := store[key];
      }
      if rec.resetAt < now {
        if f.reset {
          return FailOpen(limit);
        }
        rec := Counter(0, now + window);
        store := store[key := rec];
      }
      if rec.count >= limit {
        return Decision(false, 0);
      }
      if f.increment {
        return FailOpen(limit);
      }
      store := store[key := rec.(count := rec.count + 1)];
      d := Decision(true, limit - rec.count - 1);
    }
  }
}
