/** The fixed-window rate limiter: an INCR counter whose key expires `window` after its first increment. */
module RateLimit {
  type Key = string

  datatype Counter = Counter(count: nat, expires: int)

  type Store = map<Key, Counter>

  predicate LiveKey(store: Store, key: Key, now: int) {
    key in store && now < store[key].expires
  }

  /** INCR, and EXPIRE when the value is 1. */
  function Increment(store: Store, key: Key, window: int, now: int): Store {
    if LiveKey(store, key, now) then store[key := store[key].(count := store[key].count + 1)]
    else store[key := Counter(1, now + window)]
  }

  class RateLimiter {
    var store: Store

    constructor ()
      ensures store == map[]
    {
      store := map[];
    }

    /** `up` is false when Redis cannot be reached; such a request is let through and leaves no trace. */
    method CheckWindowLimit(key: Key, limit: int, window: int, now: int, up: bool) returns (allowed: bool)
      modifies this
      ensures store == if up then Increment(old(store), key, window, now) else old(store)
      ensures allowed <==> !up || store[key].count <= limit
    {
      if !up {
        return true;
      }
      var value := 1;
      if LiveKey(store, key, now) {
        value := store[key].count + 1;
        store := store[key := store[key].(count := value)];
      } else {
        store := store[key := Counter(1, now + window)];
      }
      if value > limit {
        return false;
      }
      return true;
    }
  }

  /* ---- runs ---- */

  datatype Request = Request(key: Key, at: int)

  predicate InOrder(run: seq<Request>) {
    forall i, j :: 0 <= i <= j < |run| ==> run[i].at <= run[j].at
  }

  function After(run: seq<Request>, window: int): Store {
    if run == [] then map[]
    else
      var r := run[|run| - 1];
      Increment(After(run[..|run| - 1], window), r.key, window, r.at)
  }

  /** The counter of request `i`'s key just after that request. */
  function CounterAt(run: seq<Request>, window: int, i: nat): Counter
    requires i < |run|
  {
    Unfold(run, window, i + 1);
    After(run[..i + 1], window)[run[i].key]
  }

  lemma Unfold(run: seq<Request>, window: int, n: nat)
    requires 0 < n <= |run|
    ensures After(run[..n], window) == Increment(After(run[..n - 1], window), run[n - 1].key, window, run[n - 1].at)
  {
    assert run[..n][..n - 1] == run[..n - 1];
  }

  predicate Admitted(run: seq<Request>, window: int, limit: nat, i: nat)
    requires i < |run|
  {
    CounterAt(run, window, i).count <= limit
  }

  function AdmittedIn(run: seq<Request>, window: int, limit: nat, key: Key, a: int): set<nat> {
    set i: nat | i < |run| && run[i].key == key && a <= run[i].at < a + window && Admitted(run, window, limit, i)
  }

  /* ---- counter windows ---- */

  /** A counter belongs to the same window as a later one, and then counts less, or to one at least `window` earlier. */
  predicate Precedes(c: Counter, d: Counter, window: int) {
    (c.expires == d.expires && c.count <= d.count) || c.expires + window <= d.expires
  }

  lemma {:induction false} CounterKept(run: seq<Request>, window: int, i: nat, n: nat)
    requires window > 0 && InOrder(run) && i < n <= |run|
    ensures var store := After(run[..n], window);
      run[i].key in store && Precedes(CounterAt(run, window, i), store[run[i].key], window)
      && store[run[i].key].expires <= run[n - 1].at + window
    decreases n
  {
    Unfold(run, window, n);
    if n == i + 1 {
      CounterBounds(run, window, i);
    } else {
      CounterKept(run, window, i, n - 1);
      var before := After(run[..n - 1], window);
      var key := run[i].key;
      if run[n - 1].key == key && !LiveKey(before, key, run[n - 1].at) {
        assert before[key].expires <= run[n - 1].at;
      }
    }
  }

  lemma {:induction false} ExpiryBound(run: seq<Request>, window: int, n: nat, key: Key)
    requires window > 0 && InOrder(run) && n <= |run| && key in After(run[..n], window)
    ensures n > 0 && After(run[..n], window)[key].expires <= run[n - 1].at + window && After(run[..n], window)[key].count >= 1
    decreases n
  {
    if n > 0 {
      Unfold(run, window, n);
      if key in After(run[..n - 1], window) {
        ExpiryBound(run, window, n - 1, key);
      }
    }
  }

  /** A request falls into its own counter window, and its counter is 1 exactly at the start of the window. */
  lemma CounterBounds(run: seq<Request>, window: int, i: nat)
    requires window > 0 && InOrder(run) && i < |run|
    ensures var c := CounterAt(run, window, i);
      c.count >= 1 && run[i].at < c.expires <= run[i].at + window && (c.count == 1 ==> c.expires == run[i].at + window)
  {
    Unfold(run, window, i + 1);
    if run[i].key in After(run[..i], window) {
      ExpiryBound(run, window, i, run[i].key);
    }
  }

  /** Two requests for one key either share a window, with a larger count for the later, or are in windows apart. */
  lemma LaterCounter(run: seq<Request>, window: int, i: nat, j: nat)
    requires window > 0 && InOrder(run) && i < j < |run| && run[i].key == run[j].key
    ensures var c, d := CounterAt(run, window, i), CounterAt(run, window, j);
      (c.expires == d.expires && c.count < d.count) || c.expires + window <= d.expires
  {
    CounterKept(run, window, i, j);
    Unfold(run, window, j + 1);
  }

  /* ---- the bound ---- */

  function SameWindow(run: seq<Request>, window: int, s: set<nat>, e: int): set<nat>
    requires forall i :: i in s ==> i < |run|
  {
    set i | i in s && CounterAt(run, window, i).expires == e
  }

  lemma {:induction false} DistinctCounts(run: seq<Request>, window: int, key: Key, s: set<nat>, e: int, lo: int, hi: int)
    requires window > 0 && InOrder(run) && lo <= hi + 1
    requires forall i :: i in s ==> i < |run| && run[i].key == key
    requires forall i :: i in s ==> CounterAt(run, window, i).expires == e && lo <= CounterAt(run, window, i).count <= hi
    ensures |s| <= hi - lo + 1
  {
    if s != {} {
      var i := HasGreatest(s);
      forall j | j in s - {i} ensures CounterAt(run, window, j).count <= CounterAt(run, window, i).count - 1 {
        LaterCounter(run, window, j, i);
      }
      DistinctCounts(run, window, key, s - {i}, e, lo, CounterAt(run, window, i).count - 1);
    }
  }

  lemma HasGreatest(s: set<nat>) returns (m: nat)
    requires s != {}
    ensures m in s && forall j :: j in s ==> j <= m
  {
    var x :| x in s;
    m := x;
    if s != {x} {
      var k := HasGreatest(s - {x});
      m := if x < k then k else x;
      assert forall j :: j in s ==> j == x || j in s - {x};
    }
  }

  lemma HasLeast(s: set<nat>) returns (m: nat)
    requires s != {}
    ensures m in s && forall j :: j in s ==> m <= j
  {
    var x :| x in s;
    m := x;
    if s != {x} {
      var k := HasLeast(s - {x});
      m := if k < x then k else x;
      assert forall j :: j in s ==> j == x || j in s - {x};
    }
  }

  /** Each counter window admits at most `limit` requests. */
  lemma WindowAdmitsAtMostLimit(run: seq<Request>, window: int, limit: nat, key: Key, s: set<nat>, e: int)
    requires window > 0 && InOrder(run)
    requires forall i :: i in s ==> i < |run| && run[i].key == key && Admitted(run, window, limit, i) && CounterAt(run, window, i).expires == e
    ensures |s| <= limit
  {
    forall i | i in s ensures 1 <= CounterAt(run, window, i).count {
      CounterBounds(run, window, i);
    }
    DistinctCounts(run, window, key, s, e, 1, limit);
  }

  /** Any half-open interval of length `window` contains at most 2 * limit - 1 admitted requests for a key. */
  lemma IntervalAdmitsAtMost(run: seq<Request>, window: int, limit: nat, key: Key, a: int)
    requires window > 0 && InOrder(run)
    ensures |AdmittedIn(run, window, limit, key, a)| <= if limit == 0 then 0 else 2 * limit - 1
  {
    var s := AdmittedIn(run, window, limit, key, a);
    forall i | i in s
      ensures 1 <= CounterAt(run, window, i).count <= limit && a < CounterAt(run, window, i).expires < a + 2 * window
      ensures CounterAt(run, window, i).count == 1 ==> CounterAt(run, window, i).expires >= a + window
    {
      CounterBounds(run, window, i);
    }
    if s != {} {
      var first := HasLeast(s);
      var e := CounterAt(run, window, first).expires;
      var s1 := SameWindow(run, window, s, e);
      var s2 := s - s1;
      forall i | i in s2 ensures CounterAt(run, window, i).expires >= e + window {
        LaterCounter(run, window, first, i);
      }
      if s2 == {} {
        assert s1 == s;
        WindowAdmitsAtMostLimit(run, window, limit, key, s1, e);
      } else {
        var second := HasLeast(s2);
        var e2 := CounterAt(run, window, second).expires;
        forall i | i in s2 ensures CounterAt(run, window, i).expires == e2 {
          if i != second {
            LaterCounter(run, window, second, i);
          }
        }
        WindowAdmitsAtMostLimit(run, window, limit, key, s2, e2);
        DistinctCounts(run, window, key, s1, e, 2, limit);
        assert s == s1 + s2;
      }
    }
  }

  /* ---- the bound is reached ---- */

  /** One request opens a window, the rest of the limit comes just before it closes, and a full limit right after. */
  function Burst(key: Key, limit: nat, window: int): seq<Request> {
    seq(2 * limit, i => Request(key, if i == 0 then 0 else if i < limit then window - 1 else window))
  }

  lemma {:induction false} BurstCounter(key: Key, limit: nat, window: int, i: nat)
    requires window >= 2 && i < 2 * limit
    ensures CounterAt(Burst(key, limit, window), window, i) ==
      if i < limit then Counter(i + 1, window) else Counter(i - limit + 1, 2 * window)
  {
    var run := Burst(key, limit, window);
    Unfold(run, window, i + 1);
    if i > 0 {
      BurstCounter(key, limit, window, i - 1);
      CounterKept(run, window, i - 1, i);
    }
  }

  function Range(lo: nat, hi: nat): (r: set<nat>)
    requires lo <= hi
    ensures (forall i: nat :: i in r <==> lo <= i < hi) && |r| == hi - lo
  {
    if lo == hi then {} else Range(lo, hi - 1) + {hi - 1}
  }

  lemma BurstAdmission(key: Key, limit: nat, window: int, i: nat)
    requires limit >= 1 && window >= 2
    ensures i in AdmittedIn(Burst(key, limit, window), window, limit, key, 1) <==> 1 <= i < 2 * limit
  {
    if i < 2 * limit {
      BurstCounter(key, limit, window, i);
      assert Burst(key, limit, window)[i].key == key;
    }
    hide CounterAt;
  }

  /** The bound is reached: a run with 2 * limit - 1 admitted requests in one interval of length `window`. */
  lemma BoundIsTight(key: Key, limit: nat, window: int)
    requires limit >= 1 && window >= 2
    ensures var run := Burst(key, limit, window);
      InOrder(run) && |AdmittedIn(run, window, limit, key, 1)| == 2 * limit - 1
  {
    var run := Burst(key, limit, window);
    var s := AdmittedIn(run, window, limit, key, 1);
    hide AdmittedIn;
    forall i: nat ensures i in s <==> i in Range(1, 2 * limit) {
      BurstAdmission(key, limit, window, i);
    }
    assert s == Range(1, 2 * limit);
  }
}
