/** Who is admitted: the windows of a key told from the request times alone, and the place of a request in its window. */
module RateAdmission {
  import opened Options
  import opened RateLimit

  /** The last request for a key among the first `n`. */
  function Last(run: seq<Request>, key: Key, n: nat): (last: Option<nat>)
    requires n <= |run|
    ensures last.Some? ==> last.value < n && run[last.value].key == key && forall j :: last.value < j < n ==> run[j].key != key
    ensures last.None? ==> forall j :: 0 <= j < n ==> run[j].key != key
  {
    if n == 0 then None else if run[n - 1].key == key then Some(n - 1) else Last(run, key, n - 1)
  }

  /** When the window of request `i` was opened: by itself, unless the window of the request before it is still running. */
  function Opened(run: seq<Request>, window: int, i: nat): int
    requires i < |run|
    decreases i
  {
    match Last(run, run[i].key, i)
    case None => run[i].at
    case Some(j) => if run[i].at < Opened(run, window, j) + window then Opened(run, window, j) else run[i].at
  }

  /** It comes after the end of the last window of its key, or is the first for its key. */
  predicate OpensWindow(run: seq<Request>, window: int, i: nat)
    requires i < |run|
  {
    match Last(run, run[i].key, i)
    case None => true
    case Some(j) => Opened(run, window, j) + window <= run[i].at
  }

  /** The requests for the same key that came before `i` in its window. */
  function EarlierInWindow(run: seq<Request>, window: int, i: nat): set<nat>
    requires i < |run|
  {
    set j: nat | j < i && run[j].key == run[i].key && Opened(run, window, j) == Opened(run, window, i)
  }

  /** The store holds, for each key, the counter of its last request. */
  lemma {:induction false} StoreIs(run: seq<Request>, window: int, n: nat, key: Key)
    requires n <= |run|
    ensures var last := Last(run, key, n);
      && (key in After(run[..n], window) <==> last.Some?)
      && (last.Some? ==> After(run[..n], window)[key] == CounterAt(run, window, last.value))
    decreases n
  {
    if n > 0 {
      Unfold(run, window, n);
      if run[n - 1].key != key {
        StoreIs(run, window, n - 1, key);
      }
    }
  }

  lemma CounterStep(run: seq<Request>, window: int, i: nat)
    requires i < |run|
    ensures var (last, c) := (Last(run, run[i].key, i), CounterAt(run, window, i));
      if last.Some? && run[i].at < CounterAt(run, window, last.value).expires
      then c == Counter(CounterAt(run, window, last.value).count + 1, CounterAt(run, window, last.value).expires)
      else c == Counter(1, run[i].at + window)
  {
    StoreIs(run, window, i, run[i].key);
    Unfold(run, window, i + 1);
  }

  lemma {:induction false} CounterIsWindow(run: seq<Request>, window: int, i: nat)
    requires i < |run|
    ensures CounterAt(run, window, i).expires == Opened(run, window, i) + window
    decreases i
  {
    CounterStep(run, window, i);
    hide CounterAt;
    var last := Last(run, run[i].key, i);
    if last.Some? {
      CounterIsWindow(run, window, last.value);
    }
  }

  lemma SharesWindow(run: seq<Request>, window: int, i: nat)
    requires i < |run| && !OpensWindow(run, window, i)
    ensures var last := Last(run, run[i].key, i); last.Some? && Opened(run, window, i) == Opened(run, window, last.value)
  {
  }

  /** Within a window the earlier requests are those of the last one and the last one itself. */
  lemma EarlierAreOneMore(run: seq<Request>, window: int, i: nat)
    requires i < |run| && !OpensWindow(run, window, i)
    ensures var last := Last(run, run[i].key, i);
      last.Some? && EarlierInWindow(run, window, i) == EarlierInWindow(run, window, last.value) + {last.value}
  {
    SharesWindow(run, window, i);
    var p := Last(run, run[i].key, i).value;
    hide *;
    EarlierThanNext(run, window, i, p);
  }

  lemma EarlierThanNext(run: seq<Request>, window: int, i: nat, p: nat)
    requires p < i < |run| && run[p].key == run[i].key && Opened(run, window, i) == Opened(run, window, p)
    requires forall j :: p < j < i ==> run[j].key != run[i].key
    ensures EarlierInWindow(run, window, i) == EarlierInWindow(run, window, p) + {p}
  {
    hide Opened;
    forall j: nat ensures j in EarlierInWindow(run, window, i) <==> j in EarlierInWindow(run, window, p) || j == p {
    }
  }

  lemma NoneEarlier(run: seq<Request>, window: int, i: nat)
    requires window > 0 && InOrder(run) && i < |run| && OpensWindow(run, window, i)
    ensures EarlierInWindow(run, window, i) == {}
  {
    var last := Last(run, run[i].key, i);
    forall j: nat | j < i && run[j].key == run[i].key ensures Opened(run, window, j) < Opened(run, window, i) {
      CounterIsWindow(run, window, j);
      CounterIsWindow(run, window, last.value);
      if j < last.value {
        LaterCounter(run, window, j, last.value);
      }
    }
  }

  /** The counter of a request is its place in its window. */
  lemma {:induction false} CounterIsPlace(run: seq<Request>, window: int, i: nat)
    requires window > 0 && InOrder(run) && i < |run|
    ensures CounterAt(run, window, i).count == |EarlierInWindow(run, window, i)| + 1
    decreases i
  {
    CounterStep(run, window, i);
    hide CounterAt, EarlierInWindow, Opened;
    if OpensWindow(run, window, i) {
      NoneEarlier(run, window, i);
      OpeningCounter(run, window, i);
    } else {
      var j := Last(run, run[i].key, i).value;
      EarlierAreOneMore(run, window, i);
      CounterIsWindow(run, window, j);
      CounterIsPlace(run, window, j);
      NotEarlierThanItself(run, window, j);
    }
  }

  lemma OpeningCounter(run: seq<Request>, window: int, i: nat)
    requires i < |run| && OpensWindow(run, window, i)
    ensures CounterAt(run, window, i).count == 1
  {
    CounterStep(run, window, i);
    hide CounterAt;
    var last := Last(run, run[i].key, i);
    if last.Some? {
      CounterIsWindow(run, window, last.value);
    }
  }

  lemma NotEarlierThanItself(run: seq<Request>, window: int, i: nat)
    requires i < |run|
    ensures i !in EarlierInWindow(run, window, i)
  {
  }

  /**
   A request is admitted exactly when fewer than `limit` requests for its key came before it in the window that is open when
   it arrives; the one that opens a window always is, for a positive limit.
   */
  lemma AdmittedIff(run: seq<Request>, window: int, limit: nat, i: nat)
    requires window > 0 && InOrder(run) && i < |run|
    ensures Admitted(run, window, limit, i) <==> |EarlierInWindow(run, window, i)| < limit
    ensures OpensWindow(run, window, i) ==> (Admitted(run, window, limit, i) <==> limit >= 1)
  {
    CounterIsPlace(run, window, i);
    hide CounterAt, EarlierInWindow, OpensWindow;
    if OpensWindow(run, window, i) {
      OpeningCounter(run, window, i);
    }
  }
}
