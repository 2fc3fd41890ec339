/** The multi-key seat locks kept in Redis: two Lua scripts, each of which runs atomically. */
module RedisLocks {
  datatype LockKey = LockKey(schedule: int, seat: int, from: int, to: int)

  type Store = map<LockKey, int>

  predicate DistinctKeys(keys: seq<LockKey>) {
    forall i, j :: 0 <= i < j < |keys| ==> keys[i] != keys[j]
  }

  function KeySet(keys: seq<LockKey>): set<LockKey> {
    set k | k in keys
  }

  predicate AllFree(store: Store, keys: seq<LockKey>) {
    forall k :: k in keys ==> k !in store
  }

  predicate CanAcquire(store: Store, keys: seq<LockKey>) {
    DistinctKeys(keys) && AllFree(store, keys)
  }

  function Claim(keys: set<LockKey>, value: int): Store {
    map k | k in keys :: value
  }

  /** The keys that one caller has set and no one has taken away. */
  function HeldBy(store: Store, keys: set<LockKey>, value: int): set<LockKey> {
    set k | k in keys && k in store && store[k] == value
  }

  function Acquired(store: Store, keys: seq<LockKey>, value: int): Store {
    if CanAcquire(store, keys) then store + Claim(KeySet(keys), value) else store
  }

  function Released(store: Store, keys: seq<LockKey>, value: int): Store {
    store - HeldBy(store, KeySet(keys), value)
  }

  function ForceReleased(store: Store, keys: seq<LockKey>): Store {
    store - KeySet(keys)
  }

  lemma PrefixAcquirable(store: Store, keys: seq<LockKey>, n: nat)
    requires n < |keys| && CanAcquire(store, keys[..n])
    ensures CanAcquire(store, keys[..n + 1]) <==> keys[n] !in store && keys[n] !in keys[..n]
    ensures CanAcquire(store, keys) ==> CanAcquire(store, keys[..n + 1])
  {
    var next := keys[..n + 1];
    assert next[n] == keys[n] && next[..n] == keys[..n];
    if keys[n] !in store && keys[n] !in keys[..n] {
      forall i, j | 0 <= i < j < |next| ensures next[i] != next[j] {
        assert next[i] == keys[..n][i];
        if j < n {
          assert next[j] == keys[..n][j];
        }
      }
      forall k | k in next ensures k !in store {
        assert k == keys[n] || k in keys[..n];
      }
    }
    if CanAcquire(store, next) {
      assert keys[n] in next;
      forall i | 0 <= i < n ensures keys[i] != keys[n] {
        assert next[i] != next[n];
      }
    }
  }

  lemma ClaimOneMore(store: Store, keys: seq<LockKey>, n: nat, value: int)
    requires n < |keys|
    ensures (store + Claim(KeySet(keys[..n]), value))[keys[n] := value] == store + Claim(KeySet(keys[..n + 1]), value)
  {
    assert KeySet(keys[..n + 1]) == KeySet(keys[..n]) + {keys[n]};
  }

  /** Every key before position `n` could be set, the one at `n` could not. */
  ghost predicate FirstFailure(store: Store, keys: seq<LockKey>, n: int) {
    0 <= n < |keys| && CanAcquire(store, keys[..n]) && (keys[n] in store || keys[n] in keys[..n])
  }

  lemma ClaimUndone(store: Store, keys: seq<LockKey>, value: int)
    requires CanAcquire(store, keys)
    ensures store + Claim(KeySet(keys), value) - KeySet(keys) == store
    ensures HeldBy(store + Claim(KeySet(keys), value), KeySet(keys), value) == KeySet(keys)
  {
  }

  lemma NothingClaimed(store: Store, keys: seq<LockKey>, value: int)
    requires keys == []
    ensures CanAcquire(store, keys) && store + Claim(KeySet(keys), value) == store
  {
    assert Claim(KeySet(keys), value) == map[];
  }

  /** A release takes no key that holds another value, a forced one takes every listed key; neither changes a value. */
  lemma ReleaseReaches(store: Store, keys: seq<LockKey>, value: int, k: LockKey)
    requires k in store
    ensures k in Released(store, keys, value) <==> k !in keys || store[k] != value
    ensures k in ForceReleased(store, keys) <==> k !in keys
    ensures k in Released(store, keys, value) ==> Released(store, keys, value)[k] == store[k]
    ensures k in ForceReleased(store, keys) ==> ForceReleased(store, keys)[k] == store[k]
  {
  }

  lemma BlockedInStore(store: Store, keys: seq<LockKey>, n: nat, value: int)
    requires n < |keys| && CanAcquire(store, keys[..n])
    ensures keys[n] in store + Claim(KeySet(keys[..n]), value) <==> keys[n] in store || keys[n] in keys[..n]
  {
  }

  class SeatLockCache {
    var store: Store

    constructor ()
      ensures store == map[]
    {
      store := map[];
    }

    /**
     All or nothing: success exactly when every key was free and no key is listed twice, and then all of them
     hold the value. A failure reports the first key in the way and leaves the store as it was.
     */
    method Acquire(keys: seq<LockKey>, value: int) returns (ok: bool, inserted: seq<LockKey>, failed: seq<LockKey>)
      modifies this
      ensures ok <==> CanAcquire(old(store), keys)
      ensures store == Acquired(old(store), keys, value)
      ensures ok ==> inserted == keys && failed == [] && HeldBy(store, KeySet(keys), value) == KeySet(keys)
      ensures !ok ==> inserted == [] && exists n :: FirstFailure(old(store), keys, n) && failed == [keys[n]]
    {
      hide KeySet, Claim, CanAcquire, HeldBy;
      ghost var before := store;
      inserted, failed := [], [];
      var i := 0;
      NothingClaimed(before, keys[..i], value);
      while i < |keys|
        invariant i <= |keys| && inserted == keys[..i] && failed == []
        invariant CanAcquire(before, keys[..i]) && store == before + Claim(KeySet(keys[..i]), value)
      {
        var key := keys[i];
        PrefixAcquirable(before, keys, i);
        BlockedInStore(before, keys, i, value);
        if key in store {
          failed := failed + [key];
          Undo(inserted);
          ClaimUndone(before, keys[..i], value);
          assert FirstFailure(before, keys, i);
          return false, [], failed;
        }
        ClaimOneMore(before, keys, i, value);
        store := store[key := value];
        inserted := inserted + [key];
        i := i + 1;
      }
      assert keys[..i] == keys;
      ClaimUndone(before, keys, value);
      return true, inserted, [];
    }

    /** The inner loop of the script: take back the keys set so far. */
    method Undo(inserted: seq<LockKey>)
      modifies this
      ensures store == old(store) - KeySet(inserted)
    {
      var j := 0;
      while j < |inserted|
        invariant j <= |inserted| && store == old(store) - KeySet(inserted[..j])
      {
        assert KeySet(inserted[..j + 1]) == KeySet(inserted[..j]) + {inserted[j]};
        store := store - {inserted[j]};
        j := j + 1;
      }
      assert inserted[..j] == inserted;
    }

    /**
     Deletes exactly the listed keys that hold the caller's value; a key listed twice counts as failed the second
     time, so the reply is a success exactly when all keys are distinct and held by the caller.
     */
    method Release(keys: seq<LockKey>, value: int) returns (ok: bool, released: seq<LockKey>, failed: seq<LockKey>)
      modifies this
      ensures store == Released(old(store), keys, value)
      ensures KeySet(released) == HeldBy(old(store), KeySet(keys), value) && DistinctKeys(released)
      ensures |released| + |failed| == |keys|
      ensures ok <==> DistinctKeys(keys) && HeldBy(old(store), KeySet(keys), value) == KeySet(keys)
    {
      ghost var before := store;
      released, failed := [], [];
      var i := 0;
      while i < |keys|
        invariant i <= |keys| && |released| + |failed| == i
        invariant store == Released(before, keys[..i], value)
        invariant KeySet(released) == HeldBy(before, KeySet(keys[..i]), value) && DistinctKeys(released)
        invariant failed == [] <==> DistinctKeys(keys[..i]) && HeldBy(before, KeySet(keys[..i]), value) == KeySet(keys[..i])
      {
        var key := keys[i];
        ReleaseNext(before, keys, i, value);
        if key in store && store[key] == value {
          store := store - {key};
          assert key !in KeySet(released);
          released := released + [key];
          assert KeySet(released) == KeySet(released[..|released| - 1]) + {key};
        } else {
          failed := failed + [key];
        }
        i := i + 1;
      }
      assert keys[..i] == keys;
      ok := failed == [];
    }

    /** `DEL` of every key whoever holds it; the reply is the number of keys that existed. */
    method ForceRelease(keys: seq<LockKey>) returns (deleted: nat)
      modifies this
      ensures store == ForceReleased(old(store), keys) && deleted == |old(store).Keys * KeySet(keys)|
    {
      deleted := |store.Keys * KeySet(keys)|;
      store := store - KeySet(keys);
    }
  }

  lemma ReleaseNext(before: Store, keys: seq<LockKey>, i: nat, value: int)
    requires i < |keys|
    ensures var mid := Released(before, keys[..i], value);
      var hit := keys[i] in mid && mid[keys[i]] == value;
      && Released(before, keys[..i + 1], value) == (if hit then mid - {keys[i]} else mid)
      && HeldBy(before, KeySet(keys[..i + 1]), value) == HeldBy(before, KeySet(keys[..i]), value) + (if hit then {keys[i]} else {})
      && (hit ==> keys[i] !in HeldBy(before, KeySet(keys[..i]), value))
      && (DistinctKeys(keys[..i + 1]) && HeldBy(before, KeySet(keys[..i + 1]), value) == KeySet(keys[..i + 1])
          <==> hit && DistinctKeys(keys[..i]) && HeldBy(before, KeySet(keys[..i]), value) == KeySet(keys[..i]))
  {
    var prefix, next := keys[..i], keys[..i + 1];
    assert KeySet(next) == KeySet(prefix) + {keys[i]};
    assert next[..i] == prefix && next[i] == keys[i];
    if DistinctKeys(next) {
      assert keys[i] !in prefix;
    }
    if keys[i] !in prefix && DistinctKeys(prefix) {
      forall a, b | 0 <= a < b < |next| ensures next[a] != next[b] {
        assert next[a] == prefix[a] && (b < i ==> next[b] == prefix[b]);
      }
    }
  }

  /** A successful acquire followed by the caller's release restores the store. */
  lemma AcquireThenRelease(store: Store, keys: seq<LockKey>, value: int)
    requires CanAcquire(store, keys)
    ensures Released(Acquired(store, keys, value), keys, value) == store
  {
    assert HeldBy(Acquired(store, keys, value), KeySet(keys), value) == KeySet(keys);
  }

  /** Two callers never both hold a key: after one success the other fails as long as they share a key. */
  lemma SecondCallerFails(store: Store, mine: seq<LockKey>, yours: seq<LockKey>, value: int, other: int, shared: LockKey)
    requires CanAcquire(store, mine) && shared in mine && shared in yours
    ensures var mid := Acquired(store, mine, value); !CanAcquire(mid, yours) && Acquired(mid, yours, other) == mid
  {
    assert shared in Claim(KeySet(mine), value);
  }
}
