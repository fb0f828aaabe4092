/**
 * The memo of the host bindings (src/cache.ts): a store of values by string key and
 * a flag that turns memoisation off. While it is off, lookups pass their value
 * straight through and the store is neither read nor written.
 */
module OperationCaches {
  /** What a lookup returns, and the store after it. */
  datatype Fetched<V> = Fetched(value: V, store: map<string, V>)

  /**
   * `getOrSet` on a given state. While disabled it gives the default back. Otherwise a
   * stored value wins, and an absent key is stored with the default.
   */
  function Fetch<V>(disabled: bool, store: map<string, V>, key: string, defaultValue: V): Fetched<V> {
    if disabled then Fetched(defaultValue, store)
    else if key in store then Fetched(store[key], store)
    else Fetched(defaultValue, store[key := defaultValue])
  }

  /** `getOrCompute` on a given state: the computation stands for the default, and is only asked for when it is used. */
  function FetchComputed<V>(disabled: bool, store: map<string, V>, key: string, compute: () -> V): Fetched<V> {
    if disabled then Fetched(compute(), store)
    else if key in store then Fetched(store[key], store)
    else
      var value := compute();
      Fetched(value, store[key := value])
  }

  class OperationCache<V> {
    var disabled: bool
    var store: map<string, V>

    constructor(disabled: bool)
      ensures this.disabled == disabled && store == map[]
    {
      this.disabled := disabled;
      store := map[];
    }

    method GetOrSet(key: string, defaultValue: V) returns (r: V)
      modifies this
      ensures disabled == old(disabled)
      ensures Fetched(r, store) == Fetch(old(disabled), old(store), key, defaultValue)
    {
      if disabled {
        return defaultValue;
      }
      if key in store {
        return store[key];
      }
      store := store[key := defaultValue];
      return defaultValue;
    }

    method GetOrCompute(key: string, compute: () -> V) returns (r: V)
      modifies this
      ensures disabled == old(disabled)
      ensures Fetched(r, store) == FetchComputed(old(disabled), old(store), key, compute)
    {
      if disabled {
        return compute();
      }
      if key in store {
        return store[key];
      }
      var value := compute();
      store := store[key := value];
      return value;
    }

    method Disable()
      modifies this
      ensures disabled && store == old(store)
    {
      disabled := true;
    }

    method Enable()
      modifies this
      ensures !disabled && store == old(store)
    {
      disabled := false;
    }

    method Clear()
      modifies this
      ensures store == map[] && disabled == old(disabled)
    {
      store := map[];
    }

    /** A new cache with the same flag and an empty store; this one is left as it is. */
    method Clone() returns (c: OperationCache<V>)
      ensures fresh(c) && c.disabled == disabled && c.store == map[]
    {
      c := new OperationCache(disabled);
    }
  }

  // ---------------------------------------------------------------------------
  // Properties

  /** While disabled, a lookup returns the value it is given and leaves the store alone. */
  lemma {:induction false} DisabledPassesThrough<V>(store: map<string, V>, key: string, defaultValue: V, compute: () -> V)
    ensures Fetch(true, store, key, defaultValue) == Fetched(defaultValue, store)
    ensures FetchComputed(true, store, key, compute) == Fetched(compute(), store)
  {
  }

  /** While enabled, a stored value is returned whatever default or computation comes with the lookup. */
  lemma {:induction false} StoredWins<V>(store: map<string, V>, key: string, defaultValue: V, compute: () -> V)
    requires key in store
    ensures Fetch(false, store, key, defaultValue) == Fetched(store[key], store)
    ensures FetchComputed(false, store, key, compute) == Fetched(store[key], store)
  {
  }

  /**
   * While enabled, the first lookup of a key fixes its value: a second lookup with any
   * other default returns the identical value and changes nothing.
   */
  lemma {:induction false} Memoised<V>(store: map<string, V>, key: string, first: V, second: V)
    ensures var f := Fetch(false, store, key, first);
      Fetch(false, f.store, key, second) == f
  {
  }

  /** A lookup stores at most its own key: every other key keeps its entry, and the key is stored once the lookup is enabled. */
  lemma {:induction false} OnlyKeyStored<V>(disabled: bool, store: map<string, V>, key: string, defaultValue: V)
    ensures var f := Fetch(disabled, store, key, defaultValue);
      f.store.Keys == (if disabled then store.Keys else store.Keys + {key}) &&
      forall k :: k in store ==> f.store[k] == store[k]
  {
  }

  /** `getOrCompute` behaves as `getOrSet` given the computed value. */
  lemma {:induction false} ComputedIsFetched<V>(disabled: bool, store: map<string, V>, key: string, compute: () -> V)
    ensures FetchComputed(disabled, store, key, compute) == Fetch(disabled, store, key, compute())
  {
  }
}
