/** One kind's entity cache: what it remembers per key, how a fresh
    context fills its misses from the persisted store, and invalidation. */
module EntityCache {

  /** What the cache knows about one key. */
  datatype Entry<T> = Unknown | Absent | Known(value: T)

  /** A cache that was never filled, or was flushed as a whole (Cold), or one
      whose key set is fixed by its last fill (Warm): the values it holds and
      the keys invalidated since. A key that a warm cache neither holds nor
      has invalidated is known to be absent. */
  datatype Cache<K, T> = Cold | Warm(known: map<K, T>, dirty: set<K>)

  function Lookup<K, T>(c: Cache<K, T>, k: K): Entry<T>
  {
    match c
    case Cold => Unknown
    case Warm(known, dirty) =>
      if k in dirty then Unknown else if k in known then Known(known[k]) else Absent
  }

  /** Invalidates one key: the next fill re-reads it from the store. No
      other key's entry changes. */
  function Dirty<K(!new), T>(c: Cache<K, T>, k: K): (r: Cache<K, T>)
    ensures Lookup(r, k) == Unknown
    ensures forall j :: j != k ==> Lookup(r, j) == Lookup(c, j)
  {
    match c
    case Cold => Cold
    case Warm(known, dirty) => Warm(known - {k}, dirty + {k})
  }

  /** The entities a fresh context sees: a cached value is used as it is
      (whatever the store now holds), an unknown key is read from the store,
      and a key known to be absent stays absent. */
  function Fill<K(!new), T>(c: Cache<K, T>, store: map<K, T>): (r: map<K, T>)
    ensures forall k :: k in r <==> (Lookup(c, k).Known? || (Lookup(c, k).Unknown? && k in store))
    ensures forall k :: k in r ==> r[k] == if Lookup(c, k).Known? then Lookup(c, k).value else store[k]
  {
    match c
    case Cold => store
    case Warm(known, dirty) => (known - dirty) + (store - (store.Keys - dirty))
  }

  /** The cache after a fill: exactly the filled entities, all known. */
  function Refilled<K(!new), T>(c: Cache<K, T>, store: map<K, T>): (r: Cache<K, T>)
    ensures forall k :: Lookup(r, k) == if k in Fill(c, store) then Known(Fill(c, store)[k]) else Absent
  {
    Warm(Fill(c, store), {})
  }

  /** A cache is coherent with a store when a fill sees exactly the store. */
  ghost predicate Coherent<K(!new), T>(c: Cache<K, T>, store: map<K, T>)
  {
    Fill(c, store) == store
  }

  /** Fills the misses of a cache from the store, key by key. */
  method Refill<K(!new), T>(c: Cache<K, T>, store: map<K, T>) returns (seen: map<K, T>)
    ensures seen == Fill(c, store)
  {
    match c {
      case Cold =>
        seen := store;
      case Warm(known, dirty) =>
        seen := known - dirty;
        var todo := dirty;
        while todo != {}
          invariant todo <= dirty
          invariant forall k :: k in seen <==> (k in known && k !in dirty) || (k in dirty && k !in todo && k in store)
          invariant forall k :: k in seen ==> seen[k] == if k in dirty then store[k] else known[k]
          decreases todo
        {
          var k :| k in todo;
          if k in store {
            seen := seen[k := store[k]];
          }
          todo := todo - {k};
        }
        var full := Fill(c, store);
        assert seen.Keys == full.Keys;
    }
  }

  /** A second fill after a fill, with no invalidation in between, sees the
      same entities even when the store has changed since. */
  lemma RefilledIsFrozen<K(!new), T>(c: Cache<K, T>, store: map<K, T>, later: map<K, T>)
    ensures Fill(Refilled(c, store), later) == Fill(c, store)
  {
    var before, after := Fill(c, store), Fill(Refilled(c, store), later);
    assert after.Keys == before.Keys;
  }

  /** Invalidating a key of a filled cache, with nothing persisted in
      between, changes nothing the next fill sees, provided the fill agreed
      with the store on that key. */
  lemma DirtyWithoutWriteInvisible<K(!new), T>(c: Cache<K, T>, store: map<K, T>, k: K)
    requires k in Fill(c, store) <==> k in store
    requires k in store ==> Fill(c, store)[k] == store[k]
    ensures Fill(Dirty(Refilled(c, store), k), store) == Fill(c, store)
  {
    var before, after := Fill(c, store), Fill(Dirty(Refilled(c, store), k), store);
    assert after.Keys == before.Keys;
  }

  /** Persisting a value for k and invalidating k keeps a coherent cache
      coherent, in either order. */
  lemma WriteAndDirtyKeepCoherent<K(!new), T>(c: Cache<K, T>, store: map<K, T>, k: K, v: T)
    requires Coherent(c, store)
    ensures Coherent(Dirty(c, k), store[k := v])
  {
    var s := store[k := v];
    var after := Fill(Dirty(c, k), s);
    assert after.Keys == s.Keys;
  }

  /** Removing k from the store and invalidating k keeps a coherent cache
      coherent. */
  lemma RemoveAndDirtyKeepCoherent<K(!new), T>(c: Cache<K, T>, store: map<K, T>, k: K)
    requires Coherent(c, store)
    ensures Coherent(Dirty(c, k), store - {k})
  {
    var s := store - {k};
    var after := Fill(Dirty(c, k), s);
    assert after.Keys == s.Keys;
  }

  /** A write that is not followed by an invalidation stays invisible to a
      cache that had already filled k. */
  lemma WriteWithoutDirtyInvisible<K(!new), T>(c: Cache<K, T>, store: map<K, T>, k: K, v: T)
    requires k in Fill(c, store)
    ensures Fill(Refilled(c, store), store[k := v])[k] == Fill(c, store)[k]
  {
    RefilledIsFrozen(c, store, store[k := v]);
  }
}
