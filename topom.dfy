/** The topology manager's metadata engine: the persisted entities, the
    three keyed caches over them, cache invalidation, the store mutators and
    the context builder. */
module Topom {
  import opened Results
  import opened Models
  import opened MemStore
  import opened EntityCache
  import opened TopomContext

  /** The slot mappings every context holds: the persisted mapping of each
      slot id, or the default one for a slot never written. */
  function SlotView(slotStore: map<int, SlotMapping>): (r: map<int, SlotMapping>)
    ensures forall sid :: sid in r <==> 0 <= sid < MaxSlotNum
    ensures forall sid :: sid in r && sid in slotStore ==> r[sid] == slotStore[sid]
    ensures forall sid :: sid in r && sid !in slotStore ==> r[sid].id == sid && r[sid].groupId == 0
  {
    map sid | 0 <= sid < MaxSlotNum :: if sid in slotStore then slotStore[sid] else DefaultSlotMapping(sid)
  }

  /** Persisting a slot mapping changes that slot, and only that slot, of
      what a context can see. */
  lemma SlotViewUpdate(slotStore: map<int, SlotMapping>, m: SlotMapping)
    requires 0 <= m.id < MaxSlotNum
    ensures SlotView(slotStore[m.id := m]) == SlotView(slotStore)[m.id := m]
  {
    var after, before := SlotView(slotStore[m.id := m]), SlotView(slotStore)[m.id := m];
    assert after.Keys == before.Keys;
  }

  /** The context a coherent engine builds: exactly what is persisted. */
  function StoreContext(slotStore: map<int, SlotMapping>, groupStore: map<int, Group>, proxyStore: map<string, Proxy>): Context
  {
    Context(SlotView(slotStore), groupStore, proxyStore)
  }

  ghost predicate SlotsKeyed(slots: map<int, SlotMapping>)
  {
    forall sid :: sid in slots ==> slots[sid].id == sid
  }

  ghost predicate GroupsKeyed(group: map<int, Group>)
  {
    forall gid :: gid in group ==> group[gid].id == gid
  }

  ghost predicate ProxiesKeyed(proxy: map<string, Proxy>)
  {
    forall t :: t in proxy ==> proxy[t].token == t
  }

  /** A slot cache holds only real slots, each under its own id, and never
      records a slot as absent. */
  ghost predicate SlotCacheValid(c: Cache<int, SlotMapping>)
  {
    && (forall sid :: Lookup(c, sid).Known? ==> 0 <= sid < MaxSlotNum && Lookup(c, sid).value.id == sid)
    && (forall sid :: 0 <= sid < MaxSlotNum ==> !Lookup(c, sid).Absent?)
  }

  ghost predicate GroupCacheKeyed(c: Cache<int, Group>)
  {
    forall gid :: Lookup(c, gid).Known? ==> Lookup(c, gid).value.id == gid
  }

  ghost predicate ProxyCacheKeyed(c: Cache<string, Proxy>)
  {
    forall t :: Lookup(c, t).Known? ==> Lookup(c, t).value.token == t
  }

  /** A valid slot cache fills to every slot, each under its own id, and
      stays valid once refilled. */
  lemma SlotFillComplete(c: Cache<int, SlotMapping>, slotStore: map<int, SlotMapping>)
    requires SlotCacheValid(c) && SlotsKeyed(slotStore)
    ensures forall sid :: sid in Fill(c, SlotView(slotStore)) <==> 0 <= sid < MaxSlotNum
    ensures SlotsKeyed(Fill(c, SlotView(slotStore)))
    ensures SlotCacheValid(Refilled(c, SlotView(slotStore)))
  {
  }

  lemma GroupFillKeyed(c: Cache<int, Group>, groupStore: map<int, Group>)
    requires GroupCacheKeyed(c) && GroupsKeyed(groupStore)
    ensures GroupsKeyed(Fill(c, groupStore))
    ensures GroupCacheKeyed(Refilled(c, groupStore))
  {
  }

  lemma ProxyFillKeyed(c: Cache<string, Proxy>, proxyStore: map<string, Proxy>)
    requires ProxyCacheKeyed(c) && ProxiesKeyed(proxyStore)
    ensures ProxiesKeyed(Fill(c, proxyStore))
    ensures ProxyCacheKeyed(Refilled(c, proxyStore))
  {
  }

  class Topom {
    var slotStore: map<int, SlotMapping>
    var groupStore: map<int, Group>
    var proxyStore: map<string, Proxy>
    var slotCache: Cache<int, SlotMapping>
    var groupCache: Cache<int, Group>
    var proxyCache: Cache<string, Proxy>

    /** Every persisted or cached entity sits under its own id or token; a
        cached slot is a real slot, and no slot is ever known to be absent. */
    ghost predicate Valid()
      reads this
    {
      && SlotsKeyed(slotStore) && GroupsKeyed(groupStore) && ProxiesKeyed(proxyStore)
      && SlotCacheValid(slotCache) && GroupCacheKeyed(groupCache) && ProxyCacheKeyed(proxyCache)
    }

    /** Every cache fills to exactly its store. */
    ghost predicate Coherent()
      reads this
    {
      && EntityCache.Coherent(slotCache, SlotView(slotStore))
      && EntityCache.Coherent(groupCache, groupStore)
      && EntityCache.Coherent(proxyCache, proxyStore)
    }

    /** The context a build would return now. */
    function Snapshot(): Context
      reads this
    {
      Context(Fill(slotCache, SlotView(slotStore)), Fill(groupCache, groupStore), Fill(proxyCache, proxyStore))
    }

    /** An engine over an empty store with cold caches. */
    constructor ()
      ensures Valid() && Coherent()
      ensures slotStore == map[] && groupStore == map[] && proxyStore == map[]
      ensures slotCache == Cold && groupCache == Cold && proxyCache == Cold
    {
      slotStore, groupStore, proxyStore := map[], map[], map[];
      slotCache, groupCache, proxyCache := Cold, Cold, Cold;
    }

    method DirtySlotsCache(sid: int)
      requires Valid()
      requires 0 <= sid < MaxSlotNum
      modifies this
      ensures Valid()
      ensures slotCache == Dirty(old(slotCache), sid)
      ensures groupCache == old(groupCache) && proxyCache == old(proxyCache)
      ensures slotStore == old(slotStore) && groupStore == old(groupStore) && proxyStore == old(proxyStore)
    {
      slotCache := Dirty(slotCache, sid);
    }

    method DirtyGroupCache(gid: int)
      requires Valid()
      modifies this
      ensures Valid()
      ensures groupCache == Dirty(old(groupCache), gid)
      ensures slotCache == old(slotCache) && proxyCache == old(proxyCache)
      ensures slotStore == old(slotStore) && groupStore == old(groupStore) && proxyStore == old(proxyStore)
    {
      groupCache := Dirty(groupCache, gid);
    }

    method DirtyProxyCache(token: string)
      requires Valid()
      modifies this
      ensures Valid()
      ensures proxyCache == Dirty(old(proxyCache), token)
      ensures slotCache == old(slotCache) && groupCache == old(groupCache)
      ensures slotStore == old(slotStore) && groupStore == old(groupStore) && proxyStore == old(proxyStore)
    {
      proxyCache := Dirty(proxyCache, token);
    }

    /** Flushes every cache: the next build re-reads everything. */
    method DirtyCacheAll()
      requires Valid()
      modifies this
      ensures Valid() && Coherent()
      ensures slotCache == Cold && groupCache == Cold && proxyCache == Cold
      ensures slotStore == old(slotStore) && groupStore == old(groupStore) && proxyStore == old(proxyStore)
    {
      slotCache, groupCache, proxyCache := Cold, Cold, Cold;
    }

    method StoreUpdateSlotMapping(m: SlotMapping) returns (r: Outcome<StoreError>)
      requires Valid()
      modifies this
      ensures Valid()
      ensures r == Pass && slotStore == old(slotStore)[m.id := m]
      ensures groupStore == old(groupStore) && proxyStore == old(proxyStore)
      ensures slotCache == old(slotCache) && groupCache == old(groupCache) && proxyCache == old(proxyCache)
    {
      slotStore := slotStore[m.id := m];
      r := Pass;
    }

    /** Persists a new group; refuses, changing nothing, when one with the
        same id exists. */
    method StoreCreateGroup(g: Group) returns (r: Outcome<StoreError>)
      requires Valid()
      modifies this
      ensures Valid()
      ensures g.id in old(groupStore) ==> r == Fail(NodeExists) && groupStore == old(groupStore)
      ensures g.id !in old(groupStore) ==> r == Pass && groupStore == old(groupStore)[g.id := g]
      ensures slotStore == old(slotStore) && proxyStore == old(proxyStore)
      ensures slotCache == old(slotCache) && groupCache == old(groupCache) && proxyCache == old(proxyCache)
    {
      if g.id in groupStore {
        return Fail(NodeExists);
      }
      groupStore := groupStore[g.id := g];
      r := Pass;
    }

    method StoreUpdateGroup(g: Group) returns (r: Outcome<StoreError>)
      requires Valid()
      modifies this
      ensures Valid()
      ensures r == Pass && groupStore == old(groupStore)[g.id := g]
      ensures slotStore == old(slotStore) && proxyStore == old(proxyStore)
      ensures slotCache == old(slotCache) && groupCache == old(groupCache) && proxyCache == old(proxyCache)
    {
      groupStore := groupStore[g.id := g];
      r := Pass;
    }

    method StoreRemoveGroup(g: Group) returns (r: Outcome<StoreError>)
      requires Valid()
      modifies this
      ensures Valid()
      ensures r == Pass && groupStore == old(groupStore) - {g.id}
      ensures slotStore == old(slotStore) && proxyStore == old(proxyStore)
      ensures slotCache == old(slotCache) && groupCache == old(groupCache) && proxyCache == old(proxyCache)
    {
      groupStore := groupStore - {g.id};
      r := Pass;
    }

    /** Persists a new proxy; refuses, changing nothing, when one with the
        same token exists. */
    method StoreCreateProxy(p: Proxy) returns (r: Outcome<StoreError>)
      requires Valid()
      modifies this
      ensures Valid()
      ensures p.token in old(proxyStore) ==> r == Fail(NodeExists) && proxyStore == old(proxyStore)
      ensures p.token !in old(proxyStore) ==> r == Pass && proxyStore == old(proxyStore)[p.token := p]
      ensures slotStore == old(slotStore) && groupStore == old(groupStore)
      ensures slotCache == old(slotCache) && groupCache == old(groupCache) && proxyCache == old(proxyCache)
    {
      if p.token in proxyStore {
        return Fail(NodeExists);
      }
      proxyStore := proxyStore[p.token := p];
      r := Pass;
    }

    method StoreRemoveProxy(p: Proxy) returns (r: Outcome<StoreError>)
      requires Valid()
      modifies this
      ensures Valid()
      ensures r == Pass && proxyStore == old(proxyStore) - {p.token}
      ensures slotStore == old(slotStore) && groupStore == old(groupStore)
      ensures slotCache == old(slotCache) && groupCache == old(groupCache) && proxyCache == old(proxyCache)
    {
      proxyStore := proxyStore - {p.token};
      r := Pass;
    }

    /** Builds a context: fills every cache's misses from the store, keeps
        the filled entities cached, and returns them as the snapshot. Every
        slot is in it under its own id, and every group and proxy under its
        own id or token. */
    method NewContext() returns (ctx: Context)
      requires Valid()
      modifies this
      ensures Valid()
      ensures ctx == old(Snapshot())
      ensures slotCache == Refilled(old(slotCache), SlotView(slotStore))
      ensures groupCache == Refilled(old(groupCache), groupStore)
      ensures proxyCache == Refilled(old(proxyCache), proxyStore)
      ensures slotStore == old(slotStore) && groupStore == old(groupStore) && proxyStore == old(proxyStore)
      ensures forall sid :: sid in ctx.slots <==> 0 <= sid < MaxSlotNum
      ensures SlotsKeyed(ctx.slots) && GroupsKeyed(ctx.group) && ProxiesKeyed(ctx.proxy)
      ensures old(Coherent()) ==> Coherent() && ctx == StoreContext(slotStore, groupStore, proxyStore)
    {
      RefilledIsFrozen(slotCache, SlotView(slotStore), SlotView(slotStore));
      RefilledIsFrozen(groupCache, groupStore, groupStore);
      RefilledIsFrozen(proxyCache, proxyStore, proxyStore);
      SlotFillComplete(slotCache, slotStore);
      GroupFillKeyed(groupCache, groupStore);
      ProxyFillKeyed(proxyCache, proxyStore);
      var slots := Refill(slotCache, SlotView(slotStore));
      var group := Refill(groupCache, groupStore);
      var proxy := Refill(proxyCache, proxyStore);
      slotCache := Refilled(slotCache, SlotView(slotStore));
      groupCache := Refilled(groupCache, groupStore);
      proxyCache := Refilled(proxyCache, proxyStore);
      ctx := Context(slots, group, proxy);
    }
  }
}
