# Topology manager metadata engine: store client, entity cache and slot resolver

This project models the metadata core of the codis topology manager (`pkg/topom`), as its cache and context tests pin it down. The model has three parts.

- **The in-memory coordination-store client** (`memClient` over a shared `memStore`). It is a path-keyed map of byte strings with Create, Update, Delete, Read, List and Close. Module `MemStore`, with the lexical path handling that List relies on in module `Paths`.
- **The entity cache and context builder.** Slot mappings, groups and proxies are persisted in the store, and each kind has a keyed cache over it.
  - A cache is either cold or warm. A cold cache has never been filled, or was flushed by `dirtyCacheAll`.
  - A warm cache holds the entities it filled and the keys invalidated since.
  - Building a context fills every key the cache cannot answer from the store, keeps the filled entities cached, and returns them as a point-in-time snapshot. A warm cache treats a key it does not hold as known to be absent. Only an invalidation makes the next build look again.
  - Store mutators never touch the cache: invalidating is the caller's job.
  - Every slot id in [0, 1024) is present in a context. A slot never written has the default mapping: owned by group 0, with no migration.
  - Modules `EntityCache` (the cache as a value with its fill semantics), `Topom` (the engine class with its stores, caches and operations) and `TopomContext` (the snapshot and its lookups).
- **The slot resolver** `toSlot` with `getGroupMaster`, in module `TopomContext`. It derives a slot's routable state from two inputs: the slot's migration state, and the promotion states of the groups the slot is routed to. A slot is locked at the Prepared handshake and whenever a group it is routed to is in the middle of a promotion (Prepared). Otherwise it is served by the master (first server) of its backend group. While its keys move, it also names the master it migrates from.

The test traces are replayed against the engine in modules `CacheScenarios` and `SlotStateTable`. `SlotStateTable` covers the full 6 × 4 × 4 table of slot and group states, both as a lemma over contexts and as the nested loop that drives the engine.

Module `Results` holds the `Result`/`Outcome` types that carry the store's and the lookups' errors.

## Model

| member | source | states |
|---|---|---|
| Paths.LastSlash | pkg/topom/topom_cache_test.go:170 | the index of the last separator in a path, or -1: a separator sits there and none after it |
| Paths.Collapse | pkg/topom/topom_cache_test.go:167 | the result has no repeated separator, is no longer than the input, and keeps its first and last character; with CollapseDoubled and CollapseKeepsCollapsed it is fixed exactly: runs of separators become one, everything else is kept in order |
| Paths.CollapseDoubled | pkg/topom/topom_cache_test.go:167 | a doubled separator anywhere in a path collapses exactly as a single one would |
| Paths.CollapseKeepsCollapsed | pkg/topom/topom_cache_test.go:167 | a path without repeated separators is left as it is |
| Paths.Clean | pkg/topom/topom_cache_test.go:167 | the cleaned path is non-empty, has no repeated separator and no trailing separator unless it is the root |
| Paths.Dir | pkg/topom/topom_cache_test.go:170 | the directory of a path, the part before its last separator, is itself a clean path |
| Paths.CleanKeepsClean | pkg/topom/topom_cache_test.go:167 | a clean path is its own cleaning |
| Paths.CleanIdempotent | pkg/topom/topom_cache_test.go:167 | cleaning twice is cleaning once |
| Paths.DirOfChild | pkg/topom/topom_cache_test.go:166-175 | the directory of "d/name", for a clean d and a name without separators, is d, so such a path is listed under d |
| MemStore.Store.constructor | pkg/topom/topom_cache_test.go:129-131 | a new store is empty |
| MemStore.MemClient.constructor | pkg/topom/topom_cache_test.go:137-142 | a client uses the store it is given, or a fresh empty one when given none |
| MemStore.MemClient.Create | pkg/topom/topom_cache_test.go:144-150 | an existing path fails with "node already exists" and leaves the store unchanged; a fresh path succeeds and maps to exactly the data given, all else unchanged |
| MemStore.MemClient.Update | pkg/topom/topom_cache_test.go:152-155 | always succeeds; the path maps to the new data, every other path is unchanged |
| MemStore.MemClient.Delete | pkg/topom/topom_cache_test.go:157-160 | always succeeds, also for an absent path; the path is gone, every other path is unchanged |
| MemStore.MemClient.Read | pkg/topom/topom_cache_test.go:162-164 | never fails; returns the stored data, or empty data for an absent path |
| MemStore.MemClient.List | pkg/topom/topom_cache_test.go:166-175 | never fails; returns exactly the stored paths whose directory is the cleaned argument, each once |
| MemStore.MemClient.Close | pkg/topom/topom_cache_test.go:177-179 | always succeeds |
| MemStore.SharedStoreClients | pkg/topom/topom_cache_test.go:133-142 | two clients opened on one store see each other's writes: what one creates the other reads back |
| MemStore.CreateThenList | pkg/topom/topom_cache_test.go:166-175 | after creating "d/name" (or finding it already there), listing d includes it |
| MemStore.DeleteThenRead | pkg/topom/topom_cache_test.go:157-164 | a deleted path reads back as empty data, not as an error |
| EntityCache.Dirty | pkg/topom/topom_cache_test.go:29 | invalidating a key makes the cache unable to answer for it and leaves every other key's answer as it was |
| EntityCache.Fill | pkg/topom/topom_cache_test.go:19-23 | a build sees a key exactly when the cache knows it, or cannot answer for it and the store has it; a known key is seen with its cached value, an unknown one with the stored value |
| EntityCache.Refilled | pkg/topom/topom_cache_test.go:19-23 | after a build the cache answers every key: known with what the build saw, absent otherwise |
| EntityCache.Refill | pkg/topom/topom_cache_test.go:19-23 | the loop that reads the invalidated keys from the store returns exactly the filled snapshot |
| EntityCache.RefilledIsFrozen | pkg/topom/topom_cache_test.go:19-23 | once built, a cache keeps showing what it saw whatever the store holds later, until invalidated (inferred cache behaviour, see "## Left out") |
| EntityCache.DirtyWithoutWriteInvisible | pkg/topom/topom_cache_test.go:34-36 | invalidating a key the build saw as stored, without writing, changes nothing the next build sees |
| EntityCache.WriteAndDirtyKeepCoherent | pkg/topom/topom_cache_test.go:29-32 | a cache that agrees with its store still agrees after a write plus an invalidation of the written key |
| EntityCache.RemoveAndDirtyKeepCoherent | pkg/topom/topom_cache_test.go:90-92 | a cache that agrees with its store still agrees after a removal plus an invalidation of the removed key |
| EntityCache.WriteWithoutDirtyInvisible | pkg/topom/topom_cache_test.go:19-23 | a write that is not followed by an invalidation is not seen by the next build (inferred cache behaviour, see "## Left out") |
| TopomContext.GetSlotMapping | pkg/topom/topom_cache_test.go:21-23 | succeeds exactly when the context holds the slot, with its mapping; otherwise a slot-not-found error |
| TopomContext.GetGroup | pkg/topom/context_test.go:28-33 | succeeds exactly when the context holds the group, with the group; otherwise a group-not-found error |
| TopomContext.GetProxy | pkg/topom/topom_cache_test.go:104-109 | succeeds exactly when the context holds the proxy, with the proxy; otherwise a proxy-not-found error |
| TopomContext.GetGroupMaster | pkg/topom/context_test.go:30-34 | the master of a held group with servers is the address of its first server; a missing or serverless group has master "" (partner: GroupMasterAfterAppend) |
| TopomContext.IsGroupLocked | pkg/topom/context_test.go:43-46 | a group locks its slots exactly when the lookup finds it and its promotion state is Prepared; a missing group locks nothing |
| TopomContext.ToSlot | pkg/topom/context_test.go:38-70 | locked exactly at Prepared or when a routed group is Prepared; unlocked, it is served by the master of its backend group, a routed group, and names the source master as MigrateFrom only while Migrating |
| TopomContext.ToSlotDependsOnRoutedGroups | pkg/topom/context_test.go:52-55 | changing a group the slot is not routed to (the source once Finished) leaves the resolved slot unchanged |
| TopomContext.GroupMasterAfterAppend | pkg/topom/context_test.go:73-76 | a group's master is its first server: the first appended server becomes it and later ones do not change it |
| Topom.SlotView | pkg/topom/topom_cache_test.go:26-27 | a context holds exactly the slots [0, 1024): the persisted mapping, or for a slot never written one with its own id and group 0 |
| Topom.SlotViewUpdate | pkg/topom/topom_cache_test.go:30-32 | persisting a mapping changes that slot, and only that slot, of what a context can see |
| Topom.SlotFillComplete | pkg/topom/topom_cache_test.go:19-23 | a build holds every slot under its own id, and the refilled slot cache stays valid |
| Topom.GroupFillKeyed | pkg/topom/context_test.go:28-33 | a build holds every group under its own id, and so does the refilled cache |
| Topom.ProxyFillKeyed | pkg/topom/topom_cache_test.go:107-109 | a build holds every proxy under its own token, and so does the refilled cache |
| Topom.Topom.constructor | pkg/topom/topom_cache_test.go:13 | a new engine has empty stores and cold caches, and agrees with its store |
| Topom.Topom.DirtySlotsCache | pkg/topom/topom_cache_test.go:29 | invalidates one slot in the slot cache; stores and other caches unchanged |
| Topom.Topom.DirtyGroupCache | pkg/topom/topom_cache_test.go:69 | invalidates one group in the group cache; stores and other caches unchanged |
| Topom.Topom.DirtyProxyCache | pkg/topom/topom_cache_test.go:116 | invalidates one proxy in the proxy cache; stores and other caches unchanged |
| Topom.Topom.DirtyCacheAll | pkg/topom/topom_cache_test.go:38 | flushes all three caches, after which the engine agrees with its store; stores unchanged |
| Topom.Topom.StoreUpdateSlotMapping | pkg/topom/topom_cache_test.go:31 | persists the mapping under its id; caches untouched |
| Topom.Topom.StoreCreateGroup | pkg/topom/topom_cache_test.go:73 | persists a new group; an existing id fails with "node already exists" and changes nothing; caches untouched |
| Topom.Topom.StoreUpdateGroup | pkg/topom/topom_cache_test.go:82 | persists the group under its id; caches untouched |
| Topom.Topom.StoreRemoveGroup | pkg/topom/topom_cache_test.go:91 | removes the group; caches untouched |
| Topom.Topom.StoreCreateProxy | pkg/topom/topom_cache_test.go:117 | persists a new proxy; an existing token fails and changes nothing; caches untouched |
| Topom.Topom.StoreRemoveProxy | pkg/topom/topom_cache_test.go:121 | removes the proxy; caches untouched |
| Topom.Topom.NewContext | pkg/topom/topom_cache_test.go:19-23 | returns the fill of each cache over its store and keeps it cached; every slot is present under its own id; an engine that agreed with its store returns exactly what is persisted and still agrees |
| CacheScenarios.SlotsCacheScenario | pkg/topom/topom_cache_test.go:26-45 | the slot trace reads group 0, then 100 three times (invalidations without a write change nothing), then 300 |
| CacheScenarios.GroupCacheScenario | pkg/topom/topom_cache_test.go:66-92 | the group trace: missing twice (also after invalidating the absent key), then found with each persisted promotion state, then missing after removal |
| CacheScenarios.GroupCacheAfterCreate | pkg/topom/topom_cache_test.go:76-92 | from a store holding the created group: an unpersisted change is not seen, persisted ones are, and a removed group is missing |
| CacheScenarios.ProxyCacheScenario | pkg/topom/topom_cache_test.go:113-122 | the proxy trace: missing, found after create and invalidation, missing after remove and invalidation |
| SlotStateTable.TableHolds | pkg/topom/context_test.go:20-70 | the check run on every built context: slot 1 is present with id 1, group 1 and target 2, both groups are present with masters "server1" and "server2", and the resolved slot is locked or routed as each branch of the state switch demands; under it an unlocked slot is served by one of the two masters and names only "" or the source master as MigrateFrom |
| SlotStateTable.TableHoldsOverStores | pkg/topom/context_test.go:20-70 | for every slot state and every pair of group states, a context over a store holding the mapping and both groups keeps the ids written, shows both masters, and resolves the slot as the table says |
| SlotStateTable.TableHoldsForListedStates | pkg/topom/context_test.go:82-110 | the table holds on all 6 × 4 × 4 combinations the engine is driven through |
| SlotStateTable.DriveTable | pkg/topom/context_test.go:98-110 | the driving loop builds 96 contexts, and every one satisfies the table |
| SlotStateTable.DriveSourceStates | pkg/topom/context_test.go:101-109 | for each source promotion state, 16 contexts, each satisfying the table; the engine still agrees with its store |
| SlotStateTable.DriveTargetStates | pkg/topom/context_test.go:104-108 | for each target promotion state, one context built after persisting and invalidating the target group, satisfying the table |

## Left out

- The production sources of the engine (`context.go`, `topom_cache.go`, the `models` package, the store transport) are not part of this model. Their behaviour is inferred from the tests' assertions. A warm cache answers "absent" for a key it does not hold. Store mutators never invalidate, because the tests always invalidate explicitly around every write. A built cache keeps serving what it saw until invalidated (EntityCache.RefilledIsFrozen, EntityCache.WriteWithoutDirtyInvisible): every build in the tests follows an invalidation, so no test line shows this directly.
- Entities are stored decoded, in three maps keyed by id or token. Their JSON encoding into bytes and their store path layout are not modelled, and neither is the engine's use of the store client.
- Only the entity fields the tests read are modelled. Left out: slot and promotion indexes, server fields other than the address, and proxy fields other than the token.
- Store errors on read and list: the in-memory client never fails, and the transports that can are external I/O.
- The lock that guards the shared cache, and concurrent builds or fills: the model is sequential.
- `openTopom` and `Close` of the engine: process bootstrap and teardown.
- MemStore.MemClient.Create, MemStore.MemClient.Update, MemStore.MemClient.Read: Go stores the caller's byte slice itself on Create and Update, and Read returns the stored slice itself. Later changes to either slice would show in the store. The model stores and returns values and does not capture this aliasing.
- MemStore.MemClient.List: the listing order follows Go's map iteration order. The model fixes membership and uniqueness only.
- Paths.Clean: handles "" → ".", runs of separators and a trailing separator. It does not resolve "." and ".." elements, which the store's paths never contain.
- TopomContext.ToSlot: for a locked slot the model returns empty addresses, because nothing pins down what a locked slot names.
- TopomContext.IsGroupLocked: a group that is missing, or whose promotion state is outside Nothing, Preparing, Prepared and Finished, is treated as unlocked rather than rejected.
- Topom.Topom.StoreUpdateSlotMapping: a mapping with an id outside [0, 1024) is persisted but never shown by a context.
