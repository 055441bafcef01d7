/** The slot-state table: one slot moving from group 1 (master "server1")
    to group 2 (master "server2"), resolved under every slot migration state
    and every pair of group promotion states the engine is driven through. */
module SlotStateTable {
  import opened Results
  import opened Models
  import opened EntityCache
  import opened TopomContext
  import opened Topom

  /** Every slot migration state, in the order the table visits them. */
  const SlotStates: seq<ActionState> := [Nothing, Pending, Preparing, Prepared, Migrating, Finished]

  /** The group promotion states the table visits for each group. */
  const GroupStates: seq<ActionState> := [Nothing, Preparing, Prepared, Finished]

  /** Slot 1, owned by group 1, with group 2 as migration target. */
  function Mapping(s: ActionState): SlotMapping
  {
    SlotMapping(1, 1, SlotAction(2, s))
  }

  /** Group 1 with the single server "server1". */
  function Source(a: ActionState): Group
  {
    Group(1, [GroupServer("server1")], Promoting(a))
  }

  /** Group 2 with the single server "server2". */
  function Target(b: ActionState): Group
  {
    Group(2, [GroupServer("server2")], Promoting(b))
  }

  /** What a context built over those entities must show: the mapping with
      the ids written, both groups with their masters, and a resolved slot
      that is locked exactly in the rows below, and otherwise routed as
      they say. Under the table an unlocked slot is served by one of the
      two masters, and names the source master only while migrating. */
  predicate TableHolds(ctx: Context)
    ensures TableHolds(ctx) ==> 1 in ctx.slots
    ensures TableHolds(ctx) && !ToSlot(ctx, ctx.slots[1]).locked ==>
      ToSlot(ctx, ctx.slots[1]).backendAddr in {"server1", "server2"} &&
      ToSlot(ctx, ctx.slots[1]).migrateFrom in {"", "server1"}
  {
    && GetSlotMapping(ctx, 1).Ok?
    && var m := GetSlotMapping(ctx, 1).value;
    && m.id == 1 && m.groupId == 1 && m.action.targetId == 2
    && GetGroup(ctx, 1).Ok? && GetGroupMaster(ctx, 1) == "server1"
    && GetGroup(ctx, 2).Ok? && GetGroupMaster(ctx, 2) == "server2"
    && var sourcePrepared := GetGroup(ctx, 1).value.promoting.state == Prepared;
    && var targetPrepared := GetGroup(ctx, 2).value.promoting.state == Prepared;
    && var slot := ToSlot(ctx, m);
    match m.action.state
    case Prepared => slot.locked
    case Migrating =>
      if sourcePrepared || targetPrepared then slot.locked
      else !slot.locked && slot.backendAddr == "server2" && slot.migrateFrom == "server1"
    case Finished =>
      if targetPrepared then slot.locked
      else !slot.locked && slot.backendAddr == "server2" && slot.migrateFrom == ""
    case _ =>
      if sourcePrepared then slot.locked
      else !slot.locked && slot.backendAddr == "server1" && slot.migrateFrom == ""
  }

  /** Whatever else is persisted, a context built from a store holding
      that mapping and those two groups satisfies the table, in every
      migration state and every pair of promotion states. */
  lemma TableHoldsOverStores(slotStore: map<int, SlotMapping>, groupStore: map<int, Group>,
                             proxyStore: map<string, Proxy>, s: ActionState, a: ActionState, b: ActionState)
    requires 1 in slotStore && slotStore[1] == Mapping(s)
    requires 1 in groupStore && groupStore[1] == Source(a)
    requires 2 in groupStore && groupStore[2] == Target(b)
    ensures TableHolds(StoreContext(slotStore, groupStore, proxyStore))
  {
    var ctx := StoreContext(slotStore, groupStore, proxyStore);
    assert ctx.slots[1] == Mapping(s);
  }

  /** The table over the states the engine is driven through. */
  lemma TableHoldsForListedStates()
    ensures forall s, a, b | s in SlotStates && a in GroupStates && b in GroupStates ::
      TableHolds(StoreContext(map[1 := Mapping(s)], map[1 := Source(a), 2 := Target(b)], map[]))
  {
    forall s, a, b | s in SlotStates && a in GroupStates && b in GroupStates
      ensures TableHolds(StoreContext(map[1 := Mapping(s)], map[1 := Source(a), 2 := Target(b)], map[]))
    {
      TableHoldsOverStores(map[1 := Mapping(s)], map[1 := Source(a), 2 := Target(b)], map[], s, a, b);
    }
  }

  /** Drives an engine through the table: for every migration state it
      invalidates and persists the mapping, then runs DriveSourceStates.
      Every context built satisfies the table. */
  method DriveTable() returns (seen: seq<Context>)
    ensures |seen| == |SlotStates| * |GroupStates| * |GroupStates|
    ensures forall ctx :: ctx in seen ==> TableHolds(ctx)
  {
    var t := new Topom();
    seen := [];
    var i := 0;
    while i < |SlotStates|
      invariant 0 <= i <= |SlotStates|
      invariant t.Valid() && t.Coherent()
      invariant |seen| == i * |GroupStates| * |GroupStates|
      invariant forall ctx :: ctx in seen ==> TableHolds(ctx)
    {
      var s := SlotStates[i];
      ghost var slotCache, slotStore := t.slotCache, t.slotStore;
      t.DirtySlotsCache(1);
      var r := t.StoreUpdateSlotMapping(Mapping(s));
      SlotViewUpdate(slotStore, Mapping(s));
      WriteAndDirtyKeepCoherent(slotCache, SlotView(slotStore), 1, Mapping(s));
      var more := DriveSourceStates(t, s);
      seen := seen + more;
      i := i + 1;
    }
  }

  /** For every source promotion state: invalidates and persists group 1,
      then runs DriveTargetStates. */
  method DriveSourceStates(t: Topom, s: ActionState) returns (seen: seq<Context>)
    requires t.Valid() && t.Coherent()
    requires 1 in t.slotStore && t.slotStore[1] == Mapping(s)
    modifies t
    ensures t.Valid() && t.Coherent()
    ensures |seen| == |GroupStates| * |GroupStates|
    ensures forall ctx :: ctx in seen ==> TableHolds(ctx)
  {
    seen := [];
    var j := 0;
    while j < |GroupStates|
      invariant 0 <= j <= |GroupStates|
      invariant t.Valid() && t.Coherent()
      invariant 1 in t.slotStore && t.slotStore[1] == Mapping(s)
      invariant |seen| == j * |GroupStates|
      invariant forall ctx :: ctx in seen ==> TableHolds(ctx)
    {
      var a := GroupStates[j];
      ghost var groupCache, groupStore := t.groupCache, t.groupStore;
      t.DirtyGroupCache(1);
      var r := t.StoreUpdateGroup(Source(a));
      WriteAndDirtyKeepCoherent(groupCache, groupStore, 1, Source(a));
      var more := DriveTargetStates(t, s, a);
      seen := seen + more;
      j := j + 1;
    }
  }

  /** For every target promotion state: invalidates and persists group 2,
      then builds a context, which satisfies the table. */
  method DriveTargetStates(t: Topom, s: ActionState, a: ActionState) returns (seen: seq<Context>)
    requires t.Valid() && t.Coherent()
    requires 1 in t.slotStore && t.slotStore[1] == Mapping(s)
    requires 1 in t.groupStore && t.groupStore[1] == Source(a)
    modifies t
    ensures t.Valid() && t.Coherent()
    ensures 1 in t.slotStore && t.slotStore[1] == Mapping(s)
    ensures |seen| == |GroupStates|
    ensures forall ctx :: ctx in seen ==> TableHolds(ctx)
  {
    seen := [];
    var k := 0;
    while k < |GroupStates|
      invariant 0 <= k <= |GroupStates|
      invariant t.Valid() && t.Coherent()
      invariant 1 in t.slotStore && t.slotStore[1] == Mapping(s)
      invariant 1 in t.groupStore && t.groupStore[1] == Source(a)
      invariant |seen| == k
      invariant forall ctx :: ctx in seen ==> TableHolds(ctx)
    {
      var b := GroupStates[k];
      ghost var groupCache, groupStore := t.groupCache, t.groupStore;
      t.DirtyGroupCache(2);
      var r := t.StoreUpdateGroup(Target(b));
      WriteAndDirtyKeepCoherent(groupCache, groupStore, 2, Target(b));
      var ctx := t.NewContext();
      TableHoldsOverStores(t.slotStore, t.groupStore, t.proxyStore, s, a, b);
      seen := seen + [ctx];
      k := k + 1;
    }
  }
}
