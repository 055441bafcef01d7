/** A point-in-time snapshot of the cluster metadata, its typed lookups,
    and the slot resolver that derives a slot's routable state from the
    slot's migration state and the promotion states of its groups. */
module TopomContext {
  import opened Results
  import opened Models

  datatype Context = Context(slots: map<int, SlotMapping>, group: map<int, Group>, proxy: map<string, Proxy>)

  datatype LookupError = SlotNotFound(sid: int) | GroupNotFound(gid: int) | ProxyNotFound(token: string)

  /** The slot's mapping, or a not-found error when the snapshot has none. */
  function GetSlotMapping(ctx: Context, sid: int): (r: Result<SlotMapping, LookupError>)
    ensures r.Ok? <==> sid in ctx.slots
    ensures r.Ok? ==> r.value == ctx.slots[sid]
    ensures r.Err? ==> r.error == SlotNotFound(sid)
  {
    if sid in ctx.slots then Ok(ctx.slots[sid]) else Err(SlotNotFound(sid))
  }

  /** The group, or a not-found error when the snapshot has none. */
  function GetGroup(ctx: Context, gid: int): (r: Result<Group, LookupError>)
    ensures r.Ok? <==> gid in ctx.group
    ensures r.Ok? ==> r.value == ctx.group[gid]
    ensures r.Err? ==> r.error == GroupNotFound(gid)
  {
    if gid in ctx.group then Ok(ctx.group[gid]) else Err(GroupNotFound(gid))
  }

  /** The proxy, or a not-found error when the snapshot has none. */
  function GetProxy(ctx: Context, token: string): (r: Result<Proxy, LookupError>)
    ensures r.Ok? <==> token in ctx.proxy
    ensures r.Ok? ==> r.value == ctx.proxy[token]
    ensures r.Err? ==> r.error == ProxyNotFound(token)
  {
    if token in ctx.proxy then Ok(ctx.proxy[token]) else Err(ProxyNotFound(token))
  }

  /** The address of the group's master: its first server. A group that is
      missing or has no servers has no master, written "". */
  function GetGroupMaster(ctx: Context, gid: int): (addr: string)
    ensures gid in ctx.group && ctx.group[gid].servers != [] ==> addr == ctx.group[gid].servers[0].addr
    ensures gid !in ctx.group || ctx.group[gid].servers == [] ==> addr == ""
  {
    if gid in ctx.group && |ctx.group[gid].servers| != 0 then ctx.group[gid].servers[0].addr else ""
  }

  /** A group locks the slots routed through it while its promotion is in
      the Prepared state, the unsafe window of the master switch. */
  predicate IsGroupLocked(ctx: Context, gid: int)
    ensures IsGroupLocked(ctx, gid) <==> GetGroup(ctx, gid).Ok? && GetGroup(ctx, gid).value.promoting.state == Prepared
  {
    gid in ctx.group && ctx.group[gid].promoting.state == Prepared
  }

  /** The groups whose masters a slot in the given migration state is routed
      to: the owner before migration, both groups while keys move, the
      target once they have moved. At the Prepared handshake none. */
  function RoutedGroups(m: SlotMapping): set<int>
  {
    match m.action.state
    case Nothing => {m.groupId}
    case Pending => {m.groupId}
    case Preparing => {m.groupId}
    case Prepared => {}
    case Migrating => {m.groupId, m.action.targetId}
    case Finished => {m.action.targetId}
  }

  /** The group that serves the slot's requests. */
  function BackendGroup(m: SlotMapping): int
  {
    if m.action.state == Migrating || m.action.state == Finished then m.action.targetId else m.groupId
  }

  const LockedSlot := Slot(true, "", "")

  /** The routable state of a slot. It is locked at the Prepared handshake
      and whenever a group it is routed to is mid-promotion; otherwise it is
      served by the master of its backend group, and while its keys move it
      also names the master it migrates from. A locked slot names no
      address. */
  function ToSlot(ctx: Context, m: SlotMapping): (s: Slot)
    ensures s.locked <==> m.action.state == Prepared || exists gid :: gid in RoutedGroups(m) && IsGroupLocked(ctx, gid)
    ensures !s.locked ==> forall gid :: gid in RoutedGroups(m) ==> !IsGroupLocked(ctx, gid)
    ensures !s.locked ==> s.backendAddr == GetGroupMaster(ctx, BackendGroup(m)) && BackendGroup(m) in RoutedGroups(m)
    ensures !s.locked && m.action.state == Migrating ==> s.migrateFrom == GetGroupMaster(ctx, m.groupId)
    ensures m.action.state != Migrating ==> s.migrateFrom == ""
    ensures s.locked ==> s.backendAddr == "" && s.migrateFrom == ""
  {
    match m.action.state
    case Prepared => LockedSlot
    case Migrating =>
      if IsGroupLocked(ctx, m.groupId) || IsGroupLocked(ctx, m.action.targetId) then LockedSlot
      else Slot(false, GetGroupMaster(ctx, m.action.targetId), GetGroupMaster(ctx, m.groupId))
    case Finished =>
      if IsGroupLocked(ctx, m.action.targetId) then LockedSlot
      else Slot(false, GetGroupMaster(ctx, m.action.targetId), "")
    case _ =>
      if IsGroupLocked(ctx, m.groupId) then LockedSlot
      else Slot(false, GetGroupMaster(ctx, m.groupId), "")
  }

  /** Only the promotion state of the routed groups matters: changing any
      other group's promotion state, or any group's servers other than the
      routed ones, leaves the resolved slot as it was. */
  lemma ToSlotDependsOnRoutedGroups(ctx: Context, m: SlotMapping, gid: int, g: Group)
    requires gid !in RoutedGroups(m)
    ensures ToSlot(ctx.(group := ctx.group[gid := g]), m) == ToSlot(ctx, m)
  {
  }

  /** A group's master is its first server: appending further servers does
      not change it, and the first server appended to an empty group
      becomes it. */
  lemma GroupMasterAfterAppend(ctx: Context, g: Group, server: GroupServer)
    ensures GetGroupMaster(ctx.(group := ctx.group[g.id := g.(servers := g.servers + [server])]), g.id)
         == if g.servers == [] then server.addr else g.servers[0].addr
  {
  }
}
