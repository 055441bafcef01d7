/** The cluster metadata entities: slot mappings, groups and proxies, with
    their decoded fields, and the derived routable slot. */
module Models {

  /** Number of hash slots; every slot id in [0, MaxSlotNum) always exists. */
  const MaxSlotNum: int := 1024

  /** The action states shared by slot migration and group promotion.
      A slot moves Nothing -> Pending -> Preparing -> Prepared -> Migrating -> Finished;
      a group's promotion moves Nothing -> Preparing -> Prepared -> Finished.
      The zero value of both is Nothing. */
  datatype ActionState = Nothing | Pending | Preparing | Prepared | Migrating | Finished

  /** A slot's migration action: the destination group and the migration state. */
  datatype SlotAction = SlotAction(targetId: int, state: ActionState)

  /** Which group owns a slot, and the migration it is going through. */
  datatype SlotMapping = SlotMapping(id: int, groupId: int, action: SlotAction)

  /** One backend server of a group. */
  datatype GroupServer = GroupServer(addr: string)

  /** A group's master-promotion progress. */
  datatype Promoting = Promoting(state: ActionState)

  /** A replica set; by convention its first server is the master. */
  datatype Group = Group(id: int, servers: seq<GroupServer>, promoting: Promoting)

  /** A running proxy instance, identified by its token. */
  datatype Proxy = Proxy(token: string)

  /** The routable state of one slot, derived from a context. */
  datatype Slot = Slot(locked: bool, backendAddr: string, migrateFrom: string)

  /** The mapping a slot has before anything was ever written for it:
      owned by group 0, no migration. */
  function DefaultSlotMapping(sid: int): SlotMapping
  {
    SlotMapping(sid, 0, SlotAction(0, Nothing))
  }
}
