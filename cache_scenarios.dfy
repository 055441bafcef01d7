/** The cache traces of the engine: invalidations and writes applied step by
    step to one engine, with what each freshly built context then shows. */
module CacheScenarios {
  import opened Results
  import opened Models
  import opened TopomContext
  import opened Topom

  /** A slot never written reads as owned by group 0; a persisted and
      invalidated update is seen; an invalidation, even of every cache,
      without a write changes nothing. */
  method SlotsCacheScenario() returns (seen: seq<Result<SlotMapping, LookupError>>)
    ensures seen == [
      Ok(SlotMapping(100, 0, SlotAction(0, Nothing))),
      Ok(SlotMapping(100, 100, SlotAction(0, Nothing))),
      Ok(SlotMapping(100, 100, SlotAction(0, Nothing))),
      Ok(SlotMapping(100, 100, SlotAction(0, Nothing))),
      Ok(SlotMapping(100, 300, SlotAction(0, Nothing)))]
  {
    var t := new Topom();
    var sid := 100;
    var m := SlotMapping(sid, 0, SlotAction(0, Nothing));
    var ctx := t.NewContext();
    var first := GetSlotMapping(ctx, sid);
    assert first == Ok(SlotMapping(100, 0, SlotAction(0, Nothing)));

    t.DirtySlotsCache(sid);
    m := m.(groupId := 100);
    var r := t.StoreUpdateSlotMapping(m);
    ctx := t.NewContext();
    var second := GetSlotMapping(ctx, sid);
    assert second == Ok(SlotMapping(100, 100, SlotAction(0, Nothing)));

    t.DirtySlotsCache(sid);
    m := m.(groupId := 200);
    ctx := t.NewContext();
    var third := GetSlotMapping(ctx, sid);
    assert third == Ok(SlotMapping(100, 100, SlotAction(0, Nothing)));

    t.DirtyCacheAll();
    m := m.(groupId := 200);
    ctx := t.NewContext();
    var fourth := GetSlotMapping(ctx, sid);
    assert fourth == Ok(SlotMapping(100, 100, SlotAction(0, Nothing)));

    t.DirtyCacheAll();
    m := m.(groupId := 300);
    r := t.StoreUpdateSlotMapping(m);
    ctx := t.NewContext();
    var fifth := GetSlotMapping(ctx, sid);
    assert fifth == Ok(SlotMapping(100, 300, SlotAction(0, Nothing)));

    seen := [first, second, third, fourth, fifth];
  }

  /** A group is missing before it is created, even after its key was
      invalidated; once created and invalidated it is seen with the fields
      written; the rest of the trace is GroupCacheAfterCreate. */
  method GroupCacheScenario() returns (seen: seq<Result<Group, LookupError>>)
    ensures seen == [
      Err(GroupNotFound(100)),
      Err(GroupNotFound(100)),
      Ok(Group(100, [], Promoting(Nothing))),
      Ok(Group(100, [], Promoting(Nothing))),
      Ok(Group(100, [], Promoting(Preparing))),
      Ok(Group(100, [], Promoting(Prepared))),
      Err(GroupNotFound(100))]
  {
    var t := new Topom();
    var gid := 100;
    var g := Group(gid, [], Promoting(Nothing));
    var ctx := t.NewContext();
    var first := GetGroup(ctx, gid);
    assert first == Err(GroupNotFound(100));

    t.DirtyGroupCache(gid);
    ctx := t.NewContext();
    var second := GetGroup(ctx, gid);
    assert second == Err(GroupNotFound(100));

    t.DirtyGroupCache(gid);
    var r := t.StoreCreateGroup(g);
    assert r == Pass;
    ctx := t.NewContext();
    var third := GetGroup(ctx, gid);
    assert third == Ok(Group(100, [], Promoting(Nothing)));

    var rest := GroupCacheAfterCreate(t);
    seen := [first, second, third, rest[0], rest[1], rest[2], rest[3]];
  }

  /** Continues the group trace on an engine whose store holds group 100
      with nothing promoting, whatever its cache holds: a change not
      persisted is not seen; a persisted one is, after an invalidation of
      the key or of every cache; once removed and invalidated the group is
      missing. */
  method GroupCacheAfterCreate(t: Topom) returns (seen: seq<Result<Group, LookupError>>)
    requires t.Valid()
    requires t.groupStore == map[100 := Group(100, [], Promoting(Nothing))]
    modifies t
    ensures seen == [
      Ok(Group(100, [], Promoting(Nothing))),
      Ok(Group(100, [], Promoting(Preparing))),
      Ok(Group(100, [], Promoting(Prepared))),
      Err(GroupNotFound(100))]
  {
    var gid := 100;
    var g := Group(gid, [], Promoting(Nothing));
    t.DirtyGroupCache(gid);
    g := g.(promoting := Promoting(Preparing));
    var ctx := t.NewContext();
    var fourth := GetGroup(ctx, gid);
    assert fourth == Ok(Group(100, [], Promoting(Nothing)));

    t.DirtyGroupCache(gid);
    g := g.(promoting := Promoting(Preparing));
    var r := t.StoreUpdateGroup(g);
    ctx := t.NewContext();
    var fifth := GetGroup(ctx, gid);
    assert fifth == Ok(Group(100, [], Promoting(Preparing)));

    t.DirtyCacheAll();
    g := g.(promoting := Promoting(Prepared));
    r := t.StoreUpdateGroup(g);
    ctx := t.NewContext();
    var sixth := GetGroup(ctx, gid);
    assert sixth == Ok(Group(100, [], Promoting(Prepared)));

    t.DirtyGroupCache(gid);
    r := t.StoreRemoveGroup(g);
    ctx := t.NewContext();
    var seventh := GetGroup(ctx, gid);
    assert seventh == Err(GroupNotFound(100));

    seen := [fourth, fifth, sixth, seventh];
  }

  /** A proxy is missing before it is created, seen once created and
      invalidated, and missing again once removed and invalidated. */
  method ProxyCacheScenario() returns (seen: seq<Result<Proxy, LookupError>>)
    ensures seen == [
      Err(ProxyNotFound("fake_proxy_token")),
      Ok(Proxy("fake_proxy_token")),
      Err(ProxyNotFound("fake_proxy_token"))]
  {
    var t := new Topom();
    var p := Proxy("fake_proxy_token");
    var ctx := t.NewContext();
    var first := GetProxy(ctx, p.token);
    assert first == Err(ProxyNotFound("fake_proxy_token"));

    t.DirtyProxyCache(p.token);
    var r := t.StoreCreateProxy(p);
    assert r == Pass;
    ctx := t.NewContext();
    var second := GetProxy(ctx, p.token);
    assert second == Ok(Proxy("fake_proxy_token"));

    t.DirtyProxyCache(p.token);
    r := t.StoreRemoveProxy(p);
    ctx := t.NewContext();
    var third := GetProxy(ctx, p.token);
    assert third == Err(ProxyNotFound("fake_proxy_token"));

    seen := [first, second, third];
  }
}
