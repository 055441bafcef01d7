/** The in-memory coordination-store client: a path-keyed map of byte
    strings, shared by every client opened on the same store. */
module MemStore {
  import opened Results
  import opened Paths

  newtype byte = b: int | 0 <= b < 256

  /** The store client's only error: creating a path that is already there. */
  datatype StoreError = NodeExists

  /** No path occurs twice in a listing. */
  predicate NoDuplicates(list: seq<string>)
  {
    forall i, j :: 0 <= i < j < |list| ==> list[i] != list[j]
  }

  /** The backing map, which several clients may share. */
  class Store {
    var data: map<string, seq<byte>>

    constructor ()
      ensures data == map[]
    {
      data := map[];
    }
  }

  class MemClient {
    const store: Store

    /** A client over the given store, or over a fresh empty one. */
    constructor (shared: Store?)
      ensures shared != null ==> store == shared
      ensures shared == null ==> fresh(store) && store.data == map[]
    {
      if shared == null {
        store := new Store();
      } else {
        store := shared;
      }
    }

    /** Adds path with the given data; refuses, changing nothing, when the
        path already exists. */
    method Create(path: string, value: seq<byte>) returns (r: Outcome<StoreError>)
      modifies store
      ensures path in old(store.data) ==> r == Fail(NodeExists) && store.data == old(store.data)
      ensures path !in old(store.data) ==> r == Pass && store.data == old(store.data)[path := value]
    {
      if path in store.data {
        return Fail(NodeExists);
      }
      store.data := store.data[path := value];
      r := Pass;
    }

    /** Sets path to the given data whether or not it existed. */
    method Update(path: string, value: seq<byte>) returns (r: Outcome<StoreError>)
      modifies store
      ensures r == Pass && store.data == old(store.data)[path := value]
    {
      store.data := store.data[path := value];
      r := Pass;
    }

    /** Removes path; removing an absent path succeeds too. */
    method Delete(path: string) returns (r: Outcome<StoreError>)
      modifies store
      ensures r == Pass && store.data == old(store.data) - {path}
    {
      store.data := store.data - {path};
      r := Pass;
    }

    /** The data stored at path; an absent path reads as empty data, not as
        an error. */
    method Read(path: string) returns (r: Result<seq<byte>, StoreError>)
      ensures r.Ok?
      ensures path in store.data ==> r.value == store.data[path]
      ensures path !in store.data ==> r.value == []
    {
      if path in store.data {
        r := Ok(store.data[path]);
      } else {
        r := Ok([]);
      }
    }

    /** The stored paths whose directory is the cleaned path, each once, in
        no particular order. */
    method List(path: string) returns (r: Result<seq<string>, StoreError>)
      ensures r.Ok?
      ensures forall k :: k in r.value <==> k in store.data && Dir(k) == Clean(path)
      ensures NoDuplicates(r.value)
    {
      var dir := Clean(path);
      var list: seq<string> := [];
      var todo := store.data.Keys;
      while todo != {}
        invariant todo <= store.data.Keys
        invariant forall k :: k in list <==> k in store.data && k !in todo && Dir(k) == dir
        invariant NoDuplicates(list)
        decreases todo
      {
        var k :| k in todo;
        if Dir(k) == dir {
          list := list + [k];
        }
        todo := todo - {k};
      }
      r := Ok(list);
    }

    /** Releases the client; the in-memory store has nothing to release. */
    method Close() returns (r: Outcome<StoreError>)
      ensures r == Pass
    {
      r := Pass;
    }
  }

  /** Two clients opened on one store see each other's writes. */
  method SharedStoreClients(path: string, value: seq<byte>) returns (r: Result<seq<byte>, StoreError>)
    ensures r == Ok(value)
  {
    var store := new Store();
    var writer := new MemClient(store);
    var reader := new MemClient(store);
    var created := writer.Create(path, value);
    r := reader.Read(path);
  }

  /** A path created under a clean directory, or already there, is listed
      under that directory. */
  method CreateThenList(c: MemClient, dir: string, name: string, value: seq<byte>)
      returns (r: Result<seq<string>, StoreError>)
    requires IsClean(dir) && name != "" && '/' !in name
    modifies c.store
    ensures r.Ok? && dir + "/" + name in r.value
  {
    var created := c.Create(dir + "/" + name, value);
    DirOfChild(dir, name);
    CleanKeepsClean(dir);
    r := c.List(dir);
  }

  /** A deleted path reads as empty data. */
  method DeleteThenRead(c: MemClient, path: string) returns (r: Result<seq<byte>, StoreError>)
    modifies c.store
    ensures r == Ok([])
  {
    var deleted := c.Delete(path);
    r := c.Read(path);
  }
}
