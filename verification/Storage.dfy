/** The reference object store (internal/storage/memory.go): a map changed in place. */
module Storage {
  import opened Base
  import opened Manifests
  import opened Streams

  datatype ObjectInfo = ObjectInfo(size: nat, sha: string)

  /** What becomes of one call: done; lost before it had any effect; or done although the caller sees an error. */
  datatype Fate = Done | Lost | Unheard

  /** A store whose n-th put or delete meets the fate the plan has for it. The in-memory store is the plan that
      is always Done; a remote store is any plan. */
  class MemoryStore {
    var objects: Objects
    var calls: nat
    const plan: nat -> Fate

    constructor (plan: nat -> Fate)
      ensures objects == map[] && calls == 0 && this.plan == plan
    {
      objects, calls := map[], 0;
      this.plan := plan;
    }

    /** A failed put leaves the store as it was or with the object in place, and the caller cannot tell which. */
    method PutBytes(l: Lib, key: Key, data: Bytes) returns (info: Option<ObjectInfo>)
      modifies this
      ensures calls == old(calls) + 1
      ensures info.Some? <==> plan(old(calls)) == Done
      ensures info.Some? ==> info.value == ObjectInfo(|data|, l.sha(data))
      ensures objects == if plan(old(calls)) == Lost then old(objects) else old(objects)[key := data]
    {
      var fate := plan(calls);
      calls := calls + 1;
      if fate != Lost {
        objects := objects[key := data];
      }
      return if fate == Done then Some(ObjectInfo(|data|, l.sha(data))) else None;
    }

    method GetBytes(key: Key) returns (data: Option<Bytes>)
      ensures data == if key in objects then Some(objects[key]) else None
    {
      if key in objects {
        return Some(objects[key]);
      }
      return None;
    }

    /** Deleting a key that is not there succeeds. */
    method Delete(key: Key) returns (ok: bool)
      modifies this
      ensures calls == old(calls) + 1
      ensures ok <==> plan(old(calls)) == Done
      ensures objects == if plan(old(calls)) == Lost then old(objects) else old(objects) - {key}
    {
      var fate := plan(calls);
      calls := calls + 1;
      if fate != Lost {
        objects := objects - {key};
      }
      return fate == Done;
    }
  }
}
