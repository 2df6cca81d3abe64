// The state object all threads share. A method here is one thread using it with nobody in
// between; what interleaving does to `Read` and `Write` is the subject of module TaintState.
module SharedState {
  import opened Storage
  import opened TaintState

  datatype Result<+T> = Ok(value: T) | Err(owner: ThreadId)

  class State {
    var backend: StateMap

    constructor ()
      ensures backend == map[]
    {
      backend := map[];
    }

    /** Reads under a read lock if the key has an owner; otherwise takes the write lock and claims the key. */
    method Read(key: Key, current: ThreadId) returns (r: Result<Value>)
      modifies this
      ensures Claim(old(backend), key, current).Granted? ==>
                r == Ok(Claim(old(backend), key, current).value) && backend == Claim(old(backend), key, current).state
      ensures Claim(old(backend), key, current).Denied? ==>
                r == Err(Claim(old(backend), key, current).owner) && backend == old(backend)
      ensures r.Ok? <==> Owner(old(backend), key) == None || Owner(old(backend), key) == Some(current)
      ensures Owner(backend, key) == Some(if r.Ok? then current else r.owner)
      ensures forall k :: k != key ==> (k in backend <==> k in old(backend)) && (k in backend ==> backend[k] == old(backend)[k])
      ensures r.Err? ==> backend == old(backend)
      ensures r.Ok? ==> r.value == Get(Data(old(backend)), key)
      ensures forall k :: Get(Data(backend), k) == Get(Data(old(backend)), k)
    {
      if key in backend {
        var entry := backend[key];
        if entry.taint.Some? {
          if entry.taint.value == current {
            return Ok(entry.data);
          } else {
            return Err(entry.taint.value);
          }
        } else {
          // The read lock is dropped and the write lock taken.
          var again := backend[key];
          if again.taint.Some? {
            assert false;
          } else {
            backend := backend[key := again.(taint := Some(current))];
            return Ok(again.data);
          }
        }
      } else {
        // The read lock is dropped and the write lock taken.
        if key in backend {
          assert false;
        } else {
          backend := backend[key := Entry(Empty, Some(current))];
          return Ok(Empty);
        }
      }
    }

    method Write(key: Key, value: Value, current: ThreadId) returns (r: Result<()>)
      modifies this
      ensures ClaimWrite(old(backend), key, value, current).Granted? ==>
                r == Ok(()) && backend == ClaimWrite(old(backend), key, value, current).state
      ensures ClaimWrite(old(backend), key, value, current).Denied? ==>
                r == Err(ClaimWrite(old(backend), key, value, current).owner) && backend == old(backend)
      ensures r.Ok? <==> Owner(old(backend), key) == None || Owner(old(backend), key) == Some(current)
      ensures Owner(backend, key) == Some(if r.Ok? then current else r.owner)
      ensures forall k :: k != key ==> (k in backend <==> k in old(backend)) && (k in backend ==> backend[k] == old(backend)[k])
      ensures r.Err? ==> backend == old(backend)
      ensures forall k :: Get(Data(backend), k) == if r.Ok? && k == key then value else Get(Data(old(backend)), k)
    {
      if key in backend {
        var entry := backend[key];
        if entry.taint.Some? {
          if entry.taint.value == current {
            backend := backend[key := entry.(data := value)];
            return Ok(());
          } else {
            return Err(entry.taint.value);
          }
        } else {
          backend := backend[key := Entry(value, Some(current))];
          return Ok(());
        }
      } else {
        backend := backend[key := Entry(value, Some(current))];
        return Ok(());
      }
    }

    /** Does not respect taints. */
    method UnsafeInsert(at: Key, value: Entry)
      modifies this
      ensures backend == old(backend)[at := value]
    {
      backend := backend[at := value];
    }

    /** Wipes the taint away. */
    method UnsafeInsertGenesisValue(at: Key, value: Value)
      modifies this
      ensures backend == old(backend)[at := Entry(value, None)]
      ensures Owner(backend, at) == None && Data(backend) == Data(old(backend))[at := value]
    {
      backend := backend[at := Entry(value, None)];
    }

    method UnsafeClean()
      modifies this
      ensures backend == map[]
    {
      backend := map[];
    }

    method UnsafeReadValue(key: Key) returns (r: Option<Value>)
      ensures r == if key in backend then Some(Data(backend)[key]) else None
    {
      r := if key in backend then Some(backend[key].data) else None;
    }

    method UnsafeReadTaint(key: Key) returns (r: Option<ThreadId>)
      ensures r == Owner(backend, key)
    {
      if key in backend {
        r := backend[key].taint;
      } else {
        r := None;
      }
    }
  }
}
