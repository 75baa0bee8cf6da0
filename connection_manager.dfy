/**
 * ConnectionManager (core/monitor/connection_manager.py): the in-memory
 * registry of live WebSocket connections, a dict from client id to handle.
 */
module Connections {
  import opened Outcomes
  import opened Dicts

  class ConnectionManager<H> {
    /** `_connections`, in insertion order. */
    var connections: Dict<string, H>

    /** No client id is registered twice. */
    ghost predicate Valid()
      reads this
    {
      IsDict(connections)
    }

    constructor ()
      ensures Valid() && connections == []
    {
      connections := [];
    }

    /** `add(client_id, websocket)`: registers or overwrites the handle for the id. */
    method Add(clientId: string, handle: H)
      requires Valid()
      modifies this
      ensures Valid()
      ensures connections == Put(old(connections), clientId, handle)
    {
      PutEntries(connections, clientId, handle);
      connections := Put(connections, clientId, handle);
    }

    /** `remove(client_id)`: forgets the id; an id that is not registered is ignored. */
    method Remove(clientId: string)
      requires Valid()
      modifies this
      ensures Valid()
      ensures connections == Dicts.Remove(old(connections), clientId)
    {
      RemoveGone(connections, clientId);
      connections := Dicts.Remove(connections, clientId);
    }

    /** `get(client_id)`: the handle registered for the id, or None when it is not registered. */
    method Get(clientId: string) returns (handle: Option<H>)
      requires Valid()
      ensures handle.Some? <==> clientId in Keys(connections)
      ensures forall i :: 0 <= i < |connections| && connections[i].0 == clientId ==> handle == Some(connections[i].1)
    {
      handle := Dicts.Get(connections, clientId);
      forall i | 0 <= i < |connections| && connections[i].0 == clientId
        ensures handle == Some(connections[i].1)
      {
        GetAt(connections, i);
      }
    }

    /** `get_all_ids()`: every registered id once, in registration order. */
    method GetAllIds() returns (ids: seq<string>)
      requires Valid()
      ensures |ids| == |connections|
      ensures forall i :: 0 <= i < |ids| ==> ids[i] == connections[i].0
      ensures forall i, j :: 0 <= i < j < |ids| ==> ids[i] != ids[j]
    {
      ids := Keys(connections);
      KeysDistinct(connections);
      forall i | 0 <= i < |ids|
        ensures ids[i] == connections[i].0
      {
        KeyAt(connections, i);
      }
    }

    /** `count()`: the number of registered ids. */
    method Count() returns (n: nat)
      ensures n == |Keys(connections)|
    {
      n := |connections|;
    }
  }

  /** Adding an id that is already registered overwrites its handle and keeps the count. */
  lemma AddCount<H>(d: Dict<string, H>, clientId: string, handle: H)
    ensures |Put(d, clientId, handle)| == if clientId in Keys(d) then |d| else |d| + 1
    ensures Keys(Put(d, clientId, handle)) == if clientId in Keys(d) then Keys(d) else Keys(d) + [clientId]
  {
    PutKeys(d, clientId, handle);
  }

  /** After removing an id it is no longer found, and the count drops by one exactly when it was registered. */
  lemma RemoveCount<H>(d: Dict<string, H>, clientId: string)
    requires IsDict(d)
    ensures Dicts.Get(Dicts.Remove(d, clientId), clientId) == None
    ensures |Dicts.Remove(d, clientId)| == if clientId in Keys(d) then |d| - 1 else |d|
  {
    RemoveGone(d, clientId);
    RemoveSize(d, clientId);
  }
}
