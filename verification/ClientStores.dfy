/**
 The client store as the mutable object the hub shares: a wrapping id counter and a capped map of
 connection records. Every method is specified by the functions of `ClientTable`.
 */
module ClientStores {
  import opened Types
  import opened ClientTable

  datatype StoreError = DuplicateClientId(id: Id) | MissingClientId(id: Id) | TooManyClients

  datatype Result<+T, +E> = Ok(value: T) | Err(error: E)

  /** What an operation on an existing client answers. */
  function Found(m: Clients, id: Id): Result<(), StoreError> {
    if id in m then Ok(()) else Err(MissingClientId(id))
  }

  class ClientStore {
    const max: int
    var last: Id
    var connections: Clients

    constructor (max: int)
      ensures this.max == max && last == 0 && connections == map[]
    {
      this.max := max;
      last := 0;
      connections := map[];
    }

    method GetNewClientId() returns (id: Id)
      modifies this`last
      ensures id == last == (old(last) + 1) % ID_SPACE
    {
      last := (last + 1) % ID_SPACE;
      id := last;
    }

    method HasClient(id: Id) returns (has: bool)
      ensures has <==> id in connections
    {
      has := id in connections;
    }

    /** A duplicate is reported before a full table; either leaves the table alone. */
    method CreateClient(id: Id, handler: Name, time: int) returns (r: Result<(), StoreError>)
      modifies this`connections
      ensures r.Ok? <==> CanCreate(old(connections), max, id)
      ensures r == if id in old(connections) then Err(DuplicateClientId(id))
                   else if |old(connections)| >= max then Err(TooManyClients) else Ok(())
      ensures connections == if r.Ok? then Create(old(connections), id, handler, time) else old(connections)
      ensures r.Ok? ==> connections == old(connections)[id := Meta(false, handler, "", time, time, time)]
      ensures |old(connections)| <= max ==> |connections| <= max
    {
      if id in connections {
        return Err(DuplicateClientId(id));
      }
      if |connections| >= max {
        return Err(TooManyClients);
      }
      connections := connections[id := Meta(false, handler, "", time, time, time)];
      return Ok(());
    }

    method RemoveClient(id: Id)
      modifies this`connections
      ensures connections == Remove(old(connections), id) == old(connections) - {id}
    {
      connections := map k | k in connections && k != id :: connections[k];
    }

    method Connect(id: Id) returns (r: Result<(), StoreError>)
      modifies this`connections
      ensures r == Found(old(connections), id) && connections == ClientTable.Connect(old(connections), id)
      ensures r == if id in old(connections) then Ok(()) else Err(MissingClientId(id))
      ensures r.Ok? ==> connections == old(connections)[id := old(connections)[id].(connected := true)]
      ensures r.Err? ==> connections == old(connections)
    {
      if id !in connections {
        return Err(MissingClientId(id));
      }
      connections := connections[id := connections[id].(connected := true)];
      return Ok(());
    }

    /** As written, this asks only whether the client exists: `connected` plays no part. */
    method IsConnected(id: Id) returns (r: bool)
      ensures r <==> id in connections
    {
      r := id in connections;
    }

    method SetDestinationHandlerName(id: Id, dest: Name) returns (r: Result<(), StoreError>)
      modifies this`connections
      ensures r == Found(old(connections), id) && connections == SetDest(old(connections), id, dest)
      ensures r == if id in old(connections) then Ok(()) else Err(MissingClientId(id))
      ensures r.Ok? ==> connections == old(connections)[id := old(connections)[id].(dest := dest)]
      ensures r.Err? ==> connections == old(connections)
    {
      if id !in connections {
        return Err(MissingClientId(id));
      }
      connections := connections[id := connections[id].(dest := dest)];
      return Ok(());
    }

    method GetDestinationHandlerName(id: Id) returns (r: Result<Name, StoreError>)
      ensures r == if id in connections then Ok(DestName(connections, id)) else Err(MissingClientId(id))
      ensures r.Ok? ==> r.value == connections[id].dest
    {
      if id !in connections {
        return Err(MissingClientId(id));
      }
      return Ok(connections[id].dest);
    }

    method GetClientHandlerName(id: Id) returns (r: Result<Name, StoreError>)
      ensures r == if id in connections then Ok(ClientName(connections, id)) else Err(MissingClientId(id))
      ensures r.Ok? ==> r.value == connections[id].client
    {
      if id !in connections {
        return Err(MissingClientId(id));
      }
      return Ok(connections[id].client);
    }

    method SetClientRecvTimestamp(id: Id, time: int) returns (r: Result<(), StoreError>)
      modifies this`connections
      ensures r == Found(old(connections), id) && connections == StampClient(old(connections), id, time)
      ensures r == if id in old(connections) then Ok(()) else Err(MissingClientId(id))
      ensures r.Ok? ==> connections == old(connections)[id := old(connections)[id].(lastClient := time)]
      ensures r.Err? ==> connections == old(connections)
    {
      if id !in connections {
        return Err(MissingClientId(id));
      }
      connections := connections[id := connections[id].(lastClient := time)];
      return Ok(());
    }

    method SetDestinationRecvTimestamp(id: Id, time: int) returns (r: Result<(), StoreError>)
      modifies this`connections
      ensures r == Found(old(connections), id) && connections == StampDest(old(connections), id, time)
      ensures r == if id in old(connections) then Ok(()) else Err(MissingClientId(id))
      ensures r.Ok? ==> connections == old(connections)[id := old(connections)[id].(lastDest := time)]
      ensures r.Err? ==> connections == old(connections)
    {
      if id !in connections {
        return Err(MissingClientId(id));
      }
      connections := connections[id := connections[id].(lastDest := time)];
      return Ok(());
    }

    /** Lists exactly the clients past a deadline, once each, in whatever order the map is visited. */
    method GetTimeoutClientList(client: int, dest: int, connection: int) returns (ids: seq<Id>)
      ensures ListsExpired(ids, connections, Deadlines(client, dest, connection))
      ensures forall id :: id in ids <==>
        && id in connections
        && (|| connections[id].created < connection || connections[id].lastClient < client
            || connections[id].lastDest < dest)
    {
      ids := [];
      var rest := connections.Keys;
      while rest != {}
        invariant rest <= connections.Keys && NoDuplicates(ids)
        invariant forall id :: id in ids <==>
          id in connections && id !in rest && Expired(connections[id], Deadlines(client, dest, connection))
      {
        var id :| id in rest;
        rest := rest - {id};
        var e := connections[id];
        if e.created < connection || e.lastClient < client || e.lastDest < dest {
          ids := ids + [id];
        }
      }
    }

    /** Lists exactly the clients that had no verdict in time. */
    method GetAuthTimeoutClientList(deadline: int) returns (ids: seq<Id>)
      ensures ListsUnanswered(ids, connections, deadline)
      ensures forall id :: id in ids <==>
        id in connections && !connections[id].connected && connections[id].created < deadline
    {
      ids := [];
      var rest := connections.Keys;
      while rest != {}
        invariant rest <= connections.Keys && NoDuplicates(ids)
        invariant forall id :: id in ids <==>
          id in connections && id !in rest && Unanswered(connections[id], deadline)
      {
        var id :| id in rest;
        rest := rest - {id};
        if !connections[id].connected && connections[id].created < deadline {
          ids := ids + [id];
        }
      }
    }

    /**
     Calls back for each client and removes it, until a callback fails. `fails` says for which records
     it does. Without a failure the store ends empty and every client was handled once; with one,
     exactly the clients handled before it are gone.
     */
    method KickAllClients(fails: (Id, Meta) -> bool) returns (handled: seq<Id>, failed: Option<Id>)
      modifies this`connections
      ensures NoDuplicates(handled) && (forall id :: id in handled ==> id in old(connections))
      ensures forall id :: id in handled ==> !fails(id, old(connections)[id])
      ensures connections == old(connections) - Elements(handled)
      ensures failed.None? ==> connections == map[]
      ensures failed.Some? ==> failed.value in connections && fails(failed.value, connections[failed.value])
    {
      handled, failed := [], None;
      while connections != map[]
        invariant NoDuplicates(handled) && (forall id :: id in handled ==> id in old(connections))
        invariant forall id :: id in handled ==> !fails(id, old(connections)[id])
        invariant connections == old(connections) - Elements(handled)
        decreases |connections|
      {
        var id: Id :| id in connections;
        if fails(id, connections[id]) {
          return handled, Some(id);
        }
        OneFewer(old(connections), handled, id);
        connections := connections - {id};
        handled := handled + [id];
      }
    }
  }

  function Elements(ids: seq<Id>): set<Id> {
    set id | id in ids
  }

  /** Removing one more client than those already listed. */
  lemma OneFewer(m: Clients, ids: seq<Id>, id: Id)
    requires NoDuplicates(ids) && id in m - Elements(ids)
    ensures NoDuplicates(ids + [id]) && Remove(m - Elements(ids), id) == m - Elements(ids + [id])
  {
    assert Elements(ids + [id]) == Elements(ids) + {id};
  }

  // ---------------------------------------------------------------- allocation

  /** The part of the store an id request works on. */
  datatype Counter = Counter(last: Id, clients: Clients)

  function Bump(last: Id): Id {
    (last + 1) % ID_SPACE
  }

  predicate Grants(c: Counter, max: int) {
    CanCreate(c.clients, max, Bump(c.last))
  }

  /** A request takes the next id; it changes the table only if that id can be created. */
  function Request(c: Counter, max: int, handler: Name, time: int): (r: Counter)
    ensures forall id :: id in c.clients ==> id in r.clients && r.clients[id] == c.clients[id]
    ensures r.clients.Keys == c.clients.Keys + if Grants(c, max) then {r.last} else {}
  {
    Counter(Bump(c.last), if Grants(c, max) then Create(c.clients, Bump(c.last), handler, time) else c.clients)
  }

  /** The id that the `j`-th of several requests in a row tries. */
  function Try(last: Id, j: nat): Id {
    (last + j) % ID_SPACE
  }

  /** The counter after `n` requests in a row that were all turned down. */
  function Skip(c: Counter, n: nat): Counter {
    Counter(Try(c.last, n), c.clients)
  }

  lemma BumpTry(last: Id, n: nat)
    ensures Bump(Try(last, n)) == Try(last, n + 1)
  {
  }

  lemma TriesApart(last: Id, i: nat, j: nat)
    requires i < j < i + ID_SPACE
    ensures Try(last, i) != Try(last, j)
  {
  }

  /** The ids that `n` requests in a row try. */
  function Window(last: Id, n: nat): set<Id> {
    if n == 0 then {} else Window(last, n - 1) + {Try(last, n)}
  }

  lemma {:induction false} Tried(last: Id, n: nat, id: Id) returns (j: nat)
    requires id in Window(last, n)
    ensures 1 <= j <= n && id == Try(last, j)
  {
    hide Try;
    if id == Try(last, n) {
      j := n;
    } else {
      j := Tried(last, n - 1, id);
    }
  }

  /** Up to 2^32 requests in a row try different ids. */
  lemma {:induction false} WindowSize(last: Id, n: nat)
    requires n <= ID_SPACE
    ensures |Window(last, n)| == n
  {
    hide Try;
    if n > 0 {
      WindowSize(last, n - 1);
      if Try(last, n) in Window(last, n - 1) {
        var j := Tried(last, n - 1, Try(last, n));
        TriesApart(last, j, n);
      }
    }
  }

  /**
   Allocation makes progress despite wrap-around: with `n` live clients, room for another and a free id
   at all, the first request to succeed is among the next `n + 1`. Those before it change only the counter.
   */
  lemma AllocationProgress(c: Counter, max: int) returns (j: nat)
    requires |c.clients| < max && |c.clients| < ID_SPACE
    ensures j <= |c.clients| && Grants(Skip(c, j), max)
    ensures forall i: nat, handler, time :: i < j ==>
      !Grants(Skip(c, i), max) && Request(Skip(c, i), max, handler, time) == Skip(c, i + 1)
  {
    hide Try, Bump, CanCreate;
    j := 0;
    while !Grants(Skip(c, j), max)
      invariant j <= |c.clients|
      invariant forall i: nat :: i < j ==> !Grants(Skip(c, i), max)
      decreases |c.clients| - j
    {
      if j == |c.clients| {
        AllTaken(c, max, j + 1);
        assert false;
      }
      j := j + 1;
    }
    forall i: nat, handler, time | i < j ensures Request(Skip(c, i), max, handler, time) == Skip(c, i + 1) {
      BumpTry(c.last, i);
    }
  }

  /** Requests that are all turned down although there is room try ids that are all live. */
  lemma AllTaken(c: Counter, max: int, n: nat)
    requires |c.clients| < max && n <= ID_SPACE
    requires forall i: nat :: i < n ==> !Grants(Skip(c, i), max)
    ensures n <= |c.clients|
  {
    hide Try, Bump;
    forall id | id in Window(c.last, n) ensures id in c.clients {
      var j := Tried(c.last, n, id);
      BumpTry(c.last, j - 1);
      assert !Grants(Skip(c, j - 1), max);
    }
    WindowSize(c.last, n);
    Within(Window(c.last, n), c.clients.Keys);
  }

  lemma Within(a: set<Id>, b: set<Id>)
    requires a <= b
    ensures |a| <= |b|
  {
    assert b == a + (b - a);
  }
}
