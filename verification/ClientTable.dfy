/**
 The client table as a value: what each operation of the client store does to the map from id to
 connection metadata. `ClientStores.ClientStore` is the mutable object; the concurrent machine in
 `Machine` applies the same functions, one per critical section.
 */
module ClientTable {
  import opened Types

  datatype Meta = Meta(
    connected: bool,
    client: Name,
    dest: Name,
    created: int,
    lastClient: int,
    lastDest: int)

  type Clients = map<Id, Meta>

  /** A client that has just been allocated: no destination, every clock at its creation time. */
  function Fresh(client: Name, time: int): Meta {
    Meta(false, client, "", time, time, time)
  }

  predicate CanCreate(m: Clients, max: int, id: Id) {
    id !in m && |m| < max
  }

  function Create(m: Clients, id: Id, client: Name, time: int): Clients {
    m[id := Fresh(client, time)]
  }

  function Remove(m: Clients, id: Id): Clients {
    m - {id}
  }

  function Connect(m: Clients, id: Id): Clients {
    if id in m then m[id := m[id].(connected := true)] else m
  }

  function SetDest(m: Clients, id: Id, dest: Name): Clients {
    if id in m then m[id := m[id].(dest := dest)] else m
  }

  function StampClient(m: Clients, id: Id, time: int): Clients {
    if id in m then m[id := m[id].(lastClient := time)] else m
  }

  function StampDest(m: Clients, id: Id, time: int): Clients {
    if id in m then m[id := m[id].(lastDest := time)] else m
  }

  /** The handler names read during routing; a missing client reads as the empty name. */
  function ClientName(m: Clients, id: Id): Name {
    if id in m then m[id].client else ""
  }

  function DestName(m: Clients, id: Id): Name {
    if id in m then m[id].dest else ""
  }

  /** The three deadlines of the silence and age sweep. */
  datatype Deadlines = Deadlines(client: int, dest: int, connection: int)

  predicate Expired(e: Meta, d: Deadlines) {
    e.created < d.connection || e.lastClient < d.client || e.lastDest < d.dest
  }

  predicate Unanswered(e: Meta, deadline: int) {
    !e.connected && e.created < deadline
  }

  predicate NoDuplicates(ids: seq<Id>) {
    forall i, j :: 0 <= i < j < |ids| ==> ids[i] != ids[j]
  }

  /** `ids` is an order in which an iteration can visit the table. */
  predicate ListsAll(ids: seq<Id>, m: Clients) {
    NoDuplicates(ids) && forall id: Id :: id in ids <==> id in m
  }

  /** `ids` lists, once each and in any order, the clients a sweep has to kick. */
  predicate ListsExpired(ids: seq<Id>, m: Clients, d: Deadlines) {
    && NoDuplicates(ids)
    && (forall id: Id :: id in ids <==> id in m && Expired(m[id], d))
  }

  predicate ListsUnanswered(ids: seq<Id>, m: Clients, deadline: int) {
    && NoDuplicates(ids)
    && (forall id: Id :: id in ids <==> id in m && Unanswered(m[id], deadline))
  }
}
