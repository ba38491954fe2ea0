/**
 The hub object: the registered handlers with their channels, and the operations its goroutines perform.
 A method is one call from start to end, with room on every channel it sends on and nothing interleaved;
 `Agreement` shows that it does what the goroutine steps of `Machine` do when nothing interferes.
 */
module Proxies {
  import opened Types
  import opened ClientTable
  import opened ClientStores
  import opened Machine

  datatype HubError =
    | StoreFailed(store: StoreError)
    | NameCollision(name: Name)
    | MissingDestinationHandler(name: Name)
    | MissingClientHandler(name: Name)
    | NoMatchingHandler(conn: string)

  /** The hub's queues to one client handler and to one destination handler. */
  datatype ClientChannels = ClientChannels(verdicts: seq<Env<Verdict>>, messages: seq<Env<Bytes>>, closes: seq<Id>)

  datatype DestChannels = DestChannels(opens: seq<Env<Auth>>, messages: seq<Env<Bytes>>, closes: seq<Id>)

  datatype DestinationHandler = DestinationHandler(name: Name, matches: string -> bool)

  /** What the operations work on. */
  datatype Hub = Hub(clients: Clients, toClients: map<Name, ClientChannels>, toDests: map<Name, DestChannels>)

  // ---------------------------------------------------------------- what the operations mean

  /** The hub after sending `o`, if its handler is registered. */
  function Deliver(h: Hub, o: Out): Hub {
    if o.Nothing? then h
    else if o.DataUp? || o.OpenUp? || o.CloseUp? then
      if o.dest in h.toDests then h.(toDests := h.toDests[o.dest := OnDest(h.toDests[o.dest], o)]) else h
    else
      if o.router in h.toClients
      then h.(toClients := h.toClients[o.router := OnClient(h.toClients[o.router], o)])
      else h
  }

  function OnDest(ch: DestChannels, o: Out): DestChannels {
    match o
    case DataUp(_, m) => ch.(messages := ch.messages + [m])
    case OpenUp(_, x) => ch.(opens := ch.opens + [x])
    case CloseUp(_, id) => ch.(closes := ch.closes + [id])
    case _ => ch
  }

  function OnClient(ch: ClientChannels, o: Out): ClientChannels {
    match o
    case DataDown(_, m) => ch.(messages := ch.messages + [m])
    case VerdictDown(_, v) => ch.(verdicts := ch.verdicts + [v])
    case CloseDown(_, id) => ch.(closes := ch.closes + [id])
    case _ => ch
  }

  function CloseAtClient(h: Hub, cn: Name, id: Id): Hub {
    if cn == "" then h else Deliver(h, CloseDown(cn, id))
  }

  function CloseAtDest(h: Hub, dn: Name, id: Id): Hub {
    if dn == "" then h else Deliver(h, CloseUp(dn, id))
  }

  /** One close to each side that has a name, and the client is gone. */
  function AfterKick(h: Hub, id: Id): Hub {
    var told := CloseAtDest(CloseAtClient(h, ClientName(h.clients, id), id), DestName(h.clients, id), id);
    told.(clients := Remove(h.clients, id))
  }

  function AfterKicks(h: Hub, ids: seq<Id>): Hub {
    if ids == [] then h else AfterKick(AfterKicks(h, ids[..|ids| - 1]), ids[|ids| - 1])
  }

  /** The oldest handler that claims a connection string. */
  function FirstHandler(handlers: seq<DestinationHandler>, conn: string): Option<Name> {
    if handlers == [] then None
    else if handlers[0].matches(conn) then Some(handlers[0].name)
    else FirstHandler(handlers[1..], conn)
  }

  function AfterOpen(h: Hub, handlers: seq<DestinationHandler>, o: Env<Auth>): Hub {
    if o.id !in h.clients || h.clients[o.id].dest != "" then h
    else match FirstHandler(handlers, o.body.conn)
      case None => AfterKick(h, o.id)
      case Some(dn) => Deliver(h.(clients := SetDest(h.clients, o.id, dn)), OpenUp(dn, o))
  }

  /** The `i`-th handler claims the string, and none before it does. */
  predicate IsFirst(handlers: seq<DestinationHandler>, i: nat, conn: string) {
    i < |handlers| && handlers[i].matches(conn) && forall j :: 0 <= j < i ==> !handlers[j].matches(conn)
  }

  /** The client's entry names destination `dn`, whose queue has the request at its end; nothing else has changed. */
  predicate RoutedTo(h: Hub, h': Hub, o: Env<Auth>, dn: Name) {
    && dn in h.toDests && o.id in h.clients && h'.toClients == h.toClients
    && h'.clients == h.clients[o.id := h.clients[o.id].(dest := dn)]
    && h'.toDests == h.toDests[dn := h.toDests[dn].(opens := h.toDests[dn].opens + [o])]
  }

  predicate Reaches(h: Hub, id: Id) {
    id in h.clients && h.clients[id].dest in h.toDests
  }

  predicate Answers(h: Hub, id: Id) {
    id in h.clients && h.clients[id].client in h.toClients
  }

  // ---------------------------------------------------------------- the hub object

  class Proxy {
    const store: ClientStore
    const clientTimeout: int
    const destTimeout: int
    const authTimeout: int
    const maxLength: int
    var clientHandlers: map<Name, ClientChannels>
    var destHandlers: map<Name, DestChannels>
    var connected: seq<DestinationHandler>

    /** The handlers in the match list are registered, each once. */
    ghost predicate Valid()
      reads this
    {
      && (forall i :: 0 <= i < |connected| ==> connected[i].name in destHandlers)
      && (forall i, j :: 0 <= i < j < |connected| ==> connected[i].name != connected[j].name)
    }

    ghost function View(): Hub
      reads this, store
    {
      Hub(store.connections, clientHandlers, destHandlers)
    }

    constructor (max: int, clientTimeout: int, destTimeout: int, authTimeout: int, maxLength: int)
      ensures Valid() && fresh(store) && store.max == max && View() == Hub(map[], map[], map[]) && connected == []
      ensures store.last == 0 && this.clientTimeout == clientTimeout && this.destTimeout == destTimeout
      ensures this.authTimeout == authTimeout && this.maxLength == maxLength
    {
      store := new ClientStore(max);
      this.clientTimeout, this.destTimeout := clientTimeout, destTimeout;
      this.authTimeout, this.maxLength := authTimeout, maxLength;
      clientHandlers, destHandlers, connected := map[], map[], [];
    }

    /** A name can be taken once; a collision changes nothing. */
    method CreateClientMessageHandler(name: Name) returns (r: Result<(), HubError>)
      requires Valid()
      modifies this`clientHandlers
      ensures Valid() && (r.Ok? <==> name !in old(clientHandlers)) && (r.Err? ==> r.error == NameCollision(name))
      ensures clientHandlers ==
        if r.Ok? then old(clientHandlers)[name := ClientChannels([], [], [])] else old(clientHandlers)
    {
      if name in clientHandlers {
        return Err(NameCollision(name));
      }
      clientHandlers := clientHandlers[name := ClientChannels([], [], [])];
      return Ok(());
    }

    /** A new destination is the last to be asked whether it claims a connection string. */
    method CreateDestinationMessageHandler(name: Name, matches: string -> bool) returns (r: Result<(), HubError>)
      requires Valid()
      modifies this`destHandlers, this`connected
      ensures Valid() && (r.Ok? <==> name !in old(destHandlers)) && (r.Err? ==> r.error == NameCollision(name))
      ensures destHandlers == if r.Ok? then old(destHandlers)[name := DestChannels([], [], [])] else old(destHandlers)
      ensures connected == if r.Ok? then old(connected) + [DestinationHandler(name, matches)] else old(connected)
    {
      if name in destHandlers {
        return Err(NameCollision(name));
      }
      destHandlers := destHandlers[name := DestChannels([], [], [])];
      connected := connected + [DestinationHandler(name, matches)];
      return Ok(());
    }

    method GetNextClientId(name: Name, now: int) returns (r: Result<Id, HubError>)
      modifies store
      ensures Counter(store.last, store.connections) ==
        Request(old(Counter(store.last, store.connections)), store.max, name, now)
      ensures r.Ok? <==> old(Grants(Counter(store.last, store.connections), store.max))
      ensures store.last == (old(store.last) + 1) % ID_SPACE && (r.Ok? ==> r.value == store.last)
      ensures r.Ok? ==> store.connections == old(store.connections)[store.last := Meta(false, name, "", now, now, now)]
      ensures r.Err? ==> store.connections == old(store.connections) && r.error == StoreFailed(
        if store.last in store.connections then DuplicateClientId(store.last) else TooManyClients)
    {
      var id := store.GetNewClientId();
      var made := store.CreateClient(id, name, now);
      if made.Err? {
        return Err(StoreFailed(made.error));
      }
      return Ok(id);
    }

    method SendClientDisconnect(id: Id, cn: Name)
      requires Valid()
      modifies this`clientHandlers
      ensures Valid() && View() == CloseAtClient(old(View()), cn, id)
      ensures cn == "" || cn !in old(clientHandlers) ==> clientHandlers == old(clientHandlers)
      ensures cn != "" && cn in old(clientHandlers) ==> var ch := old(clientHandlers)[cn];
        clientHandlers == old(clientHandlers)[cn := ch.(closes := ch.closes + [id])]
    {
      if cn != "" && cn in clientHandlers {
        clientHandlers := clientHandlers[cn := clientHandlers[cn].(closes := clientHandlers[cn].closes + [id])];
      }
    }

    method SendDestinationDisconnect(id: Id, dn: Name)
      requires Valid()
      modifies this`destHandlers
      ensures Valid() && View() == CloseAtDest(old(View()), dn, id)
      ensures dn == "" || dn !in old(destHandlers) ==> destHandlers == old(destHandlers)
      ensures dn != "" && dn in old(destHandlers) ==> var ch := old(destHandlers)[dn];
        destHandlers == old(destHandlers)[dn := ch.(closes := ch.closes + [id])]
    {
      if dn != "" && dn in destHandlers {
        destHandlers := destHandlers[dn := destHandlers[dn].(closes := destHandlers[dn].closes + [id])];
      }
    }

    /** A kick reads both names before it sends, and a client without a name is not told. */
    method KickClient(id: Id)
      requires Valid()
      modifies this`clientHandlers, this`destHandlers, store`connections
      ensures Valid() && View() == AfterKick(old(View()), id) && store.connections == old(store.connections) - {id}
    {
      var cn, dn := "", "";
      var c := store.GetClientHandlerName(id);
      if c.Ok? {
        cn := c.value;
      }
      var d := store.GetDestinationHandlerName(id);
      if d.Ok? {
        dn := d.value;
      }
      SendClientDisconnect(id, cn);
      SendDestinationDisconnect(id, dn);
      store.RemoveClient(id);
    }

    method KickEach(ids: seq<Id>)
      requires Valid()
      modifies this`clientHandlers, this`destHandlers, store`connections
      ensures Valid() && View() == AfterKicks(old(View()), ids)
    {
      for i := 0 to |ids|
        invariant Valid() && View() == AfterKicks(old(View()), ids[..i])
      {
        KickClient(ids[i]);
        assert ids[..i + 1][..i] == ids[..i];
      }
      assert ids[..|ids|] == ids;
    }

    /** The sweep for silent and old clients: kicks exactly the clients past a deadline. */
    method KickOldClients(t1: int, t2: int, t3: int) returns (ids: seq<Id>)
      requires Valid()
      modifies this`clientHandlers, this`destHandlers, store`connections
      ensures ListsExpired(ids, old(store.connections), Deadlines(t1 - clientTimeout, t2 - destTimeout, t3 - maxLength))
      ensures forall id :: id in ids <==>
        && id in old(store.connections)
        && var e := old(store.connections)[id];
           e.created < t3 - maxLength || e.lastClient < t1 - clientTimeout || e.lastDest < t2 - destTimeout
      ensures store.connections == old(store.connections) - Elements(ids)
      ensures Valid() && View() == AfterKicks(old(View()), ids)
    {
      ids := store.GetTimeoutClientList(t1 - clientTimeout, t2 - destTimeout, t3 - maxLength);
      SweepExact(View(), ids);
      KickEach(ids);
    }

    /** The sweep for clients without a verdict. */
    method CheckForAuthTimeouts(now: int) returns (ids: seq<Id>)
      requires Valid()
      modifies this`clientHandlers, this`destHandlers, store`connections
      ensures ListsUnanswered(ids, old(store.connections), now - authTimeout)
      ensures forall id :: id in ids <==>
        && id in old(store.connections)
        && !old(store.connections)[id].connected && old(store.connections)[id].created < now - authTimeout
      ensures store.connections == old(store.connections) - Elements(ids)
      ensures Valid() && View() == AfterKicks(old(View()), ids)
    {
      ids := store.GetAuthTimeoutClientList(now - authTimeout);
      SweepExact(View(), ids);
      KickEach(ids);
    }

    /** The shutdown drain kicks every client once, and leaves none. */
    method Drain() returns (ids: seq<Id>)
      requires Valid()
      modifies this`clientHandlers, this`destHandlers, store`connections
      ensures NoDuplicates(ids) && Elements(ids) == old(store.connections).Keys
      ensures Valid() && View() == AfterKicks(old(View()), ids) && store.connections == map[]
    {
      hide AfterKick;
      ids := [];
      while store.connections != map[]
        invariant NoDuplicates(ids) && Valid() && View() == AfterKicks(old(View()), ids)
        invariant forall id :: id in ids ==> id in old(store.connections)
        invariant store.connections == old(store.connections) - Elements(ids)
        decreases |store.connections|
      {
        var id: Id :| id in store.connections;
        DrainOne(id, store.connections[id]);
        OneFewer(old(store.connections), ids, id);
        assert (ids + [id])[..|ids|] == ids;
        ids := ids + [id];
      }
    }

    /** The drain's callback, and the removal that follows it. */
    method DrainOne(id: Id, meta: Meta)
      requires Valid() && id in store.connections && meta == store.connections[id]
      modifies this`clientHandlers, this`destHandlers, store`connections
      ensures Valid() && View() == AfterKick(old(View()), id) && store.connections == Remove(old(store.connections), id)
    {
      SendClientDisconnect(id, meta.client);
      SendDestinationDisconnect(id, meta.dest);
      store.RemoveClient(id);
    }

    method ForwardClientMessage(m: Env<Bytes>) returns (r: Result<(), HubError>)
      requires Valid()
      modifies this`destHandlers
      ensures Valid() && (r.Ok? <==> Reaches(old(View()), m.id))
      ensures View() ==
        if r.Ok? then Deliver(old(View()), DataUp(DestName(store.connections, m.id), m)) else old(View())
      ensures r.Err? ==> r.error == if m.id in store.connections
        then MissingDestinationHandler(store.connections[m.id].dest) else StoreFailed(MissingClientId(m.id))
      ensures r.Ok? ==> m.id in store.connections && store.connections[m.id].dest in old(destHandlers)
      ensures r.Ok? ==> var dn := store.connections[m.id].dest; var ch := old(destHandlers)[dn];
        destHandlers == old(destHandlers)[dn := ch.(messages := ch.messages + [m])]
    {
      var dn := store.GetDestinationHandlerName(m.id);
      if dn.Err? {
        return Err(StoreFailed(dn.error));
      }
      if dn.value !in destHandlers {
        return Err(MissingDestinationHandler(dn.value));
      }
      var ch := destHandlers[dn.value];
      destHandlers := destHandlers[dn.value := ch.(messages := ch.messages + [m])];
      return Ok(());
    }

    method ForwardDestinationMessage(m: Env<Bytes>) returns (r: Result<(), HubError>)
      requires Valid()
      modifies this`clientHandlers
      ensures Valid() && (r.Ok? <==> Answers(old(View()), m.id))
      ensures View() ==
        if r.Ok? then Deliver(old(View()), DataDown(ClientName(store.connections, m.id), m)) else old(View())
      ensures r.Err? ==> r.error == if m.id in store.connections
        then MissingClientHandler(store.connections[m.id].client) else StoreFailed(MissingClientId(m.id))
      ensures r.Ok? ==> m.id in store.connections && store.connections[m.id].client in old(clientHandlers)
      ensures r.Ok? ==> var cn := store.connections[m.id].client; var ch := old(clientHandlers)[cn];
        clientHandlers == old(clientHandlers)[cn := ch.(messages := ch.messages + [m])]
    {
      var cn := store.GetClientHandlerName(m.id);
      if cn.Err? {
        return Err(StoreFailed(cn.error));
      }
      if cn.value !in clientHandlers {
        return Err(MissingClientHandler(cn.value));
      }
      var ch := clientHandlers[cn.value];
      clientHandlers := clientHandlers[cn.value := ch.(messages := ch.messages + [m])];
      return Ok(());
    }

    /** A verdict, also a refusing one, marks the client as answered before it is passed on. */
    method ForwardDestinationVerdict(v: Env<Verdict>) returns (r: Result<(), HubError>)
      requires Valid()
      modifies this`clientHandlers, store`connections
      ensures Valid() && (r.Ok? <==> Answers(old(View()), v.id))
      ensures View() == if r.Ok?
        then Deliver(old(View()).(clients := Connect(old(store.connections), v.id)),
                     VerdictDown(ClientName(old(store.connections), v.id), v))
        else old(View())
      ensures r.Err? ==> r.error == if v.id in store.connections
        then MissingClientHandler(store.connections[v.id].client) else StoreFailed(MissingClientId(v.id))
      ensures r.Ok? ==> v.id in old(store.connections) && old(store.connections)[v.id].client in old(clientHandlers)
      ensures r.Ok? ==> var e := old(store.connections)[v.id]; var ch := old(clientHandlers)[e.client];
        && store.connections == old(store.connections)[v.id := e.(connected := true)]
        && clientHandlers == old(clientHandlers)[e.client := ch.(verdicts := ch.verdicts + [v])]
    {
      var cn := store.GetClientHandlerName(v.id);
      if cn.Err? {
        return Err(StoreFailed(cn.error));
      }
      if cn.value !in clientHandlers {
        return Err(MissingClientHandler(cn.value));
      }
      var _ := store.Connect(v.id);
      var ch := clientHandlers[cn.value];
      clientHandlers := clientHandlers[cn.value := ch.(verdicts := ch.verdicts + [v])];
      return Ok(());
    }

    /** The index of the first handler that claims a connection string, or the number of handlers. */
    method FindHandler(conn: string) returns (i: nat)
      ensures i <= |connected| && (forall j :: 0 <= j < i ==> !connected[j].matches(conn))
      ensures i < |connected| ==> connected[i].matches(conn)
      ensures FirstHandler(connected, conn) == if i < |connected| then Some(connected[i].name) else None
    {
      i := 0;
      while i < |connected| && !connected[i].matches(conn)
        invariant i <= |connected| && (forall j :: 0 <= j < i ==> !connected[j].matches(conn))
        invariant FirstHandler(connected[i..], conn) == FirstHandler(connected, conn)
      {
        assert connected[i..][1..] == connected[i + 1..];
        i := i + 1;
      }
    }

    /**
     An open request: a duplicate is ignored, the first match is assigned and told, no match leads to a
     kick. In one uninterrupted call the assignment cannot fail; `Machine.Assign` has the other case.
     */
    method HandleClientConnectionRequest(o: Env<Auth>) returns (r: Result<(), HubError>)
      requires Valid()
      modifies this`clientHandlers, this`destHandlers, store`connections
      ensures Valid() && View() == AfterOpen(old(View()), connected, o)
      ensures r == if o.id !in old(store.connections) then Err(StoreFailed(MissingClientId(o.id)))
                   else if old(store.connections)[o.id].dest == "" && FirstHandler(connected, o.body.conn).None?
                   then Err(NoMatchingHandler(o.body.conn)) else Ok(())
      ensures r.Ok? && old(store.connections)[o.id].dest != "" ==> View() == old(View())
      ensures r.Ok? && old(store.connections)[o.id].dest == "" ==>
        exists i :: 0 <= i < |connected| && IsFirst(connected, i, o.body.conn) &&
          RoutedTo(old(View()), View(), o, connected[i].name)
      ensures r.Err? ==> store.connections == old(store.connections) - {o.id}
    {
      var dn := store.GetDestinationHandlerName(o.id);
      if dn.Err? {
        return Err(StoreFailed(dn.error));
      }
      if dn.value != "" {
        return Ok(());
      }
      var i := FindHandler(o.body.conn);
      if i == |connected| {
        KickClient(o.id);
        return Err(NoMatchingHandler(o.body.conn));
      }
      var name := connected[i].name;
      var _ := store.SetDestinationHandlerName(o.id, name);
      var ch := destHandlers[name];
      destHandlers := destHandlers[name := ch.(opens := ch.opens + [o])];
      return Ok(());
    }
  }

  // ---------------------------------------------------------------- sweeps are exact

  /** The clients of `ids` that belong to client handler `n`, in order; likewise for a destination. */
  function OfClient(ids: seq<Id>, m: Clients, n: Name): seq<Id> {
    if ids == [] then []
    else OfClient(ids[..|ids| - 1], m, n) + if ClientName(m, ids[|ids| - 1]) == n then [ids[|ids| - 1]] else []
  }

  function OfDest(ids: seq<Id>, m: Clients, d: Name): seq<Id> {
    if ids == [] then []
    else OfDest(ids[..|ids| - 1], m, d) + if DestName(m, ids[|ids| - 1]) == d then [ids[|ids| - 1]] else []
  }

  ghost predicate ClosesAdded(h: Hub, h': Hub, ids: seq<Id>) {
    && h'.toClients.Keys == h.toClients.Keys && h'.toDests.Keys == h.toDests.Keys
    && (forall n :: n in h.toClients ==>
        var added := if n == "" then [] else OfClient(ids, h.clients, n);
        h'.toClients[n] == h.toClients[n].(closes := h.toClients[n].closes + added))
    && (forall d :: d in h.toDests ==>
        var added := if d == "" then [] else OfDest(ids, h.clients, d);
        h'.toDests[d] == h.toDests[d].(closes := h.toDests[d].closes + added))
  }

  /**
   Kicking a duplicate-free list of clients removes exactly those, leaves every other entry as it was,
   and adds to each handler's queue one close for each of them that names it, and nothing else.
   */
  lemma {:induction false} SweepExact(h: Hub, ids: seq<Id>)
    requires NoDuplicates(ids)
    ensures AfterKicks(h, ids).clients == h.clients - Elements(ids)
    ensures ClosesAdded(h, AfterKicks(h, ids), ids)
  {
    if ids != [] {
      var rest, id := ids[..|ids| - 1], ids[|ids| - 1];
      SweepExact(h, rest);
      assert id !in rest && Elements(ids) == Elements(rest) + {id};
      var g := AfterKicks(h, rest);
      assert ClientName(g.clients, id) == ClientName(h.clients, id);
      assert DestName(g.clients, id) == DestName(h.clients, id);
      OneMoreClose(h, g, rest, id);
      assert rest + [id] == ids;
    }
  }

  lemma OneMoreClose(h: Hub, g: Hub, ids: seq<Id>, id: Id)
    requires ClosesAdded(h, g, ids)
    requires ClientName(g.clients, id) == ClientName(h.clients, id)
    requires DestName(g.clients, id) == DestName(h.clients, id)
    ensures ClosesAdded(h, AfterKick(g, id), ids + [id])
  {
    hide OfClient, OfDest, AfterKick, ClientName, DestName;
    KickAdds(g, id);
    OfMore(ids, h.clients, id);
  }

  predicate AddsTo(n: Name, name: Name) {
    n == name && n != ""
  }

  lemma KickAdds(g: Hub, id: Id)
    ensures var r := AfterKick(g, id);
      && r.toClients.Keys == g.toClients.Keys && r.toDests.Keys == g.toDests.Keys
      && (forall n :: n in g.toClients ==>
          var added := if AddsTo(n, ClientName(g.clients, id)) then [id] else [];
          r.toClients[n] == g.toClients[n].(closes := g.toClients[n].closes + added))
      && (forall d :: d in g.toDests ==>
          var added := if AddsTo(d, DestName(g.clients, id)) then [id] else [];
          r.toDests[d] == g.toDests[d].(closes := g.toDests[d].closes + added))
  {
  }

  lemma OfMore(ids: seq<Id>, m: Clients, id: Id)
    ensures forall n :: OfClient(ids + [id], m, n) == OfClient(ids, m, n) + if ClientName(m, id) == n then [id] else []
    ensures forall d :: OfDest(ids + [id], m, d) == OfDest(ids, m, d) + if DestName(m, id) == d then [id] else []
  {
    assert (ids + [id])[..|ids|] == ids;
  }

  /** So a kicked client has exactly one close at its own handler. */
  lemma {:induction false} OneClientClose(ids: seq<Id>, m: Clients, n: Name, id: Id)
    requires NoDuplicates(ids)
    ensures multiset(OfClient(ids, m, n))[id] == if id in ids && ClientName(m, id) == n then 1 else 0
  {
    hide ClientName;
    if ids != [] {
      var rest, x := ids[..|ids| - 1], ids[|ids| - 1];
      OneClientClose(rest, m, n, id);
      assert ids == rest + [x] && (id == x ==> id !in rest);
    }
  }

  /** And exactly one at its destination, if it has one. */
  lemma {:induction false} OneDestClose(ids: seq<Id>, m: Clients, d: Name, id: Id)
    requires NoDuplicates(ids)
    ensures multiset(OfDest(ids, m, d))[id] == if id in ids && DestName(m, id) == d then 1 else 0
  {
    hide DestName;
    if ids != [] {
      var rest, x := ids[..|ids| - 1], ids[|ids| - 1];
      OneDestClose(rest, m, d, id);
      assert ids == rest + [x] && (id == x ==> id !in rest);
    }
  }
}
