/**
 The UDP destination as an object: its registrations, its outgoing datagrams and what it sends the hub.
 A method is one call that finds room on every queue it sends on; `UdpAgrees` shows that it does what the
 steps of `Machine.UdpGo` do when nothing interferes.
 */
module UdpDestinations {
  import opened Types
  import opened Channels
  import opened ClientTable
  import opened UdpRules
  import opened ClientStores
  import opened Machine

  datatype UdpError = HostUnresolved | DestinationDenied | AddressUnresolved

  /** The registrations, the outgoing datagrams, and the verdicts, data and closes sent to the hub. */
  datatype Side = Side(
    reg: map<Id, Addr>,
    out: seq<Env<Datagram>>,
    verdicts: seq<Env<Verdict>>,
    messages: seq<Env<Bytes>>,
    closes: seq<Id>)

  /** An open request registers the address it leads to and asks the server, or is refused. */
  function AfterRequest(u: UdpConfig, s: Side, o: Env<Auth>): Side {
    match Target(u, o.body.conn)
    case None => s.(verdicts := s.verdicts + [Env(o.id, Verdict(false, []))])
    case Some(a) =>
      s.(reg := s.reg[o.id := a], out := s.out + [Env(o.id, Datagram(a, ConnectionRequest(o.body.app)))])
  }

  function AfterData(s: Side, m: Env<Bytes>): Side {
    if m.id in s.reg then s.(out := s.out + [Env(m.id, Datagram(s.reg[m.id], ClientMessage(m.body)))]) else s
  }

  /** A close is passed on once: the registration it needs goes with it. */
  function AfterClose(s: Side, id: Id): Side {
    if id in s.reg
    then s.(out := s.out + [Env(id, Datagram(s.reg[id], CloseConnection))], reg := s.reg - {id}) else s
  }

  /** A datagram that names a client without a registration is ignored. */
  function AfterHeard(s: Side, id: Id, h: Heard): Side {
    if id !in s.reg then s else
      match h
      case HVerdict(accepted, app) => s.(verdicts := s.verdicts + [Env(id, Verdict(accepted, app))])
      case HData(data) => s.(messages := s.messages + [Env(id, data)])
      case HClose => s.(closes := s.closes + [id])
  }

  /** Why a connection string leads nowhere. */
  function Failure(u: UdpConfig, conn: string): UdpError {
    match u.host(conn)
    case None => HostUnresolved
    case Some(h) => if HostAllowed(u.allowAll, u.allow, u.deny, h) then AddressUnresolved else DestinationDenied
  }

  class UdpDestination {
    const u: UdpConfig
    var registered: map<Id, Addr>
    var outgoing: seq<Env<Datagram>>
    var verdicts: seq<Env<Verdict>>
    var messages: seq<Env<Bytes>>
    var closes: seq<Id>

    ghost function View(): Side
      reads this
    {
      Side(registered, outgoing, verdicts, messages, closes)
    }

    constructor (u: UdpConfig)
      ensures this.u == u && View() == Side(map[], [], [], [], [])
    {
      this.u := u;
      registered, outgoing, verdicts, messages, closes := map[], [], [], [], [];
    }

    /** The three ways an open fails, in the order they are tried; a failed open changes nothing. */
    method OnConnectClient(o: Env<Auth>) returns (r: Result<(), UdpError>)
      modifies this`registered, this`outgoing
      ensures r.Ok? <==> Target(u, o.body.conn).Some?
      ensures r.Ok? <==>
        && u.host(o.body.conn).Some?
        && var h := u.host(o.body.conn).value;
           h !in u.deny && (u.allowAll || h in u.allow) && u.address(h).Some?
      ensures r.Ok? ==> View() == AfterRequest(u, old(View()), o)
      ensures r.Err? ==> View() == old(View())
      ensures r.Ok? ==> var a := u.address(u.host(o.body.conn).value).value;
        && registered == old(registered)[o.id := a]
        && outgoing == old(outgoing) + [Env(o.id, Datagram(a, ConnectionRequest(o.body.app)))]
      ensures r.Err? ==> r.error == Failure(u, o.body.conn)
    {
      var host := u.host(o.body.conn);
      if host.None? {
        return Err(HostUnresolved);
      }
      var allowed := IsDestinationAllowed(u.allowAll, u.allow, u.deny, host.value);
      if !allowed {
        return Err(DestinationDenied);
      }
      var a := u.address(host.value);
      if a.None? {
        return Err(AddressUnresolved);
      }
      registered := registered[o.id := a.value];
      outgoing := outgoing + [Env(o.id, Datagram(a.value, ConnectionRequest(o.body.app)))];
      return Ok(());
    }

    /** What the command loop does with an open request: a failure is answered with a refusal. */
    method ServeOpen(o: Env<Auth>)
      modifies this
      ensures View() == AfterRequest(u, old(View()), o)
      ensures Target(u, o.body.conn).None? ==>
        && verdicts == old(verdicts) + [Env(o.id, Verdict(false, []))]
        && registered == old(registered) && outgoing == old(outgoing)
    {
      var r := OnConnectClient(o);
      if r.Err? {
        verdicts := verdicts + [Env(o.id, Verdict(false, []))];
      }
    }

    method OnClientMessage(m: Env<Bytes>)
      modifies this`outgoing
      ensures View() == AfterData(old(View()), m)
      ensures outgoing == if m.id in registered
        then old(outgoing) + [Env(m.id, Datagram(registered[m.id], ClientMessage(m.body)))] else old(outgoing)
    {
      if m.id !in registered {
        return;
      }
      outgoing := outgoing + [Env(m.id, Datagram(registered[m.id], ClientMessage(m.body)))];
    }

    method OnProxyRequestClose(id: Id)
      modifies this`outgoing, this`registered
      ensures View() == AfterClose(old(View()), id)
      ensures registered == old(registered) - {id}
      ensures outgoing == if id in old(registered)
        then old(outgoing) + [Env(id, Datagram(old(registered)[id], CloseConnection))] else old(outgoing)
    {
      if id !in registered {
        return;
      }
      outgoing := outgoing + [Env(id, Datagram(registered[id], CloseConnection))];
      registered := registered - {id};
    }

    method OnReceiveVerdict(id: Id, accepted: bool, app: Bytes)
      modifies this`verdicts
      ensures View() == AfterHeard(old(View()), id, HVerdict(accepted, app))
      ensures verdicts == if id in registered then old(verdicts) + [Env(id, Verdict(accepted, app))] else old(verdicts)
    {
      if id in registered {
        verdicts := verdicts + [Env(id, Verdict(accepted, app))];
      }
    }

    method OnReceiveProxyMessage(id: Id, data: Bytes)
      modifies this`messages
      ensures View() == AfterHeard(old(View()), id, HData(data))
      ensures messages == if id in registered then old(messages) + [Env(id, data)] else old(messages)
    {
      if id in registered {
        messages := messages + [Env(id, data)];
      }
    }

    method OnReceiveCloseRequest(id: Id)
      modifies this`closes
      ensures View() == AfterHeard(old(View()), id, HClose)
      ensures closes == if id in registered then old(closes) + [id] else old(closes)
    {
      if id in registered {
        closes := closes + [id];
      }
    }

    /**
     The shutdown loop: each registered client's server is told once, at the client's own address, by a datagram
     written directly; no registration is left, and the outgoing queue is untouched.
     */
    method CloseAll() returns (ids: seq<Id>, told: seq<Datagram>)
      modifies this`registered
      ensures registered == map[] && |told| == |ids| && NoDuplicates(ids)
      ensures forall id :: id in ids <==> id in old(registered)
      ensures forall i :: 0 <= i < |ids| ==> told[i] == Datagram(old(registered)[ids[i]], CloseConnection)
    {
      ids, told := [], [];
      while registered != map[]
        invariant |told| == |ids| && NoDuplicates(ids)
        invariant forall id :: id in ids ==> id in old(registered) && id !in registered
        invariant forall id :: id in old(registered) && id !in ids ==>
          id in registered && registered[id] == old(registered)[id]
        invariant forall i :: 0 <= i < |ids| ==> told[i] == Datagram(old(registered)[ids[i]], CloseConnection)
        invariant registered.Keys <= old(registered).Keys
        decreases |registered|
      {
        var id: Id :| id in registered;
        told := told + [Datagram(registered[id], CloseConnection)];
        registered := registered - {id};
        ids := ids + [id];
      }
    }
  }

  // ---------------------------------------------------------------- agreement with the machine

  /** Steps of the command goroutine until it is idle or has to send a refusal. */
  function UdpRuns(cfg: Config, u: UdpConfig, D: Dest, n: nat): Dest
    decreases n
  {
    if n == 0 then D else
      match UdpGo(cfg, u, D)
      case None => D
      case Some(D') => UdpRuns(cfg, u, D', n - 1)
  }

  ghost predicate Served(u: UdpConfig, s: Side, command: UdpPc, D': Dest) {
    if command.UOpen? then
      && D'.reg == AfterRequest(u, s, command.o).reg && D'.out.Sent() == AfterRequest(u, s, command.o).out
      && D'.pc == if Target(u, command.o.body.conn).Some? then UIdle else URefuse(command.o.id)
    else if command.UMsg? then
      D'.reg == s.reg && D'.out.Sent() == AfterData(s, command.m).out && D'.pc.UIdle?
    else
      && command.UClose? && D'.pc.UIdle?
      && D'.reg == AfterClose(s, command.id).reg && D'.out.Sent() == AfterClose(s, command.id).out
  }

  /**
   Uninterrupted and with room for its datagram, the goroutine does what the methods do; an open that
   fails ends where the refusal is sent.
   */
  lemma UdpAgrees(cfg: Config, u: UdpConfig, D: Dest, s: Side)
    requires D.pc.UOpen? || D.pc.UMsg? || D.pc.UClose?
    requires s.reg == D.reg && s.out == D.out.Sent() && D.out.Room(cfg.room.datagrams)
    ensures Served(u, s, D.pc, UdpRuns(cfg, u, D, 3))
  {
    hide Target;
    var D1 := UdpGo(cfg, u, D).value;
    assert UdpRuns(cfg, u, D, 3) == UdpRuns(cfg, u, D1, 2);
    if D1.pc.USend? || D1.pc.USendClose? {
      var D2 := UdpGo(cfg, u, D1).value;
      assert UdpRuns(cfg, u, D1, 2) == UdpRuns(cfg, u, D2, 1);
    }
  }

  /** The object's queues towards the hub are the hub's incoming channels. */
  ghost predicate MirrorsHub(x: Side, s: State) {
    x.verdicts == s.dVerdicts.queue && x.messages == s.dMsgs.queue && x.closes == IdsIn(s.dCloses.queue)
  }

  /** A datagram from the network does to the machine's channels what the receive methods do to the object's queues. */
  lemma HearsAgrees(cfg: Config, s: State, d: Name, c: Id, h: Heard, s': State, x: Side)
    requires DestDo(cfg, s, ByListener(d, c, h)) == Some(s')
    requires d in s.dests && x.reg == s.dests[d].reg && MirrorsHub(x, s)
    ensures c in x.reg && MirrorsHub(AfterHeard(x, c, h), s') && s'.dests == s.dests
    ensures s'.accepts == if h.HVerdict? && h.accepted then s.accepts + [Env(c, h.app)] else s.accepts
  {
    hide SentTo, GotBy, For;
    if h.HClose? {
      MoreIds(s.dCloses.queue, c);
    }
  }

  /** A refusal that the command goroutine has to send is what `ServeOpen` adds to the verdicts. */
  lemma RefuseAgrees(cfg: Config, u: UdpConfig, s: State, d: Name, s': State, x: Side, o: Env<Auth>)
    requires d in s.dests && s.dests[d].pc == URefuse(o.id) && Refuses(cfg, s, d, s.dests[d]) == Some(s')
    requires MirrorsHub(x, s) && Target(u, o.body.conn).None?
    ensures MirrorsHub(AfterRequest(u, x, o), s') && d in s'.dests && s'.dests[d] == s.dests[d].(pc := UIdle)
  {
    hide SentTo, GotBy, For, Target;
  }

  /** At shutdown a destination of the machine forgets its registrations, as `CloseAll` does. */
  lemma WipeAgrees(cfg: Config, s: State, d: Name, s': State)
    requires DestDo(cfg, s, Wipe(d)) == Some(s')
    ensures d in s.dests && s.shutdown && s' == s.(dests := s.dests[d := s.dests[d].(reg := map[])])
  {
  }
}
