/**
 The guarantees are not empty: with any configuration that can route a client and has room for one message
 on every channel, there is a run in which the client is accepted and all data passes in both directions, and one
 in which the accept comes too late.
 */
module Conversation {
  import opened Types
  import opened Channels
  import opened ClientTable
  import opened UdpRules
  import opened Machine
  import opened Frames
  import opened Grammar
  import opened Theorems
  import opened Witnesses

  /** The parts of a state that one client, its router and its destination are about. */
  datatype Scene = Scene(
    t: Table, S: Session, R: Router, D: Dest,
    cMsgs: seq<Env<Bytes>>, cOpens: seq<Env<Auth>>, dMsgs: Chan<Env<Bytes>>, dVerdicts: seq<Env<Verdict>>,
    dCloses: seq<Env<()>>, accepts: seq<Env<Bytes>>)

  /** The names of the router and the destination. */
  datatype Cast = Cast(router: Name, d: Name)

  ghost predicate Shows(cfg: Config, c: Cast, s: State, x: Scene) {
    && Reachable(cfg, s) && !s.shutdown && s.t == x.t
    && 1 in s.ses && s.ses[1] == x.S
    && c.router in s.routers && s.routers[c.router] == x.R
    && c.d in s.dests && s.dests[c.d] == x.D
    && s.cMsgs.queue == x.cMsgs && s.cOpens.queue == x.cOpens
    && s.dMsgs == x.dMsgs && s.dVerdicts.queue == x.dVerdicts && s.dCloses.queue == x.dCloses
    && s.accepts == x.accepts
  }

  ghost predicate Roomy(cfg: Config) {
    var r := cfg.room;
    && r.clientIn > 0 && r.destIn > 0 && r.routerData > 0 && r.destData > 0 && r.control > 0
    && r.inbox > 0 && r.outbox > 0 && r.datagrams > 0
  }

  // ---------------------------------------------------------------- single moves

  lemma TransportMove(cfg: Config, c: Cast, s: State, x: Scene, st: TransportStep, S: Session) returns (s': State)
    requires Shows(cfg, c, s, x) && Linked(x.S.phase) && TransportGo(cfg, x.S, st) == Some(S)
    ensures Shows(cfg, c, s', x.(S := S))
  {
    hide Reachable, TransportGo;
    s' := s.(ses := s.ses[1 := S]);
    assert Do(cfg, s, AtClient(ByTransport(1, st))) == Some(s');
    Follow(cfg, s, AtClient(ByTransport(1, st)));
  }

  lemma SessionMove(cfg: Config, c: Cast, s: State, x: Scene, st: SessionStep, S: Session) returns (s': State)
    requires Shows(cfg, c, s, x) && SessionGo(cfg, x.S, x.S.cancelled, st) == Some((S, Quiet))
    ensures Shows(cfg, c, s', x.(S := S))
  {
    hide Reachable, SessionGo;
    s' := s.(ses := s.ses[1 := S]);
    assert Do(cfg, s, AtClient(BySession(1, st))) == Some(s');
    Follow(cfg, s, AtClient(BySession(1, st)));
  }

  lemma SessionOpens(cfg: Config, c: Cast, s: State, x: Scene, S: Session, a: Auth) returns (s': State)
    requires Shows(cfg, c, s, x) && SessionGo(cfg, x.S, x.S.cancelled, Proceed) == Some((S, EmitOpen(a)))
    requires x.cOpens == [] && Roomy(cfg)
    ensures Shows(cfg, c, s', x.(S := S, cOpens := [Env(1, a)]))
  {
    hide Reachable, SessionGo;
    s' := s.(ses := s.ses[1 := S], cOpens := Post(s.cOpens, Env(1, a)));
    assert Do(cfg, s, AtClient(BySession(1, Proceed))) == Some(s');
    Follow(cfg, s, AtClient(BySession(1, Proceed)));
  }

  lemma SessionSends(cfg: Config, c: Cast, s: State, x: Scene, S: Session, data: Bytes) returns (s': State)
    requires Shows(cfg, c, s, x) && SessionGo(cfg, x.S, x.S.cancelled, InSend) == Some((S, EmitData(data)))
    requires x.cMsgs == [] && Roomy(cfg)
    ensures Shows(cfg, c, s', x.(S := S, cMsgs := [Env(1, data)]))
  {
    hide Reachable, SessionGo;
    s' := s.(ses := s.ses[1 := S], cMsgs := Post(s.cMsgs, Env(1, data)));
    assert Do(cfg, s, AtClient(BySession(1, InSend))) == Some(s');
    Follow(cfg, s, AtClient(BySession(1, InSend)));
  }

  /** The hub reads the one message of a channel. */
  lemma HubReads(cfg: Config, c: Cast, s: State, x: Scene, st: HubStep, x': Scene) returns (s': State)
    requires Shows(cfg, c, s, x)
    requires
      || (&& st == ByClientLoop(FromOpens) && x.t.cpc.CIdle? && |x.cOpens| == 1
          && x' == x.(t := x.t.(cpc := COpen(x.cOpens[0])), cOpens := []))
      || (&& st == ByClientLoop(FromMsgs) && x.t.cpc.CIdle? && |x.cMsgs| == 1
          && x' == x.(t := x.t.(cpc := CMsg(x.cMsgs[0])), cMsgs := []))
      || (&& st == ByDestLoop(FromOpens) && x.t.dpc.DIdle? && |x.dVerdicts| == 1
          && x' == x.(t := x.t.(dpc := DVerdict(x.dVerdicts[0])), dVerdicts := []))
      || (&& st == ByDestLoop(FromMsgs) && x.t.dpc.DIdle? && x.dMsgs.queue != []
          && x' == x.(t := x.t.(dpc := DMsg(x.dMsgs.queue[0])), dMsgs := Pull(x.dMsgs)))
      || (&& st == ByDestLoop(FromCloses) && x.t.dpc.DIdle? && |x.dCloses| == 1
          && x' == x.(t := x.t.(dpc := DKick(LookClient(x.dCloses[0].id))), dCloses := []))
    ensures Shows(cfg, c, s', x')
  {
    hide Reachable;
    Follow(cfg, s, AtHub(st));
    s' := Do(cfg, s, AtHub(st)).value;
  }

  /** A hub goroutine goes on; what it sends reaches the router or the destination. */
  lemma HubGoes(cfg: Config, c: Cast, s: State, x: Scene, st: HubStep, r: (Table, Out)) returns (s': State)
    requires Shows(cfg, c, s, x)
    requires
      || (st.ByClientLoop? && st.c.Go? && !x.t.cpc.CIdle? && ClientGo(cfg, x.t, st.c.time) == Some(r))
      || (st.ByDestLoop? && st.d.Go? && !x.t.dpc.DIdle? && DestGo(cfg, x.t, st.d.time) == Some(r))
    requires Fits(cfg, s, r.1)
    ensures Shows(cfg, c, s', x.(t := r.0, R := RouterAfter(c.router, x.R, r.1), D := DestAfter(c.d, x.D, r.1)))
  {
    hide Reachable, ClientGo, DestGo, HubGo, Fits, RouterAfter, DestAfter;
    s' := Goes(cfg, s, r);
    assert Do(cfg, s, AtHub(st)) == Some(s');
    HubSends(cfg, s, Some(r), s');
    Follow(cfg, s, AtHub(st));
  }

  /** It goes on without sending. */
  lemma HubThinks(cfg: Config, c: Cast, s: State, x: Scene, st: HubStep, t: Table) returns (s': State)
    requires Shows(cfg, c, s, x)
    requires
      || (st.ByClientLoop? && st.c.Go? && !x.t.cpc.CIdle? && ClientGo(cfg, x.t, st.c.time) == Some((t, Nothing)))
      || (st.ByDestLoop? && st.d.Go? && !x.t.dpc.DIdle? && DestGo(cfg, x.t, st.d.time) == Some((t, Nothing)))
    ensures Shows(cfg, c, s', x.(t := t))
  {
    hide Shows, ClientGo, DestGo;
    s' := HubGoes(cfg, c, s, x, st, (t, Nothing));
  }

  /** It sends to a handler of the scene that has room. */
  lemma HubSays(cfg: Config, c: Cast, s: State, x: Scene, st: HubStep, r: (Table, Out)) returns (s': State)
    requires Shows(cfg, c, s, x) && Roomy(cfg)
    requires
      || (st.ByClientLoop? && st.c.Go? && !x.t.cpc.CIdle? && ClientGo(cfg, x.t, st.c.time) == Some(r))
      || (st.ByDestLoop? && st.d.Go? && !x.t.dpc.DIdle? && DestGo(cfg, x.t, st.d.time) == Some(r))
    requires r.1.OpenUp? || r.1.DataUp? ==> r.1.dest == c.d && x.D.opens.queue == [] && x.D.msgs.queue == []
    requires r.1.DataDown? || r.1.VerdictDown? ==>
      r.1.router == c.router && x.R.msgs.queue == [] && x.R.verdicts.queue == []
    requires r.1.CloseUp? ==> r.1.dest == c.d && x.D.closes.queue == []
    requires r.1.CloseDown? ==> r.1.router == c.router && x.R.closes.queue == []
    ensures Shows(cfg, c, s', x.(t := r.0, R := RouterAfter(c.router, x.R, r.1), D := DestAfter(c.d, x.D, r.1)))
  {
    hide Reachable, ClientGo, DestGo, RouterAfter, DestAfter;
    s' := HubGoes(cfg, c, s, x, st, r);
  }

  lemma Goes(cfg: Config, s: State, r: (Table, Out)) returns (s': State)
    requires Fits(cfg, s, r.1)
    ensures HubGo(cfg, s, Some(r)) == Some(s')
  {
    s' := Sends(s, r.0, r.1);
  }

  lemma UdpMove(cfg: Config, c: Cast, s: State, x: Scene, st: UdpStep, D: Dest) returns (s': State)
    requires Shows(cfg, c, s, x) && c.d in cfg.udp
    requires
      || (x.D.pc.UIdle? && UdpTake(x.D, st, false) == Some(D))
      || (!x.D.pc.UIdle? && st.Act? && UdpGo(cfg, cfg.udp[c.d], x.D) == Some(D))
    ensures Shows(cfg, c, s', x.(D := D))
  {
    hide Reachable, UdpTake, UdpGo;
    s' := s.(dests := s.dests[c.d := D]);
    assert Do(cfg, s, AtDest(ByUdp(c.d, st))) == Some(s');
    Follow(cfg, s, AtDest(ByUdp(c.d, st)));
  }

  lemma TransmitMove(cfg: Config, c: Cast, s: State, x: Scene) returns (s': State)
    requires Shows(cfg, c, s, x) && x.D.out.queue != []
    ensures Shows(cfg, c, s', x.(D := x.D.(out := Pull(x.D.out))))
  {
    hide Reachable;
    s' := s.(dests := s.dests[c.d := x.D.(out := Pull(x.D.out))]);
    assert Do(cfg, s, AtDest(Transmit(c.d))) == Some(s');
    Follow(cfg, s, AtDest(Transmit(c.d)));
  }

  function AfterHearing(x: Scene, h: Heard): Scene {
    if h.HClose? then x.(dCloses := [Env(1, ())])
    else if h.HData? then x.(dMsgs := Post(x.dMsgs, Env(1, h.data)))
    else x.(dVerdicts := [Env(1, Verdict(h.accepted, h.app))],
            accepts := if h.accepted then x.accepts + [Env(1, h.app)] else x.accepts)
  }

  lemma HearMove(cfg: Config, c: Cast, s: State, x: Scene, h: Heard) returns (s': State)
    requires Shows(cfg, c, s, x) && Roomy(cfg) && 1 in x.D.reg && x.dVerdicts == []
    requires x.dMsgs.queue == [] && x.dCloses == []
    ensures Shows(cfg, c, s', AfterHearing(x, h))
  {
    hide Reachable;
    Follow(cfg, s, AtDest(ByListener(c.d, 1, h)));
    s' := Do(cfg, s, AtDest(ByListener(c.d, 1, h))).value;
  }

  /** The router takes its next message and hands it to the client's session. */
  lemma RouterMove(cfg: Config, c: Cast, s: State, x: Scene, st: RouterStep, R: Router, S: Session) returns (s': State)
    requires Shows(cfg, c, s, x) && RouterTake(x.R, st, false) == Some(R)
    requires 1 in R.links && R.links[1] == 1 && Holding(R.pc) == Some(1) && Receive(cfg, x.S, R.pc) == Some(S)
    ensures Shows(cfg, c, s', x.(R := R.(pc := RIdle), S := S))
  {
    hide Reachable, RouterTake, Receive, Holding;
    var s1 := s.(routers := s.routers[c.router := R]);
    assert Do(cfg, s, AtClient(ByRouter(c.router, st))) == Some(s1);
    Follow(cfg, s, AtClient(ByRouter(c.router, st)));
    s' := s1.(routers := s1.routers[c.router := R.(pc := RIdle)], ses := s1.ses[1 := S]);
    assert Do(cfg, s1, AtClient(Demux(c.router))) == Some(s');
    Follow(cfg, s1, AtClient(Demux(c.router)));
  }

  // ---------------------------------------------------------------- a whole conversation

  /** How it begins: the client's first packet and what it means, the server's address and its answer. */
  datatype Script = Script(packet: Bytes, auth: Auth, a: Addr, app: Bytes)

  ghost predicate Playable(cfg: Config, c: Cast, p: Script) {
    && Routes(cfg, c.router, p.packet, p.auth, c.d) && Roomy(cfg)
    && Target(cfg.udp[c.d], p.auth.conn) == Some(p.a)
  }

  /** Between two stages nothing is under way: every queue is empty and every goroutine idle. */
  predicate Calm(c: Cast, x: Scene, a: Addr) {
    && x.t.cpc.CIdle? && x.t.dpc.DIdle? && x.R.pc.RIdle? && x.D.pc.UIdle?
    && x.cMsgs == [] && x.cOpens == [] && x.dMsgs.queue == [] && x.dVerdicts == [] && x.dCloses == []
    && x.R.closes.queue == [] && x.D.closes.queue == [] && x.S.closeReq.queue == []
    && x.R.msgs.queue == [] && x.R.verdicts.queue == [] && x.D.opens.queue == [] && x.D.msgs.queue == []
    && x.D.out.queue == []
    && x.S.inbox.queue == [] && x.S.packets.queue == [] && x.S.outQ.queue == [] && x.S.verdictQ.queue == []
    && !x.S.cancelled && x.R.links == map[1 := 1] && 1 in x.t.clients
    && x.t.clients[1].client == c.router && x.t.clients[1].dest == c.d && x.D.reg == map[1 := a]
  }

  /** The client asks, and its request waits for the hub. */
  lemma Asks(cfg: Config, c: Cast, p: Script) returns (s: State, x: Scene)
    requires Playable(cfg, c, p)
    ensures Shows(cfg, c, s, x) && x.R == NEW_ROUTER.(links := map[1 := 1]) && x.D == NEW_DEST
    ensures x.t == Entered(Start(cfg).t.(allocs := 1), 1, c.router, 0)
    ensures x.cMsgs == [] && x.cOpens == [Env(1, p.auth)] && x.dMsgs == EmptyChan() && x.dVerdicts == []
    ensures x.dCloses == []
    ensures x.S == UNBORN.(owner := c.router, phase := WaitVerdict, inbox := Chan([p.packet], []))
  {
    hide Reachable, FirstMatch, Target;
    var none: seq<Bytes> := [];
    assert none + [p.packet] == [p.packet] && [p.packet][1..] == none;
    s := LinkedReachable(cfg, c.router);
    x := Scene(s.t, s.ses[1], s.routers[c.router], NEW_DEST, [], [], EmptyChan(), [], [], []);
    s := TransportMove(cfg, c, s, x, Push(p.packet), x.S.(inbox := Chan([], [p.packet])));
    x := x.(S := x.S.(inbox := Chan([], [p.packet])));
    s := SessionMove(cfg, c, s, x, Proceed, x.S.(inbox := Chan([p.packet], []), phase := Opening(p.auth)));
    x := x.(S := x.S.(inbox := Chan([p.packet], []), phase := Opening(p.auth)));
    s := SessionOpens(cfg, c, s, x, x.S.(phase := WaitVerdict), p.auth);
    x := x.(S := x.S.(phase := WaitVerdict), cOpens := [Env(1, p.auth)]);
  }

  /** The hub routes the request to the destination. */
  lemma IsRouted(cfg: Config, c: Cast, p: Script) returns (s: State, x: Scene)
    requires Playable(cfg, c, p)
    ensures Shows(cfg, c, s, x) && x.R == NEW_ROUTER.(links := map[1 := 1])
    ensures x.D == NEW_DEST.(opens := Post(EmptyChan(), Env(1, p.auth)))
    ensures x.t.cpc.CIdle? && x.t.dpc.DIdle? && 1 in x.t.clients && x.t.clients[1] == Fresh(c.router, 0).(dest := c.d)
    ensures x.cMsgs == [] && x.cOpens == [] && x.dMsgs == EmptyChan() && x.dVerdicts == [] && x.dCloses == []
    ensures x.S == UNBORN.(owner := c.router, phase := WaitVerdict, inbox := Chan([p.packet], []))
  {
    hide Shows, FirstMatch, Target;
    var o := Env(1, p.auth);
    s, x := Asks(cfg, c, p);
    var x1 := x.(t := x.t.(cpc := COpen(o)), cOpens := []);
    s := HubReads(cfg, c, s, x, ByClientLoop(FromOpens), x1);
    var t2 := x1.t.(cpc := CAssign(o));
    s := HubThinks(cfg, c, s, x1, ByClientLoop(Go(0)), t2);
    var t3 := Assign(cfg, t2, o);
    s := HubThinks(cfg, c, s, x1.(t := t2), ByClientLoop(Go(0)), t3);
    var t4 := t3.(cpc := CIdle);
    s := HubSays(cfg, c, s, x1.(t := t3), ByClientLoop(Go(0)), (t4, OpenUp(c.d, o)));
    x := x1.(t := t4, D := DestAfter(c.d, x.D, OpenUp(c.d, o)));
  }

  /** The destination registers the client and sends the request. */
  lemma IsRequested(cfg: Config, c: Cast, p: Script) returns (s: State, x: Scene)
    requires Playable(cfg, c, p)
    ensures Shows(cfg, c, s, x) && Calm(c, x, p.a) && x.S.phase.WaitVerdict? && x.S.inbox.got == [p.packet]
    ensures x.S.packets.Sent() == [] && x.S.verdictQ == EmptyChan() && x.R.verdicts == EmptyChan()
    ensures x.dMsgs == EmptyChan() && x.S.clientClose == EmptyChan() && x.S.proxyClose == EmptyChan()
    ensures x.D.out == Pull(Post(EmptyChan(), Env(1, Datagram(p.a, ConnectionRequest(p.auth.app)))))
  {
    hide Reachable, FirstMatch, Target, Routes;
    assert c.d in cfg.udp by { KnownUdp(cfg, c, p); }
    s, x := IsRouted(cfg, c, p);
    var o := Env(1, p.auth);
    var D1 := x.D.(opens := Pull(x.D.opens), pc := UOpen(o));
    s := UdpMove(cfg, c, s, x, TakeOpen, D1);
    var dg := Env(1, Datagram(p.a, ConnectionRequest(p.auth.app)));
    var D2 := D1.(reg := map[1 := p.a], ever := map[1 := p.a], pc := USend(dg));
    assert D1.reg[1 := p.a] == map[1 := p.a];
    s := UdpMove(cfg, c, s, x.(D := D1), Act, D2);
    var D3 := D2.(out := Post(D2.out, dg), pc := UIdle);
    s := UdpMove(cfg, c, s, x.(D := D2), Act, D3);
    s := TransmitMove(cfg, c, s, x.(D := D3));
    x := x.(D := D3.(out := Pull(D3.out)));
  }

  lemma KnownUdp(cfg: Config, c: Cast, p: Script)
    requires Playable(cfg, c, p)
    ensures c.d in cfg.udp && c.d in cfg.dests && c.router in cfg.clients
  {
  }

  /** The destination's verdict reaches the client's router. */
  lemma VerdictGoes(cfg: Config, c: Cast, p: Script, accepted: bool) returns (s: State, x: Scene)
    requires Playable(cfg, c, p)
    ensures Shows(cfg, c, s, x) && Calm(c, x.(R := x.R.(verdicts := EmptyChan())), p.a) && x.S.phase.WaitVerdict?
    ensures x.S.inbox.got == [p.packet]
    ensures x.R.verdicts == Post(EmptyChan(), Env(1, Verdict(accepted, p.app))) && x.dMsgs == EmptyChan()
    ensures x.S.packets.Sent() == [] && x.S.verdictQ == EmptyChan() && x.S.proxyClose == EmptyChan()
    ensures x.D.out == Pull(Post(EmptyChan(), Env(1, Datagram(p.a, ConnectionRequest(p.auth.app)))))
  {
    hide Shows, Routes, Target;
    KnownUdp(cfg, c, p);
    s, x := IsRequested(cfg, c, p);
    var v := Env(1, Verdict(accepted, p.app));
    s := HearMove(cfg, c, s, x, HVerdict(accepted, p.app));
    x := x.(accepts := if accepted then x.accepts + [Env(1, p.app)] else x.accepts);
    var x1 := x.(dVerdicts := [v]);
    var t1 := x.t.(dpc := DVerdict(v));
    s := HubReads(cfg, c, s, x1, ByDestLoop(FromOpens), x.(t := t1));
    var t2 := t1.(dpc := DConnect(v, c.router));
    s := HubThinks(cfg, c, s, x.(t := t1), ByDestLoop(Go(0)), t2);
    var t3 := t2.(clients := Connect(t2.clients, 1), dpc := DTell(v, c.router));
    s := HubThinks(cfg, c, s, x.(t := t2), ByDestLoop(Go(0)), t3);
    var t4 := t3.(dpc := DIdle);
    s := HubSays(cfg, c, s, x.(t := t3), ByDestLoop(Go(0)), (t4, VerdictDown(c.router, v)));
    x := x.(t := t4, R := RouterAfter(c.router, x.R, VerdictDown(c.router, v)));
  }

  predicate InRelay(x: Scene) {
    x.S.phase == Relaying(OutIdle, InIdle) && x.S.proxyClose == EmptyChan()
  }

  /** The client is told, and its session begins to relay. */
  lemma IsAccepted(cfg: Config, c: Cast, p: Script) returns (s: State, x: Scene)
    requires Playable(cfg, c, p)
    ensures Shows(cfg, c, s, x) && Calm(c, x, p.a) && InRelay(x) && x.S.inbox.got == [p.packet]
    ensures x.S.packets.got == [Told(Verdict(true, p.app))] && x.dMsgs == EmptyChan()
    ensures x.D.out == Pull(Post(EmptyChan(), Env(1, Datagram(p.a, ConnectionRequest(p.auth.app)))))
  {
    hide Shows, Routes, Target;
    s, x := VerdictGoes(cfg, c, p, true);
    var v := Verdict(true, p.app);
    assert x.R.verdicts.queue[0] == Env(1, v) && x.R.verdicts.queue[1..] == [];
    var R := x.R.(verdicts := Pull(x.R.verdicts), pc := RVerdict(Env(1, v)));
    var S := x.S.(verdictQ := x.S.verdictQ.Put(v));
    s := RouterMove(cfg, c, s, x, TakeVerdict, R, S);
    x := x.(R := R.(pc := RIdle), S := S);
    var S1 := S.(verdictQ := S.verdictQ.Take(), phase := Telling(v));
    s := SessionMove(cfg, c, s, x, Proceed, S1);
    var S2 := S1.(packets := S1.packets.Put(Told(v)), phase := Relaying(OutIdle, InIdle));
    s := SessionMove(cfg, c, s, x.(S := S1), Proceed, S2);
    var S3 := S2.(packets := S2.packets.Take());
    s := TransportMove(cfg, c, s, x.(S := S2), Fetch, S3);
    x := x.(S := S3);
    assert S1.packets.got == [] && S1.packets.queue == [];
  }

  // ---------------------------------------------------------------- data

  /** One packet of the client, as far as the hub's table of data for the destination. */
  lemma PacketLeaves(cfg: Config, c: Cast, s0: State, x0: Scene, a: Addr, up: Bytes) returns (s: State, x: Scene)
    requires Shows(cfg, c, s0, x0) && Calm(c, x0, a) && InRelay(x0) && Roomy(cfg)
    ensures Shows(cfg, c, s, x) && Calm(c, x.(cMsgs := []), a) && InRelay(x) && x.cMsgs == [Env(1, up)]
    ensures x.D == x0.D && x.S.packets == x0.S.packets && x.S.inbox.got == x0.S.inbox.got + [up] && x.dMsgs == x0.dMsgs
  {
    hide Shows;
    s, x := s0, x0;
    var S1 := x.S.(inbox := x.S.inbox.Put(up));
    s := TransportMove(cfg, c, s, x, Push(up), S1);
    assert S1.inbox.queue == [up];
    var S2 := S1.(inbox := S1.inbox.Take(), phase := Relaying(OutIdle, InHeld(up)));
    s := SessionMove(cfg, c, s, x.(S := S1), InTake, S2);
    s := SessionSends(cfg, c, s, x.(S := S2), S2.(phase := Relaying(OutIdle, InIdle)), up);
    x := x.(S := S2.(phase := Relaying(OutIdle, InIdle)), cMsgs := [Env(1, up)]);
  }

  /** The hub forwards it. */
  lemma PacketCrosses(cfg: Config, c: Cast, s0: State, x0: Scene, a: Addr, up: Bytes) returns (s: State, x: Scene)
    requires Shows(cfg, c, s0, x0) && Calm(c, x0, a) && InRelay(x0) && Roomy(cfg) && c.d in cfg.dests
    ensures Shows(cfg, c, s, x) && Calm(c, x.(D := x0.D), a) && InRelay(x)
    ensures x.D == x0.D.(msgs := Post(x0.D.msgs, Env(1, up))) && x.S.packets == x0.S.packets
    ensures x.S.inbox.got == x0.S.inbox.got + [up] && x.dMsgs == x0.dMsgs
  {
    hide Shows;
    s, x := PacketLeaves(cfg, c, s0, x0, a, up);
    var m := Env(1, up);
    var y := x.(cMsgs := [], t := x.t.(cpc := CMsg(m)));
    s := HubReads(cfg, c, s, x, ByClientLoop(FromMsgs), y);
    var t1 := y.t.(cpc := CSend(m, c.d));
    s := HubThinks(cfg, c, s, y, ByClientLoop(Go(0)), t1);
    var t2 := t1.(cpc := CStamp(1, t1.now));
    s := HubSays(cfg, c, s, y.(t := t1), ByClientLoop(Go(0)), (t2, DataUp(c.d, m)));
    y := y.(t := t2, D := DestAfter(c.d, x.D, DataUp(c.d, m)));
    var t3 := t2.(clients := StampClient(t2.clients, 1, t2.now), cpc := CIdle);
    s := HubThinks(cfg, c, s, y, ByClientLoop(Go(t2.now)), t3);
    x := y.(t := t3);
  }

  /** And the destination sends it to the server. */
  lemma PacketArrives(cfg: Config, c: Cast, s0: State, x0: Scene, a: Addr, up: Bytes) returns (s: State, x: Scene)
    requires Shows(cfg, c, s0, x0) && Calm(c, x0, a) && InRelay(x0) && Roomy(cfg) && c.d in cfg.dests && c.d in cfg.udp
    ensures Shows(cfg, c, s, x) && Calm(c, x, a) && InRelay(x) && x.S.packets == x0.S.packets
    ensures SentTo(x.D.out, 1) == SentTo(x0.D.out, 1) + [Datagram(a, ClientMessage(up))]
    ensures x.S.inbox.got == x0.S.inbox.got + [up] && x.dMsgs == x0.dMsgs
  {
    hide Shows, SentTo, GotBy, For;
    s, x := PacketCrosses(cfg, c, s0, x0, a, up);
    assert x.D.msgs.queue == [Env(1, up)];
    var D1 := x.D.(msgs := Pull(x.D.msgs), pc := UMsg(Env(1, up)));
    s := UdpMove(cfg, c, s, x, TakeUp, D1);
    var dg := Env(1, Datagram(a, ClientMessage(up)));
    var D2 := D1.(pc := USend(dg));
    s := UdpMove(cfg, c, s, x.(D := D1), Act, D2);
    var D3 := D2.(out := Post(D2.out, dg), pc := UIdle);
    s := UdpMove(cfg, c, s, x.(D := D2), Act, D3);
    s := TransmitMove(cfg, c, s, x.(D := D3));
    x := x.(D := D3.(out := Pull(D3.out)));
  }

  /** One payload of the destination, as far as the router. */
  lemma PayloadCrosses(cfg: Config, c: Cast, s0: State, x0: Scene, a: Addr, down: Bytes) returns (s: State, x: Scene)
    requires Shows(cfg, c, s0, x0) && Calm(c, x0, a) && InRelay(x0) && Roomy(cfg) && c.router in cfg.clients
    ensures Shows(cfg, c, s, x) && Calm(c, x.(R := x0.R), a) && x.S == x0.S && x.D == x0.D
    ensures x.R == x0.R.(msgs := Post(x0.R.msgs, Env(1, down))) && x.dMsgs == Pull(Post(x0.dMsgs, Env(1, down)))
  {
    hide Shows;
    var m := Env(1, down);
    s := HearMove(cfg, c, s0, x0, HData(down));
    var heard := x0.(dMsgs := Post(x0.dMsgs, m));
    assert heard.dMsgs.queue == [m];
    var y := heard.(t := x0.t.(dpc := DMsg(m)), dMsgs := Pull(heard.dMsgs));
    s := HubReads(cfg, c, s, heard, ByDestLoop(FromMsgs), y);
    var t1 := y.t.(dpc := DSend(m, c.router));
    s := HubThinks(cfg, c, s, y, ByDestLoop(Go(0)), t1);
    var t2 := t1.(dpc := DStamp(1, t1.now));
    s := HubSays(cfg, c, s, y.(t := t1), ByDestLoop(Go(0)), (t2, DataDown(c.router, m)));
    y := y.(t := t2, R := RouterAfter(c.router, x0.R, DataDown(c.router, m)));
    var t3 := t2.(clients := StampDest(t2.clients, 1, t2.now), dpc := DIdle);
    s := HubThinks(cfg, c, s, y, ByDestLoop(Go(t2.now)), t3);
    x := y.(t := t3);
  }

  /** And on to the client. */
  lemma PayloadArrives(cfg: Config, c: Cast, s0: State, x0: Scene, a: Addr, down: Bytes) returns (s: State, x: Scene)
    requires Shows(cfg, c, s0, x0) && Calm(c, x0, a) && InRelay(x0) && Roomy(cfg) && c.router in cfg.clients
    ensures Shows(cfg, c, s, x) && Calm(c, x, a) && InRelay(x) && x.D == x0.D && x.S.inbox == x0.S.inbox
    ensures x.S.packets.got == x0.S.packets.got + [Data(down)]
    ensures SentTo(x.dMsgs, 1) == SentTo(x0.dMsgs, 1) + [down]
  {
    hide Shows;
    s, x := PayloadCrosses(cfg, c, s0, x0, a, down);
    assert x.R.msgs.queue == [Env(1, down)];
    var R := x.R.(msgs := Pull(x.R.msgs), pc := RMsg(Env(1, down)));
    var S1 := x.S.(outQ := x.S.outQ.Put(down));
    s := RouterMove(cfg, c, s, x, TakeMsg, R, S1);
    x := x.(R := R.(pc := RIdle), S := S1);
    assert S1.outQ.queue == [down];
    var S2 := S1.(outQ := S1.outQ.Take(), phase := Relaying(OutHeld(down), InIdle));
    s := SessionMove(cfg, c, s, x, OutTake, S2);
    var S3 := S2.(packets := S2.packets.Put(Data(down)), phase := Relaying(OutIdle, InIdle));
    s := SessionMove(cfg, c, s, x.(S := S2), OutSend, S3);
    assert S3.packets.queue == [Data(down)];
    s := TransportMove(cfg, c, s, x.(S := S3), Fetch, S3.(packets := S3.packets.Take()));
    x := x.(S := S3.(packets := S3.packets.Take()));
  }

  lemma {:induction false} AllArrive(cfg: Config, c: Cast, p: Script, ups: seq<Bytes>,
                                     downs: seq<Bytes>) returns (s: State, x: Scene)
    requires Playable(cfg, c, p)
    ensures Shows(cfg, c, s, x) && Calm(c, x, p.a) && InRelay(x)
    ensures x.S.inbox.got == [p.packet] + ups && Faced(x.S.packets.got) == Accepted(p.app, downs)
    ensures Talked(SentTo(x.D.out, 1)) == Opened(p.a, p.auth.app, ups) && SentTo(x.dMsgs, 1) == downs
    decreases |ups| + |downs|
  {
    hide Shows, Target, Routes, SentTo, GotBy, For, Talked, Faced, Calm;
    KnownUdp(cfg, c, p);
    if ups != [] {
      var before, up := ups[..|ups| - 1], ups[|ups| - 1];
      s, x := AllArrive(cfg, c, p, before, downs);
      TalkedMore(SentTo(x.D.out, 1), Datagram(p.a, ClientMessage(up)));
      s, x := PacketArrives(cfg, c, s, x, p.a, up);
      assert before + [up] == ups;
    } else if downs != [] {
      var before, down := downs[..|downs| - 1], downs[|downs| - 1];
      s, x := AllArrive(cfg, c, p, ups, before);
      FacedMore(x.S.packets.got, Data(down));
      s, x := PayloadArrives(cfg, c, s, x, p.a, down);
      assert before + [down] == downs;
    } else {
      s, x := IsAccepted(cfg, c, p);
      FirstWords(p);
      NoneSent<Bytes>(1);
      assert [p.packet] + ups == [p.packet];
    }
  }

  lemma FirstWords(p: Script)
    ensures Faced([Told(Verdict(true, p.app))]) == Accepted(p.app, [])
    ensures Talked(SentTo(Pull(Post(EmptyChan(), Env(1, Datagram(p.a, ConnectionRequest(p.auth.app))))), 1)) ==
      Opened(p.a, p.auth.app, [])
  {
    hide SentTo, GotBy, For;
    var dg := Datagram(p.a, ConnectionRequest(p.auth.app));
    NoneSent<Datagram>(1);
    FacedMore([], Told(Verdict(true, p.app)));
    TalkedMore([], dg);
    var nothing: seq<Datagram> := [];
    var silence: seq<Packet> := [];
    assert nothing + [dg] == [dg] && silence + [Told(Verdict(true, p.app))] == [Told(Verdict(true, p.app))];
    assert SentTo(Pull(Post(EmptyChan(), Env(1, dg))), 1) == nothing + [dg];
  }

  /**
   Every conversation can happen: whatever packets the client sends after its first and whatever payloads
   its destination sends, there is a run in which all of them arrive, in their order.
   */
  lemma EveryConversation(cfg: Config, c: Cast, p: Script, ups: seq<Bytes>, downs: seq<Bytes>) returns (s: State)
    requires Playable(cfg, c, p)
    ensures Reachable(cfg, s) && Pushed(s, 1) == [p.packet] + ups
    ensures Talked(Queued(s, c.d, 1)) == Opened(p.a, p.auth.app, ups)
    ensures AcceptedData(s, 1) == downs && Faced(Handed(s, 1)) == Accepted(p.app, downs)
  {
    hide Reachable, Target, Routes, SentTo, GotBy, For, Talked, Faced;
    var x: Scene;
    s, x := AllArrive(cfg, c, p, ups, downs);
    assert x.S.inbox.got + [] == x.S.inbox.got && x.S.packets.got + [] == x.S.packets.got;
  }

  // ---------------------------------------------------------------- an accept that comes too late

  /** The client hangs up while it waits for its verdict, and its session ends. */
  lemma GivesUp(cfg: Config, c: Cast, p: Script) returns (s: State, x: Scene)
    requires Playable(cfg, c, p)
    ensures Shows(cfg, c, s, x) && Calm(c, x, p.a) && x.S.phase.Stopped? && x.S.packets.Sent() == []
  {
    hide Shows, Routes, Target;
    s, x := IsRequested(cfg, c, p);
    var S1 := x.S.(clientClose := x.S.clientClose.Put(()));
    s := TransportMove(cfg, c, s, x, HangUp, S1);
    var S2 := S1.(clientClose := S1.clientClose.Take(), phase := Signalling);
    s := SessionMove(cfg, c, s, x.(S := S1), OnClientClose, S2);
    var S3 := S2.(proxyClose := S2.proxyClose.Put(()), phase := Stopped);
    s := SessionMove(cfg, c, s, x.(S := S2), Proceed, S3);
    x := x.(S := S3);
  }

  /**
   A client that hangs up while it waits for its verdict does not ask the hub for a close. If its destination
   accepts it afterwards, it stays in the table, answered and accepted, although it was shown nothing: only
   `Silence.NeverAcceptedIsReclaimed` sees to it that it leaves.
   */
  lemma AcceptedTooLate(cfg: Config, c: Cast, p: Script) returns (s: State)
    requires Playable(cfg, c, p)
    ensures Reachable(cfg, s) && 1 in s.t.clients && s.t.clients[1].connected
    ensures 1 in s.ses && s.ses[1].phase.Stopped? && Handed(s, 1) == [] && For(s.accepts, 1) != []
  {
    hide Routes, Target, Reachable;
    KnownUdp(cfg, c, p);
    var x: Scene;
    s, x := GivesUp(cfg, c, p);
    var v := Env(1, Verdict(true, p.app));
    s := HearMove(cfg, c, s, x, HVerdict(true, p.app));
    x := AfterHearing(x, HVerdict(true, p.app));
    var t1 := x.t.(dpc := DVerdict(v));
    s := HubReads(cfg, c, s, x, ByDestLoop(FromOpens), x.(t := t1, dVerdicts := []));
    x := x.(t := t1, dVerdicts := []);
    var t2 := t1.(dpc := DConnect(v, c.router));
    s := HubThinks(cfg, c, s, x, ByDestLoop(Go(0)), t2);
    var t3 := t2.(clients := Connect(t2.clients, 1), dpc := DTell(v, c.router));
    s := HubThinks(cfg, c, s, x.(t := t2), ByDestLoop(Go(0)), t3);
    LogFor(x.accepts[..|x.accepts| - 1], Env(1, p.app), 1);
  }

  // ---------------------------------------------------------------- a refusal

  lemma IsRefused(cfg: Config, c: Cast, p: Script) returns (s: State, x: Scene)
    requires Playable(cfg, c, p)
    ensures Shows(cfg, c, s, x) && x.S.packets.Sent() == [Told(Verdict(false, p.app))]
    ensures x.S.phase.Stopped? && x.S.proxyClose.queue == [()]
  {
    hide Routes, Target, Shows;
    s, x := VerdictGoes(cfg, c, p, false);
    var v := Verdict(false, p.app);
    assert x.R.verdicts.queue[0] == Env(1, v) && x.R.verdicts.queue[1..] == [];
    var R := x.R.(verdicts := Pull(x.R.verdicts), pc := RVerdict(Env(1, v)));
    var S := x.S.(verdictQ := x.S.verdictQ.Put(v));
    s := RouterMove(cfg, c, s, x, TakeVerdict, R, S);
    x := x.(R := R.(pc := RIdle), S := S);
    var S1 := S.(verdictQ := S.verdictQ.Take(), phase := Telling(v));
    s := SessionMove(cfg, c, s, x, Proceed, S1);
    var S2 := S1.(packets := S1.packets.Put(Told(v)), phase := Signalling);
    s := SessionMove(cfg, c, s, x.(S := S1), Proceed, S2);
    var S3 := S2.(proxyClose := S2.proxyClose.Put(()), phase := Stopped);
    s := SessionMove(cfg, c, s, x.(S := S2), Proceed, S3);
    x := x.(S := S3);
  }

  /**
   Every refusal can happen: with any such configuration and any application data, there is a run in which the
   destination refuses the client, the client is shown that very verdict, and its transport is told to close.
   */
  lemma EveryRefusal(cfg: Config, c: Cast, p: Script) returns (s: State)
    requires Playable(cfg, c, p)
    ensures Reachable(cfg, s) && Handed(s, 1) == [Told(Verdict(false, p.app))] && Faced(Handed(s, 1)).Refused?
    ensures 1 in s.ses && s.ses[1].phase.Stopped? && s.ses[1].proxyClose.queue == [()]
  {
    hide Routes, Target, Reachable;
    var x: Scene;
    s, x := IsRefused(cfg, c, p);
    var silence: seq<Packet> := [];
    FacedMore(silence, Told(Verdict(false, p.app)));
    assert silence + [Told(Verdict(false, p.app))] == [Told(Verdict(false, p.app))];
  }

  // ---------------------------------------------------------------- the end of a conversation

  /** The destination asks for a close, and the hub begins to kick the client. */
  lemma DestinationAsks(cfg: Config, c: Cast, s0: State, x0: Scene, a: Addr) returns (s: State)
    requires Shows(cfg, c, s0, x0) && Calm(c, x0, a) && Roomy(cfg)
    ensures Shows(cfg, c, s, x0.(t := x0.t.(dpc := DKick(TellClient(1, c.router, c.d)))))
  {
    hide Shows;
    s := HearMove(cfg, c, s0, x0, HClose);
    var t1 := x0.t.(dpc := DKick(LookClient(1)));
    s := HubReads(cfg, c, s, x0.(dCloses := [Env(1, ())]), ByDestLoop(FromCloses), x0.(t := t1));
    var t2 := t1.(dpc := DKick(LookDest(1, c.router)));
    s := HubThinks(cfg, c, s, x0.(t := t1), ByDestLoop(Go(0)), t2);
    s := HubThinks(cfg, c, s, x0.(t := t2), ByDestLoop(Go(0)), t1.(dpc := DKick(TellClient(1, c.router, c.d))));
  }

  /** It tells both sides and forgets the client. */
  lemma DestinationCloses(cfg: Config, c: Cast, s0: State, x0: Scene, a: Addr) returns (s: State, x: Scene)
    requires Shows(cfg, c, s0, x0) && Calm(c, x0, a) && Roomy(cfg) && ValidConfig(cfg)
    requires c.router in cfg.clients && c.d in cfg.dests
    ensures Shows(cfg, c, s, x) && 1 !in x.t.clients && x.S == x0.S
    ensures x.R == x0.R.(closes := Post(x0.R.closes, Env(1, ())))
    ensures x.D == x0.D.(closes := Post(x0.D.closes, Env(1, ())))
  {
    hide Shows;
    s := DestinationAsks(cfg, c, s0, x0, a);
    var t3 := x0.t.(dpc := DKick(TellClient(1, c.router, c.d)));
    var t4 := t3.(dpc := DKick(TellDest(1, c.d)));
    s := HubSays(cfg, c, s, x0.(t := t3), ByDestLoop(Go(0)), (t4, CloseDown(c.router, 1)));
    x := x0.(t := t4, R := x0.R.(closes := Post(x0.R.closes, Env(1, ()))));
    var t5 := t3.(dpc := DKick(Forget(1)));
    s := HubSays(cfg, c, s, x, ByDestLoop(Go(0)), (t5, CloseUp(c.d, 1)));
    x := x.(t := t5, D := x0.D.(closes := Post(x0.D.closes, Env(1, ()))));
    var t6 := Drop(t5, 1).(dpc := DIdle);
    s := HubThinks(cfg, c, s, x, ByDestLoop(Go(0)), t6);
    x := x.(t := t6);
  }

  /** The client's session hears of it and tells the transport. */
  lemma ClientIsTold(cfg: Config, c: Cast, s0: State, x0: Scene) returns (s: State, x: Scene)
    requires Shows(cfg, c, s0, x0) && InRelay(x0) && x0.R.pc.RIdle? && x0.R.closes.queue == [Env(1, ())]
    requires x0.R.links == map[1 := 1] && x0.S.closeReq.queue == []
    ensures Shows(cfg, c, s, x) && x.D == x0.D && x.t == x0.t && x.S.proxyClose.queue == [()]
    ensures x.S.packets == x0.S.packets && x.S.inbox == x0.S.inbox && x.dMsgs == x0.dMsgs
  {
    hide Shows;
    s, x := s0, x0;
    var R := x.R.(closes := Pull(x.R.closes), pc := RClose(1));
    var S := x.S.(closeReq := x.S.closeReq.Put(()));
    s := RouterMove(cfg, c, s, x, TakeClose, R, S);
    x := x.(R := R.(pc := RIdle), S := S);
    var S1 := S.(closeReq := S.closeReq.Take(), phase := Relaying(OutSignal, InIdle));
    s := SessionMove(cfg, c, s, x, OutClose, S1);
    var S2 := S1.(proxyClose := S1.proxyClose.Put(()), phase := Relaying(OutDone, InIdle));
    s := SessionMove(cfg, c, s, x.(S := S1), OutTell, S2);
    x := x.(S := S2);
  }

  /** And the destination's server is sent the close. */
  lemma ServerIsTold(cfg: Config, c: Cast, s0: State, x0: Scene, a: Addr) returns (s: State, x: Scene)
    requires Shows(cfg, c, s0, x0) && c.d in cfg.udp && Roomy(cfg) && x0.D.pc.UIdle?
    requires x0.D.closes.queue == [Env(1, ())]
    requires x0.D.reg == map[1 := a] && x0.D.out.queue == []
    ensures Shows(cfg, c, s, x) && x.S == x0.S && x.t == x0.t && x.dMsgs == x0.dMsgs && x.D.reg == map[]
    ensures SentTo(x.D.out, 1) == SentTo(x0.D.out, 1) + [Datagram(a, CloseConnection)]
  {
    hide Shows, SentTo, GotBy, For;
    var D1 := x0.D.(closes := Pull(x0.D.closes), pc := UClose(1));
    s := UdpMove(cfg, c, s0, x0, TakeEnd, D1);
    var D2 := D1.(pc := USendClose(1, a));
    s := UdpMove(cfg, c, s, x0.(D := D1), Act, D2);
    var D3 := D2.(out := Post(D2.out, Env(1, Datagram(a, CloseConnection))), pc := UDelete(1));
    s := UdpMove(cfg, c, s, x0.(D := D2), Act, D3);
    var D4 := D3.(reg := D3.reg - {1}, pc := UIdle);
    s := UdpMove(cfg, c, s, x0.(D := D3), Act, D4);
    x := x0.(D := D4);
  }

  /**
   Every conversation can end by its destination: after all the data has arrived the client leaves the table, its
   transport is told to close, and the conversation with the server is closed.
   */
  lemma EveryConversationEnds(cfg: Config, c: Cast, p: Script, ups: seq<Bytes>, downs: seq<Bytes>) returns (s: State)
    requires Playable(cfg, c, p)
    ensures Reachable(cfg, s) && 1 !in s.t.clients && 1 in s.ses && s.ses[1].proxyClose.queue == [()]
    ensures Talked(Queued(s, c.d, 1)) == Closed(p.a, p.auth.app, ups)
    ensures Faced(Handed(s, 1)) == Accepted(p.app, downs)
  {
    hide Target, SentTo, GotBy, For, Talked, Faced, FirstMatch;
    KnownUdp(cfg, c, p);
    var x: Scene;
    s, x := AllArrive(cfg, c, p, ups, downs);
    var before := SentTo(x.D.out, 1);
    s, x := DestinationCloses(cfg, c, s, x, p.a);
    s, x := ClientIsTold(cfg, c, s, x);
    s, x := ServerIsTold(cfg, c, s, x, p.a);
    TalkedMore(before, Datagram(p.a, CloseConnection));
    assert x.S.packets.got + [] == x.S.packets.got;
  }
}
