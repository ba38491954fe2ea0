/** The steps of the hub goroutines keep the client invariant. */
module HubProof {
  import opened Types
  import opened Channels
  import opened ClientTable
  import opened Machine
  import opened Frames
  import opened Grammar
  import opened TableSafety
  import opened ClientInvariant

  /** Data in flight towards the destination has an accepted, registered client behind it. */
  lemma Relayed(cfg: Config, s: State, k: nat)
    requires ClientInv(cfg, s, k) && SentTo(s.cMsgs, IdOf(k)) != []
    ensures For(s.accepts, IdOf(k)) != [] && Reached(s.dests, Get(s.t.routed, IdOf(k)), IdOf(k))
    ensures Get(s.t.routed, IdOf(k)).Some? && HasEntry(Ses(s, k).phase) && Get(s.t.routed, IdOf(k)).value in s.dests
  {
    hide RoutersOk, DestsOk, AllBacked, ClientPcOk, DestPcOk, Hop, Faced, SentTo, GotBy, For;
  }

  /** A session that has sent data relays. */
  lemma RelayedNow(cfg: Config, s: State, k: nat)
    requires ClientInv(cfg, s, k) && SentTo(s.cMsgs, IdOf(k)) != []
    ensures Ses(s, k).phase.Relaying?
  {
    hide HubOk, RoutersOk, DestsOk, AuthOk, FacingOk, AllBacked, Backed, Faced, SentTo, GotBy, For;
  }

  /** Data in flight towards the client has a registered client behind it. */
  lemma Answered(cfg: Config, s: State, k: nat)
    requires ClientInv(cfg, s, k) && SentTo(s.dMsgs, IdOf(k)) != []
    ensures Get(s.t.routed, IdOf(k)).Some? && HasEntry(Ses(s, k).phase)
  {
    hide RoutersOk, DestsOk, AllBacked, ClientPcOk, DestPcOk, Hop, Faced, SessionOk, SentTo, GotBy, For;
  }

  // ---------------------------------------------------------------- outputs

  /** A hub output reaches a destination's channels, of which the destination has read nothing new. */
  lemma DestAfterOk(u: UdpRules.UdpConfig, d: Name, D: Dest, o: Out, c: Id)
    requires DestOk(u, D, c)
    ensures DestOk(u, DestAfter(d, D, o), c)
  {
    hide Talked, SentData, Hop, UdpRules.Target, TalkOk, HeldByUdp;
  }

  lemma RouterClosesOk(n: Name, R: Router, o: Out, c: Id, k: nat, S: Session, accepts: seq<Bytes>)
    requires RouterOk(n, R, c, k, S, accepts) && !o.DataDown? && !o.VerdictDown?
    ensures RouterOk(n, RouterAfter(n, R, o), c, k, S, accepts)
    ensures SentTo(RouterAfter(n, R, o).msgs, c) == SentTo(R.msgs, c)
  {
    hide AllBacked, Backed, Hop, HeldByRouter, SentTo, GotBy, For;
  }

  /** The parts a hub step has to look at. */
  lemma HubView(cfg: Config, s: State, s': State, k: nat)
    requires ClientInv(cfg, s, k) && HubOk(s', k) && RoutersOk(s', k) && DestsOk(cfg, s', k)
    requires s'.ses == s.ses && s'.accepts == s.accepts
    requires SentTo(s'.cOpens, IdOf(k)) == SentTo(s.cOpens, IdOf(k))
    requires SentTo(s'.cMsgs, IdOf(k)) == SentTo(s.cMsgs, IdOf(k))
    ensures ClientInv(cfg, s', k)
  {
    hide HubOk, RoutersOk, DestsOk, SessionOk, SentTo, GotBy, For;
  }

  /** The routers after an output that carries neither data nor a verdict for them. */
  lemma RoutersAfter(s: State, o: Out, s': State, k: nat)
    requires RoutersOk(s, k) && !o.DataDown? && !o.VerdictDown?
    requires s'.ses == s.ses && s'.accepts == s.accepts && s'.routers.Keys == s.routers.Keys
    requires forall n :: n in s.routers ==> s'.routers[n] == RouterAfter(n, s.routers[n], o)
    ensures RoutersOk(s', k)
    ensures Returned(s'.routers, Ses(s, k).owner, IdOf(k)) == Returned(s.routers, Ses(s, k).owner, IdOf(k))
  {
    hide RouterOk, RouterAfter, SentTo, GotBy, For;
    forall n | n in s'.routers
      ensures RouterOk(n, s'.routers[n], IdOf(k), k, Ses(s', k), For(s'.accepts, IdOf(k)))
      ensures SentTo(s'.routers[n].msgs, IdOf(k)) == SentTo(s.routers[n].msgs, IdOf(k))
    {
      RouterClosesOk(n, s.routers[n], o, IdOf(k), k, Ses(s, k), For(s.accepts, IdOf(k)));
    }
  }

  /** The destinations after an output, given that the routing part still holds. */
  lemma DestsAfter(cfg: Config, s: State, o: Out, s': State, k: nat)
    requires DestsOk(cfg, s, k) && s'.dests.Keys == s.dests.Keys
    requires forall d :: d in s.dests ==> s'.dests[d] == DestAfter(d, s.dests[d], o)
    requires forall d :: d in s'.dests ==>
      RouteOk(d, s'.dests[d], IdOf(k), Get(s'.t.routed, IdOf(k)), SentTo(s'.cOpens, IdOf(k)), s'.t.cpc)
    ensures DestsOk(cfg, s', k)
  {
    hide DestOk, RouteOk, DestAfter, SentTo, GotBy, For;
    forall d | d in s'.dests ensures d in cfg.udp && DestOk(cfg.udp[d], s'.dests[d], IdOf(k)) {
      DestAfterOk(cfg.udp[d], d, s.dests[d], o, IdOf(k));
    }
  }

  /** Registrations are not touched by an output. */
  lemma ReachedAfter(s: State, o: Out, s': State, route: Option<Name>, c: Id)
    requires s'.dests.Keys == s.dests.Keys
    requires forall d :: d in s.dests ==> s'.dests[d] == DestAfter(d, s.dests[d], o)
    ensures Reached(s'.dests, route, c) == Reached(s.dests, route, c)
  {
  }

  /** The client's destination gets an output. */
  lemma ForwardedAfter(s: State, o: Out, s': State, route: Option<Name>, c: Id)
    requires s'.dests.Keys == s.dests.Keys
    requires forall d :: d in s.dests ==> s'.dests[d] == DestAfter(d, s.dests[d], o)
    ensures Forwarded(s'.dests, route, c) == Forwarded(s.dests, route, c)
      + if o.DataUp? && route == Some(o.dest) && o.dest in s.dests then One(o.up, c) else []
  {
  }

  // ---------------------------------------------------------------- client-side goroutine

  /** A hub step and the frame it comes with. */
  ghost predicate HubStepTo(s: State, t': Table, o: Out, s': State) {
    && s' == s.(t := t', dests := s'.dests, routers := s'.routers)
    && s'.dests.Keys == s.dests.Keys && s'.routers.Keys == s.routers.Keys
    && (forall d :: d in s.dests ==> s'.dests[d] == DestAfter(d, s.dests[d], o))
    && (forall n :: n in s.routers ==> s'.routers[n] == RouterAfter(n, s.routers[n], o))
  }

  /** A step of the client-side goroutine, seen from client `k`. */
  lemma ClientStepView(cfg: Config, s: State, t': Table, o: Out, s': State, k: nat)
    requires ClientInv(cfg, s, k) && HubStepTo(s, t', o, s')
    requires !o.DataDown? && !o.VerdictDown? && t'.dpc == s.t.dpc
    requires forall d :: d in s'.dests ==>
      RouteOk(d, s'.dests[d], IdOf(k), Get(t'.routed, IdOf(k)), SentTo(s.cOpens, IdOf(k)), t'.cpc)
    requires EntryOk(Ses(s, k), Get(t'.clients, IdOf(k)), Get(t'.routed, IdOf(k)), SentTo(s.cOpens, IdOf(k)))
    requires Gone(Ses(s, k), Get(s.t.clients, IdOf(k))) ==> Gone(Ses(s, k), Get(t'.clients, IdOf(k)))
    requires ClientPcOk(t'.cpc, IdOf(k), Get(t'.routed, IdOf(k)), SentTo(s.cOpens, IdOf(k)), For(s.accepts, IdOf(k)))
    requires UpHop(t'.cpc, IdOf(k), GotBy(s.cMsgs, IdOf(k)), Forwarded(s'.dests, Get(t'.routed, IdOf(k)), IdOf(k)),
                   Gone(Ses(s, k), Get(t'.clients, IdOf(k))))
    requires Reached(s.dests, Get(s.t.routed, IdOf(k)), IdOf(k)) ==> Reached(s'.dests, Get(t'.routed, IdOf(k)), IdOf(k))
    ensures ClientInv(cfg, s', k)
  {
    hide MySession, RouterAfter, DestAfter, EntryOk, ClientPcOk, DestPcOk, UpHop, HeldDown, AllBacked, Reached,
      Returned, Forwarded, RouteOk, DestOk, RouterOk, Gone, SentTo, GotBy, For;
    RoutersAfter(s, o, s', k);
    DestsAfter(cfg, s, o, s', k);
    HubView(cfg, s, s', k);
  }

  /** A step of the client-side goroutine that neither routes nor sends, seen from client `k`. */
  lemma ClientPcStep(cfg: Config, s: State, t': Table, o: Out, s': State, k: nat)
    requires ClientInv(cfg, s, k) && HubStepTo(s, t', o, s')
    requires o.Nothing? || o.CloseUp? || o.CloseDown?
    requires t'.dpc == s.t.dpc && Get(t'.routed, IdOf(k)) == Get(s.t.routed, IdOf(k))
    requires !(s.t.cpc.CForward? && s.t.cpc.o.id == IdOf(k)) && !(t'.cpc.CForward? && t'.cpc.o.id == IdOf(k))
    requires EntryOk(Ses(s, k), Get(t'.clients, IdOf(k)), Get(s.t.routed, IdOf(k)), SentTo(s.cOpens, IdOf(k)))
    requires Gone(Ses(s, k), Get(s.t.clients, IdOf(k))) ==> Gone(Ses(s, k), Get(t'.clients, IdOf(k)))
    requires ClientPcOk(t'.cpc, IdOf(k), Get(s.t.routed, IdOf(k)), SentTo(s.cOpens, IdOf(k)), For(s.accepts, IdOf(k)))
    requires UpHop(t'.cpc, IdOf(k), GotBy(s.cMsgs, IdOf(k)), Forwarded(s.dests, Get(s.t.routed, IdOf(k)), IdOf(k)),
                   Gone(Ses(s, k), Get(t'.clients, IdOf(k))))
    ensures ClientInv(cfg, s', k)
  {
    hide MySession, HubOk, RoutersOk, RouterAfter, DestAfter, EntryOk, ClientPcOk, UpHop, Reached, Forwarded, DestOk,
      Gone, RouteOk, SentTo, GotBy, For;
    var c, route := IdOf(k), Get(s.t.routed, IdOf(k));
    ForwardedAfter(s, o, s', route, c);
    assert Forwarded(s'.dests, route, c) == Forwarded(s.dests, route, c);
    ReachedAfter(s, o, s', route, c);
    forall d | d in s'.dests ensures RouteOk(d, s'.dests[d], c, route, SentTo(s.cOpens, c), s'.t.cpc) {
      RouteSame(d, s.dests[d], o, c, route, SentTo(s.cOpens, c), s.t.cpc, s'.t.cpc);
    }
    ClientStepView(cfg, s, t', o, s', k);
  }

  lemma RouteSame(d: Name, D: Dest, o: Out, c: Id, route: Option<Name>, opens: seq<Auth>, p: ClientPc, p': ClientPc)
    requires RouteOk(d, D, c, route, opens, p) && !o.DataUp? && !o.OpenUp?
    requires !(p.CForward? && p.o.id == c) && !(p'.CForward? && p'.o.id == c)
    ensures RouteOk(d, DestAfter(d, D, o), c, route, opens, p')
  {
  }

  /** Taking a message for the client off the hub's list: it is sent on, or the client has left for good. */
  lemma LookUpOk(cfg: Config, s: State, k: nat)
    requires ValidConfig(cfg) && DestsWired(cfg, s.dests) && ClientInv(cfg, s, k)
    requires s.t.cpc.CMsg? && s.t.cpc.m.id == IdOf(k)
    ensures var c, e, route := IdOf(k), Get(s.t.clients, IdOf(k)), Get(s.t.routed, IdOf(k));
      if e.Some? && e.value.dest in cfg.dests then
        route == Some(e.value.dest)
        && UpHop(CSend(s.t.cpc.m, e.value.dest), c, GotBy(s.cMsgs, c), Forwarded(s.dests, route, c), Gone(Ses(s, k), e))
      else
        UpHop(CIdle, c, GotBy(s.cMsgs, c), Forwarded(s.dests, route, c), Gone(Ses(s, k), e))
  {
    hide MySession, RoutersOk, DestsOk, AllBacked, ClientPcOk, DestPcOk, DownHop, Forwarded, Reached, SentTo, GotBy,
      For;
    var c, e, route := IdOf(k), Get(s.t.clients, IdOf(k)), Get(s.t.routed, IdOf(k));
    GotIsPrefix(s.cMsgs, c);
    if GotBy(s.cMsgs, c) != [] {
      Relayed(cfg, s, k);
    }
  }

  lemma ClientMsgStep(cfg: Config, s: State, t': Table, o: Out, s': State, k: nat)
    requires ValidConfig(cfg) && DestsWired(cfg, s.dests) && ClientInv(cfg, s, k) && HubStepTo(s, t', o, s')
    requires s.t.cpc.CMsg? && ClientGo(cfg, s.t, 0) == Some((t', o))
    ensures ClientInv(cfg, s', k)
  {
    hide MySession, RoutersOk, DestsOk, AllBacked, DestPcOk, DownHop, Forwarded, Reached, HubStepTo, EntryOk, Hop,
      SentTo, GotBy, For;
    if s.t.cpc.m.id == IdOf(k) {
      LookUpOk(cfg, s, k);
    }
    ClientPcStep(cfg, s, t', o, s', k);
  }

  lemma ClientSendStep(cfg: Config, s: State, t': Table, o: Out, s': State, k: nat)
    requires ClientInv(cfg, s, k) && HubStepTo(s, t', o, s')
    requires s.t.cpc.CSend? && ClientGo(cfg, s.t, 0) == Some((t', o))
    requires s.t.cpc.dn in s.dests
    ensures ClientInv(cfg, s', k)
  {
    hide MySession, RoutersOk, RouterAfter, DestAfter, EntryOk, DestPcOk, DownHop, AllBacked, Reached, Returned,
      Forwarded, DestOk, Gone, RouteOk, SentTo, GotBy, For;
    var c, route, m := IdOf(k), Get(s.t.routed, IdOf(k)), s.t.cpc.m;
    ForwardedAfter(s, o, s', route, c);
    ReachedAfter(s, o, s', route, c);
    forall d | d in s'.dests ensures RouteOk(d, s'.dests[d], c, route, SentTo(s.cOpens, c), s'.t.cpc) {
      RouteSend(d, s.dests[d], m, s.t.cpc.dn, c, route, SentTo(s.cOpens, c), s.t.cpc, s'.t.cpc);
    }
    if m.id == c {
      GotIsPrefix(s.cMsgs, c);
      Relayed(cfg, s, k);
    }
    ClientStepView(cfg, s, t', o, s', k);
  }

  lemma RouteSend(d: Name, D: Dest, m: Env<Bytes>, dn: Name, c: Id, route: Option<Name>, opens: seq<Auth>,
                  p: ClientPc, p': ClientPc)
    requires RouteOk(d, D, c, route, opens, p) && (m.id == c ==> route == Some(dn))
    requires !p.CForward? && !p'.CForward?
    ensures RouteOk(d, DestAfter(d, D, DataUp(dn, m)), c, route, opens, p')
  {
  }

  lemma ClientStampStep(cfg: Config, s: State, time: int, t': Table, o: Out, s': State, k: nat)
    requires ClientInv(cfg, s, k) && HubStepTo(s, t', o, s')
    requires s.t.cpc.CStamp? && ClientGo(cfg, s.t, time) == Some((t', o))
    ensures ClientInv(cfg, s', k)
  {
    hide MySession, RoutersOk, DestsOk, AllBacked, DestPcOk, DownHop, Forwarded, Reached, HubStepTo, Hop, SentTo,
      GotBy, For;
    ClientPcStep(cfg, s, t', o, s', k);
  }

  lemma ClientOpenStep(cfg: Config, s: State, t': Table, o: Out, s': State, k: nat)
    requires ClientInv(cfg, s, k) && HubStepTo(s, t', o, s')
    requires s.t.cpc.COpen? && ClientGo(cfg, s.t, 0) == Some((t', o))
    ensures ClientInv(cfg, s', k)
  {
    hide MySession, RoutersOk, DestsOk, AllBacked, DestPcOk, DownHop, Forwarded, Reached, HubStepTo, Hop, SentTo,
      GotBy, For;
    ClientPcStep(cfg, s, t', o, s', k);
  }

  lemma ClientKickStep(cfg: Config, s: State, t': Table, o: Out, s': State, k: nat)
    requires ClientInv(cfg, s, k) && HubStepTo(s, t', o, s')
    requires s.t.cpc.CKick? && ClientGo(cfg, s.t, 0) == Some((t', o))
    ensures ClientInv(cfg, s', k)
  {
    hide MySession, RoutersOk, DestsOk, AllBacked, DestPcOk, DownHop, Forwarded, Reached, HubStepTo, SentTo, GotBy,
      For;
    ClientPcStep(cfg, s, t', o, s', k);
  }

  /** Routing the client: from now on its entry, its history and the hub's one open command agree. */
  lemma AssignStep(cfg: Config, s: State, t': Table, o: Out, s': State, k: nat)
    requires ValidConfig(cfg) && DestsWired(cfg, s.dests) && ClientInv(cfg, s, k) && HubStepTo(s, t', o, s')
    requires s.t.cpc.CAssign? && ClientGo(cfg, s.t, 0) == Some((t', o))
    ensures ClientInv(cfg, s', k)
  {
    hide MySession, RoutersOk, DestsOk, HubStepTo, AllBacked, DestPcOk, DownHop, Returned, Forwarded, Reached,
      FirstMatch, Hop, EntryOk, Gone, SentTo, GotBy, For;
    var c, route, x := IdOf(k), Get(s.t.routed, IdOf(k)), s.t.cpc.o;
    FirstMatchIn(cfg.dests, cfg.matches, x.body.conn);
    if x.id != c || t'.cpc.CKick? {
      ClientPcStep(cfg, s, t', o, s', k);
    } else {
      AssignHere(cfg, s, t', o, s', k);
    }
  }

  lemma AssignHere(cfg: Config, s: State, t': Table, o: Out, s': State, k: nat)
    requires ValidConfig(cfg) && DestsWired(cfg, s.dests) && ClientInv(cfg, s, k) && HubStepTo(s, t', o, s')
    requires s.t.cpc.CAssign? && s.t.cpc.o.id == IdOf(k) && o.Nothing? && IdOf(k) in s.t.clients
    requires t'.cpc.CForward? && t'.cpc.o == s.t.cpc.o && t'.cpc.dn in cfg.dests
    requires t' == s.t.(clients := SetDest(s.t.clients, IdOf(k), t'.cpc.dn), routed := s.t.routed[IdOf(k) := t'.cpc.dn],
                        cpc := t'.cpc)
    ensures ClientInv(cfg, s', k)
  {
    hide ClientInv, RouterAfter, DestAfter, RouteOk, EntryOk, ClientPcOk, UpHop, Gone, SentTo, GotBy, For;
    var c, dn := IdOf(k), t'.cpc.dn;
    AssignFacts(cfg, s, t', o, s', k);
    assert Get(t'.routed, c) == Some(dn);
    AssignEntry(Ses(s, k), Get(s.t.clients, c), Get(t'.clients, c), dn, SentTo(s.cOpens, c));
    AssignPc(s.t.cpc, t'.cpc, c, SentTo(s.cOpens, c), For(s.accepts, c));
    AssignHop(s.t.cpc, t'.cpc, c, GotBy(s.cMsgs, c), Gone(Ses(s, k), Get(s.t.clients, c)));
    AssignStays(Ses(s, k), Get(s.t.clients, c), Get(t'.clients, c));
    ClientStepView(cfg, s, t', o, s', k);
  }

  /** What is known about a client about to be routed: nothing was sent to any destination for it. */
  lemma AssignFacts(cfg: Config, s: State, t': Table, o: Out, s': State, k: nat)
    requires ClientInv(cfg, s, k) && HubStepTo(s, t', o, s') && o.Nothing?
    requires s.t.cpc.CAssign? && s.t.cpc.o.id == IdOf(k) && t'.cpc.CForward? && t'.cpc.o.id == IdOf(k)
    ensures Linked(Ses(s, k).phase) && SentTo(s.cOpens, IdOf(k)) != [] && Get(s.t.routed, IdOf(k)) == None
    ensures EntryOk(Ses(s, k), Get(s.t.clients, IdOf(k)), None, SentTo(s.cOpens, IdOf(k)))
    ensures ClientPcOk(s.t.cpc, IdOf(k), None, SentTo(s.cOpens, IdOf(k)), For(s.accepts, IdOf(k)))
    ensures UpHop(s.t.cpc, IdOf(k), GotBy(s.cMsgs, IdOf(k)), [], Gone(Ses(s, k), Get(s.t.clients, IdOf(k))))
    ensures !Reached(s.dests, None, IdOf(k)) && Forwarded(s'.dests, Some(t'.cpc.dn), IdOf(k)) == []
    ensures forall d :: d in s'.dests ==>
      RouteOk(d, s'.dests[d], IdOf(k), Some(t'.cpc.dn), SentTo(s.cOpens, IdOf(k)), t'.cpc)
  {
    hide MySession, RoutersOk, RouterAfter, DestAfter, DestOk, AllBacked, DestPcOk, DownHop, EntryOk, UpHop, RouteOk,
      SentTo, GotBy, For;
    AlreadyLinked(cfg, s, k);
    forall d | d in s'.dests
      ensures RouteOk(d, s'.dests[d], IdOf(k), Some(t'.cpc.dn), SentTo(s.cOpens, IdOf(k)), t'.cpc)
      ensures SentTo(s'.dests[d].msgs, IdOf(k)) == []
    {
      RouteAssign(d, s.dests[d], o, IdOf(k), t'.cpc.dn, SentTo(s.cOpens, IdOf(k)), s.t.cpc, t'.cpc);
    }
  }

  lemma AssignPc(p: ClientPc, p': ClientPc, c: Id, opens: seq<Auth>, accepts: seq<Bytes>)
    requires ClientPcOk(p, c, None, opens, accepts) && p.CAssign? && p.o.id == c && p'.CForward? && p'.o == p.o
    ensures ClientPcOk(p', c, Some(p'.dn), opens, accepts)
  {
  }

  lemma AssignHop(p: ClientPc, p': ClientPc, c: Id, taken: seq<Bytes>, gone: bool)
    requires UpHop(p, c, taken, [], gone) && p.CAssign? && p'.CForward?
    ensures UpHop(p', c, taken, [], gone)
  {
  }

  lemma AssignStays(S: Session, e: Option<Meta>, e': Option<Meta>)
    requires e.Some? == e'.Some?
    ensures Gone(S, e) == Gone(S, e')
  {
  }

  lemma AssignEntry(S: Session, e: Option<Meta>, e': Option<Meta>, dn: Name, opens: seq<Auth>)
    requires EntryOk(S, e, None, opens) && e.Some? && e' == Some(e.value.(dest := dn))
    requires Linked(S.phase) && opens != [] && dn != ""
    ensures EntryOk(S, e', Some(dn), opens)
  {
  }

  lemma RouteAssign(d: Name, D: Dest, o: Out, c: Id, dn: Name, opens: seq<Auth>, p: ClientPc, p': ClientPc)
    requires RouteOk(d, D, c, None, opens, p) && o.Nothing? && p'.CForward? && p'.o.id == c
    ensures RouteOk(d, DestAfter(d, D, o), c, Some(dn), opens, p') && SentTo(DestAfter(d, D, o).msgs, c) == []
  {
  }

  /** A client whose open command exists has been handed to its transport. */
  lemma AlreadyLinked(cfg: Config, s: State, k: nat)
    requires ClientInv(cfg, s, k) && SentTo(s.cOpens, IdOf(k)) != []
    ensures Linked(Ses(s, k).phase)
  {
    hide HubOk, RoutersOk, DestsOk, Faced, AllBacked, UpOk, FacingOk, Backed, SentTo, GotBy, For;
  }

  lemma ForwardStep(cfg: Config, s: State, t': Table, o: Out, s': State, k: nat)
    requires ClientInv(cfg, s, k) && HubStepTo(s, t', o, s')
    requires s.t.cpc.CForward? && ClientGo(cfg, s.t, 0) == Some((t', o))
    ensures ClientInv(cfg, s', k)
  {
    hide MySession, RoutersOk, RouterAfter, DestAfter, EntryOk, DestPcOk, DownHop, AllBacked, Reached, Returned,
      Forwarded, DestOk, Gone, Hop, RouteOk, SentTo, GotBy, For;
    var c, route, x := IdOf(k), Get(s.t.routed, IdOf(k)), s.t.cpc.o;
    ForwardedAfter(s, o, s', route, c);
    assert Forwarded(s'.dests, route, c) == Forwarded(s.dests, route, c);
    ReachedAfter(s, o, s', route, c);
    forall d | d in s'.dests ensures RouteOk(d, s'.dests[d], c, route, SentTo(s.cOpens, c), s'.t.cpc) {
      RouteForward(d, s.dests[d], c, route, SentTo(s.cOpens, c), s.t.cpc);
    }
    ClientStepView(cfg, s, t', o, s', k);
  }

  lemma RouteForward(d: Name, D: Dest, c: Id, route: Option<Name>, opens: seq<Auth>, p: ClientPc)
    requires p.CForward? && RouteOk(d, D, c, route, opens, p)
    requires p.o.id == c ==> route == Some(p.dn) && opens == [p.o.body]
    ensures RouteOk(d, DestAfter(d, D, OpenUp(p.dn, p.o)), c, route, opens, CIdle)
  {
  }

  lemma ClientGoKeeps(cfg: Config, s: State, time: int, s': State, k: nat)
    requires ValidConfig(cfg) && TableInv(cfg, s) && ClientInv(cfg, s, k)
    requires HubGo(cfg, s, ClientGo(cfg, s.t, time)) == Some(s')
    ensures ClientInv(cfg, s', k)
  {
    hide ClientInv, Fits, Sends, DestAfter, RouterAfter, KickStep, Assign, StampClient, RoutersWired, DestsWired,
      SessionsWired, Books, Names, Times, Ages;
    HubSends(cfg, s, ClientGo(cfg, s.t, time), s');
    var (t', o) := ClientGo(cfg, s.t, time).value;
    match s.t.cpc
    case CMsg(_) => ClientMsgStep(cfg, s, t', o, s', k);
    case CSend(_, dn) => DestKnown(cfg, s, dn); ClientSendStep(cfg, s, t', o, s', k);
    case CStamp(_, _) => ClientStampStep(cfg, s, time, t', o, s', k);
    case COpen(_) => ClientOpenStep(cfg, s, t', o, s', k);
    case CAssign(_) => AssignStep(cfg, s, t', o, s', k);
    case CForward(_, _) => ForwardStep(cfg, s, t', o, s', k);
    case CKick(_) => ClientKickStep(cfg, s, t', o, s', k);
  }

  lemma DestKnown(cfg: Config, s: State, d: Name)
    requires DestsWired(cfg, s.dests) && d in cfg.dests
    ensures d in s.dests
  {
  }

  // ---------------------------------------------------------------- reading the hub's channels

  lemma ClientIdleKeeps(cfg: Config, s: State, st: LoopStep, s': State, k: nat)
    requires ClientInv(cfg, s, k) && s.t.cpc.CIdle? && ClientIdle(s, st) == Some(s')
    ensures ClientInv(cfg, s', k)
  {
    hide MySession, HubOk, RoutersOk, DestsOk, SentTo, GotBy, For;
    var c := IdOf(k);
    if st.FromOpens? && s.cOpens.queue[0].id == c {
      HeadOf(s.cOpens, c);
      OneOpen(cfg, s, k);
    }
    ClientReads(cfg, s, s', k);
  }

  lemma OneOpen(cfg: Config, s: State, k: nat)
    requires MySession(cfg, s, k)
    ensures |SentTo(s.cOpens, IdOf(k))| <= 1
  {
    hide UpOk, FacingOk, Faced, AllBacked, Backed, SentTo, GotBy, For;
  }

  lemma ClientReads(cfg: Config, s: State, s': State, k: nat)
    requires ClientInv(cfg, s, k) && s.t.cpc.CIdle?
    requires s' == s.(t := s.t.(cpc := s'.t.cpc), cMsgs := s'.cMsgs, cOpens := s'.cOpens, cCloses := s'.cCloses)
    requires SentTo(s'.cMsgs, IdOf(k)) == SentTo(s.cMsgs, IdOf(k))
    requires SentTo(s'.cOpens, IdOf(k)) == SentTo(s.cOpens, IdOf(k))
    requires s'.t.cpc.CMsg? || s'.t.cpc.COpen? || s'.t.cpc.CKick? || s'.t.cpc.CExit?
    requires s'.t.cpc.COpen? && s'.t.cpc.o.id == IdOf(k) ==> SentTo(s.cOpens, IdOf(k)) == [s'.t.cpc.o.body]
    requires GotBy(s'.cMsgs, IdOf(k)) ==
      GotBy(s.cMsgs, IdOf(k)) + if s'.t.cpc.CMsg? then One(s'.t.cpc.m, IdOf(k)) else []
    ensures ClientInv(cfg, s', k)
  {
    hide SessionOk, RouterOk, EntryOk, DestPcOk, UpHop, DownHop, AllBacked, Reached, Returned, Forwarded, DestOk,
      Gone, RouteOk, SentTo, GotBy, For;
    UpTake(s.t.cpc, s'.t.cpc, IdOf(k), GotBy(s.cMsgs, IdOf(k)), Forwarded(s.dests, Get(s.t.routed, IdOf(k)), IdOf(k)),
           Gone(Ses(s, k), Get(s.t.clients, IdOf(k))));
    forall d | d in s'.dests
      ensures RouteOk(d, s'.dests[d], IdOf(k), Get(s'.t.routed, IdOf(k)), SentTo(s'.cOpens, IdOf(k)), s'.t.cpc)
    {
      RouteIdle(d, s.dests[d], IdOf(k), Get(s.t.routed, IdOf(k)), SentTo(s.cOpens, IdOf(k)), s.t.cpc, s'.t.cpc);
    }
  }

  lemma UpTake(p: ClientPc, p': ClientPc, c: Id, taken: seq<Bytes>, out: seq<Bytes>, gone: bool)
    requires UpHop(p, c, taken, out, gone) && p.CIdle? && !p'.CSend?
    ensures UpHop(p', c, taken + (if p'.CMsg? then One(p'.m, c) else []), out, gone)
  {
    assert out + [] == out && taken + [] == taken;
  }

  lemma DownTake(p: DestPc, p': DestPc, c: Id, taken: seq<Bytes>, out: seq<Bytes>, gone: bool)
    requires DownHop(p, c, taken, out, gone) && p.DIdle? && !p'.DSend?
    ensures DownHop(p', c, taken + (if p'.DMsg? then One(p'.m, c) else []), out, gone)
  {
    assert out + [] == out && taken + [] == taken;
  }

  lemma RouteIdle(d: Name, D: Dest, c: Id, route: Option<Name>, opens: seq<Auth>, p: ClientPc, p': ClientPc)
    requires RouteOk(d, D, c, route, opens, p) && !p.CForward? && !p'.CForward?
    ensures RouteOk(d, D, c, route, opens, p')
  {
  }

  lemma DestIdleKeeps(cfg: Config, s: State, st: LoopStep, s': State, k: nat)
    requires ClientInv(cfg, s, k) && s.t.dpc.DIdle? && DestIdle(s, st) == Some(s')
    ensures ClientInv(cfg, s', k)
  {
    hide MySession, RoutersOk, DestsOk, EntryOk, ClientPcOk, DestPcOk, UpHop, DownHop, Reached, Gone, Backed, SentTo,
      GotBy, For;
    var c := IdOf(k);
    if st.FromOpens? && s.dVerdicts.queue[0].id == c {
      HeadOf(s.dVerdicts, c);
    }
    DestReads(cfg, s, s', k);
  }

  lemma DestReads(cfg: Config, s: State, s': State, k: nat)
    requires ClientInv(cfg, s, k) && s.t.dpc.DIdle?
    requires s' == s.(t := s.t.(dpc := s'.t.dpc), dMsgs := s'.dMsgs, dVerdicts := s'.dVerdicts, dCloses := s'.dCloses)
    requires SentTo(s'.dMsgs, IdOf(k)) == SentTo(s.dMsgs, IdOf(k))
    requires SentTo(s'.dVerdicts, IdOf(k)) == SentTo(s.dVerdicts, IdOf(k))
    requires s'.t.dpc.DMsg? || s'.t.dpc.DVerdict? || s'.t.dpc.DKick? || s'.t.dpc.DExit?
    requires s'.t.dpc.DVerdict? && s'.t.dpc.v.id == IdOf(k) ==> Backed(s'.t.dpc.v.body, For(s.accepts, IdOf(k)))
    requires GotBy(s'.dMsgs, IdOf(k)) ==
      GotBy(s.dMsgs, IdOf(k)) + if s'.t.dpc.DMsg? then One(s'.t.dpc.m, IdOf(k)) else []
    ensures ClientInv(cfg, s', k)
  {
    hide SessionOk, RouterOk, EntryOk, ClientPcOk, UpHop, DownHop, AllBacked, Reached, Returned, Forwarded, DestOk,
      Gone, RouteOk, Backed, SentTo, GotBy, For;
    DownTake(s.t.dpc, s'.t.dpc, IdOf(k), GotBy(s.dMsgs, IdOf(k)), Returned(s.routers, Ses(s, k).owner, IdOf(k)),
             Gone(Ses(s, k), Get(s.t.clients, IdOf(k))));
  }

  // ---------------------------------------------------------------- destination-side goroutine

  /** A hub step that leaves the client-side goroutine and the routing of client `k` alone. */
  lemma OtherHubStep(cfg: Config, s: State, t': Table, o: Out, s': State, k: nat)
    requires ClientInv(cfg, s, k) && HubStepTo(s, t', o, s') && RoutersOk(s', k) && !o.DataUp? && !o.OpenUp?
    requires t'.cpc == s.t.cpc && t'.routed == s.t.routed
    requires EntryOk(Ses(s, k), Get(t'.clients, IdOf(k)), Get(s.t.routed, IdOf(k)), SentTo(s.cOpens, IdOf(k)))
    requires Gone(Ses(s, k), Get(s.t.clients, IdOf(k))) ==> Gone(Ses(s, k), Get(t'.clients, IdOf(k)))
    requires DestPcOk(t'.dpc, IdOf(k), Ses(s, k).owner, For(s.accepts, IdOf(k)))
    requires DownHop(t'.dpc, IdOf(k), GotBy(s.dMsgs, IdOf(k)), Returned(s'.routers, Ses(s, k).owner, IdOf(k)),
                     Gone(Ses(s, k), Get(t'.clients, IdOf(k))))
    ensures ClientInv(cfg, s', k)
  {
    hide MySession, RoutersOk, RouterAfter, DestAfter, EntryOk, ClientPcOk, DestPcOk, DownHop, HeldUp, AllBacked,
      Reached, Returned, Forwarded, DestOk, Gone, RouteOk;
    var c, route := IdOf(k), Get(s.t.routed, IdOf(k));
    ForwardedAfter(s, o, s', route, c);
    assert Forwarded(s'.dests, route, c) == Forwarded(s.dests, route, c);
    ReachedAfter(s, o, s', route, c);
    forall d | d in s'.dests ensures RouteOk(d, s'.dests[d], c, route, SentTo(s.cOpens, c), s'.t.cpc) {
      RouteStays(d, s.dests[d], o, c, route, SentTo(s.cOpens, c), s.t.cpc);
    }
    DestsAfter(cfg, s, o, s', k);
    HubView(cfg, s, s', k);
  }

  lemma RouteStays(d: Name, D: Dest, o: Out, c: Id, route: Option<Name>, opens: seq<Auth>, p: ClientPc)
    requires RouteOk(d, D, c, route, opens, p) && !o.DataUp? && !o.OpenUp?
    ensures RouteOk(d, DestAfter(d, D, o), c, route, opens, p)
  {
  }

  /** A hub step that at most removes clients and sends closes. */
  lemma KickView(cfg: Config, s: State, t': Table, o: Out, s': State, k: nat)
    requires ClientInv(cfg, s, k) && HubStepTo(s, t', o, s')
    requires o.Nothing? || o.CloseUp? || o.CloseDown?
    requires t'.cpc == s.t.cpc && t'.routed == s.t.routed
    requires Get(t'.clients, IdOf(k)) == Get(s.t.clients, IdOf(k)) || Get(t'.clients, IdOf(k)).None?
    requires DestPcOk(t'.dpc, IdOf(k), Ses(s, k).owner, For(s.accepts, IdOf(k)))
    requires HeldDown(t'.dpc, IdOf(k)) == HeldDown(s.t.dpc, IdOf(k))
    requires t'.dpc == s.t.dpc || !t'.dpc.DSend?
    ensures ClientInv(cfg, s', k)
  {
    hide MySession, RouterAfter, DestAfter, ClientPcOk, DestPcOk, HeldUp, AllBacked, Reached, Returned, Forwarded,
      DestOk, RouteOk, HubStepTo, RouterOk, UpHop, SentTo, GotBy, For;
    var owner := Ses(s, k).owner;
    assert RoutersOk(s', k) && Returned(s'.routers, owner, IdOf(k)) == Returned(s.routers, owner, IdOf(k)) by {
      StepRouters(s, t', o, s', k);
    }
    OtherHubStep(cfg, s, t', o, s', k);
  }

  lemma StepRouters(s: State, t': Table, o: Out, s': State, k: nat)
    requires RoutersOk(s, k) && HubStepTo(s, t', o, s') && !o.DataDown? && !o.VerdictDown?
    ensures RoutersOk(s', k)
    ensures Returned(s'.routers, Ses(s, k).owner, IdOf(k)) == Returned(s.routers, Ses(s, k).owner, IdOf(k))
  {
    hide RouterOk, RouterAfter, DestAfter, SentTo, GotBy, For;
    RoutersAfter(s, o, s', k);
  }

  /** Taking data for the client off the destination's list: it is sent on, or the client has left for good. */
  lemma DestMsgStep(cfg: Config, s: State, t': Table, o: Out, s': State, k: nat)
    requires Names(cfg, s.t.clients) && ClientInv(cfg, s, k) && HubStepTo(s, t', o, s')
    requires s.t.dpc.DMsg? && DestGo(cfg, s.t, 0) == Some((t', o))
    ensures ClientInv(cfg, s', k)
  {
    hide MySession, RoutersOk, DestsOk, AllBacked, ClientPcOk, UpHop, Forwarded, Reached, HubStepTo, Returned,
      SentTo, GotBy, For;
    var c, e := IdOf(k), Get(s.t.clients, IdOf(k));
    StepRouters(s, t', o, s', k);
    if s.t.dpc.m.id == c {
      GotIsPrefix(s.dMsgs, c);
      if GotBy(s.dMsgs, c) != [] {
        Answered(cfg, s, k);
      }
      if e.Some? {
        assert NamesOf(cfg, s.t.clients[c]);
      }
    }
    OtherHubStep(cfg, s, t', o, s', k);
  }

  lemma DestSendStep(cfg: Config, s: State, t': Table, o: Out, s': State, k: nat)
    requires ClientInv(cfg, s, k) && HubStepTo(s, t', o, s')
    requires s.t.dpc.DSend? && DestGo(cfg, s.t, 0) == Some((t', o)) && s.t.dpc.cn in s.routers
    ensures ClientInv(cfg, s', k)
  {
    hide MySession, DestsOk, AllBacked, ClientPcOk, UpHop, DownHop, Forwarded, Reached, RouterOk, RouterAfter,
      DestAfter, EntryOk, Gone, Returned, RoutersOk, HubStepTo, SentTo, GotBy, For;
    var c, S, m, cn := IdOf(k), Ses(s, k), s.t.dpc.m, s.t.dpc.cn;
    RoutersGet(s, cn, m, t', s', k);
    DownSend(s.t.dpc, c, GotBy(s.dMsgs, c), Returned(s.routers, S.owner, c), Gone(S, Get(s.t.clients, c)), s.t.now);
    OtherHubStep(cfg, s, t', o, s', k);
  }

  lemma DownSend(p: DestPc, c: Id, taken: seq<Bytes>, out: seq<Bytes>, gone: bool, now: int)
    requires p.DSend? && DownHop(p, c, taken, out, gone)
    ensures DownHop(DStamp(p.m.id, now), c, taken, out + One(p.m, c), gone)
  {
    assert out + [] == out;
  }

  lemma RoutersGet(s: State, cn: Name, m: Env<Bytes>, t': Table, s': State, k: nat)
    requires RoutersOk(s, k) && HubStepTo(s, t', DataDown(cn, m), s') && cn in s.routers
    requires m.id == IdOf(k) ==> cn == Ses(s, k).owner
    ensures RoutersOk(s', k)
    ensures Returned(s'.routers, Ses(s, k).owner, IdOf(k)) ==
      Returned(s.routers, Ses(s, k).owner, IdOf(k)) + One(m, IdOf(k))
  {
    hide RouterOk, RouterAfter, DestAfter, SentTo, GotBy, For;
    var c, S := IdOf(k), Ses(s, k);
    forall n | n in s'.routers
      ensures RouterOk(n, s'.routers[n], c, k, S, For(s.accepts, c))
      ensures SentTo(s'.routers[n].msgs, c) == SentTo(s.routers[n].msgs, c) + if n == cn then One(m, c) else []
    {
      RouterGets(n, s.routers[n], cn, m, c, k, S, For(s.accepts, c));
    }
    if m.id != c && S.owner in s.routers {
      assert SentTo(s.routers[S.owner].msgs, c) + [] == SentTo(s.routers[S.owner].msgs, c);
    }
  }

  lemma RouterGets(n: Name, R: Router, cn: Name, m: Env<Bytes>, c: Id, k: nat, S: Session, accepts: seq<Bytes>)
    requires RouterOk(n, R, c, k, S, accepts) && (m.id == c ==> cn == S.owner)
    ensures RouterOk(n, RouterAfter(n, R, DataDown(cn, m)), c, k, S, accepts)
    ensures SentTo(RouterAfter(n, R, DataDown(cn, m)).msgs, c) == SentTo(R.msgs, c) + if n == cn then One(m, c) else []
  {
    hide AllBacked, Backed, Hop, HeldByRouter, SentTo, GotBy, For;
  }

  lemma DestTellStep(cfg: Config, s: State, t': Table, o: Out, s': State, k: nat)
    requires ClientInv(cfg, s, k) && HubStepTo(s, t', o, s')
    requires s.t.dpc.DTell? && DestGo(cfg, s.t, 0) == Some((t', o)) && s.t.dpc.cn in s.routers
    ensures ClientInv(cfg, s', k)
  {
    hide MySession, DestsOk, AllBacked, ClientPcOk, UpHop, Forwarded, Reached, RouterAfter, DestAfter, EntryOk, Gone,
      Returned, RoutersOk, HubStepTo, Backed, Hop, SentTo, GotBy, For;
    RoutersHear(s, s.t.dpc.cn, s.t.dpc.v, t', s', k);
    OtherHubStep(cfg, s, t', o, s', k);
  }

  lemma RoutersHear(s: State, cn: Name, v: Env<Verdict>, t': Table, s': State, k: nat)
    requires RoutersOk(s, k) && HubStepTo(s, t', VerdictDown(cn, v), s')
    requires v.id == IdOf(k) ==> Backed(v.body, For(s.accepts, IdOf(k)))
    ensures RoutersOk(s', k)
    ensures Returned(s'.routers, Ses(s, k).owner, IdOf(k)) == Returned(s.routers, Ses(s, k).owner, IdOf(k))
  {
    hide RouterOk, RouterAfter, DestAfter, SentTo, GotBy, For;
    var c, S := IdOf(k), Ses(s, k);
    forall n | n in s'.routers
      ensures RouterOk(n, s'.routers[n], c, k, S, For(s.accepts, c))
      ensures SentTo(s'.routers[n].msgs, c) == SentTo(s.routers[n].msgs, c)
    {
      RouterHears(n, s.routers[n], cn, v, c, k, S, For(s.accepts, c));
    }
  }

  lemma RouterHears(n: Name, R: Router, cn: Name, v: Env<Verdict>, c: Id, k: nat, S: Session, accepts: seq<Bytes>)
    requires RouterOk(n, R, c, k, S, accepts) && (v.id == c ==> Backed(v.body, accepts))
    ensures RouterOk(n, RouterAfter(n, R, VerdictDown(cn, v)), c, k, S, accepts)
    ensures SentTo(RouterAfter(n, R, VerdictDown(cn, v)).msgs, c) == SentTo(R.msgs, c)
  {
    hide Backed, Hop, HeldByRouter, SentTo, GotBy, For;
  }

  /** The other steps of the destination-side goroutine: stamping, connecting, looking a verdict's client up. */
  lemma DestQuietStep(cfg: Config, s: State, time: int, t': Table, o: Out, s': State, k: nat)
    requires ClientInv(cfg, s, k) && HubStepTo(s, t', o, s') && DestGo(cfg, s.t, time) == Some((t', o))
    requires s.t.dpc.DStamp? || s.t.dpc.DVerdict? || s.t.dpc.DConnect?
    ensures ClientInv(cfg, s', k)
  {
    hide MySession, RoutersOk, DestsOk, AllBacked, ClientPcOk, UpHop, Forwarded, Reached, HubStepTo, Returned, Hop,
      Backed, SentTo, GotBy, For;
    StepRouters(s, t', o, s', k);
    OtherHubStep(cfg, s, t', o, s', k);
  }

  lemma DestKickStep(cfg: Config, s: State, t': Table, o: Out, s': State, k: nat)
    requires ClientInv(cfg, s, k) && HubStepTo(s, t', o, s')
    requires s.t.dpc.DKick? && DestGo(cfg, s.t, 0) == Some((t', o))
    ensures ClientInv(cfg, s', k)
  {
    hide ClientInv, HubStepTo, SentTo, GotBy, For;
    KickView(cfg, s, t', o, s', k);
  }

  lemma DestGoKeeps(cfg: Config, s: State, time: int, s': State, k: nat)
    requires TableInv(cfg, s) && ClientInv(cfg, s, k) && HubGo(cfg, s, DestGo(cfg, s.t, time)) == Some(s')
    ensures ClientInv(cfg, s', k)
  {
    hide ClientInv, Fits, Sends, DestAfter, RouterAfter, KickStep, StampDest, Connect, DestsWired, SessionsWired,
      Books, Names, Times, Ages;
    HubSends(cfg, s, DestGo(cfg, s.t, time), s');
    var (t', o) := DestGo(cfg, s.t, time).value;
    match s.t.dpc
    case DMsg(_) => DestMsgStep(cfg, s, t', o, s', k);
    case DSend(_, _) => DestSendStep(cfg, s, t', o, s', k);
    case DTell(_, _) => DestTellStep(cfg, s, t', o, s', k);
    case DKick(_) => DestKickStep(cfg, s, t', o, s', k);
    case _ => DestQuietStep(cfg, s, time, t', o, s', k);
  }

  // ---------------------------------------------------------------- timeouts, drain, and all of them

  lemma TickKeeps(cfg: Config, s: State, st: TickStep, s': State, k: nat)
    requires ClientInv(cfg, s, k) && HubGo(cfg, s, TickGo(cfg, s.t, st)) == Some(s')
    ensures ClientInv(cfg, s', k)
  {
    hide MySession, RoutersOk, DestsOk, AllBacked, ClientPcOk, DestPcOk, UpHop, DownHop, Forwarded, Reached,
      Returned, EntryOk, HubGo, DestAfter, RouterAfter, ListsAll, Due, SentTo, GotBy, For;
    HubSends(cfg, s, TickGo(cfg, s.t, st), s');
    TickGoStays(cfg, s.t, st);
    var (t', o) := TickGo(cfg, s.t, st).value;
    KickView(cfg, s, t', o, s', k);
  }

  lemma DrainKeeps(cfg: Config, s: State, pick: Id, s': State, k: nat)
    requires ClientInv(cfg, s, k) && HubGo(cfg, s, DrainGo(cfg, s.t, pick)) == Some(s')
    ensures ClientInv(cfg, s', k)
  {
    hide MySession, RoutersOk, DestsOk, AllBacked, ClientPcOk, DestPcOk, UpHop, DownHop, Forwarded, Reached,
      Returned, EntryOk, Fits, Sends, DestAfter, RouterAfter, SentTo, GotBy, For;
    HubSends(cfg, s, DrainGo(cfg, s.t, pick), s');
    DrainGoStays(cfg, s.t, pick);
    var (t', o) := DrainGo(cfg, s.t, pick).value;
    KickView(cfg, s, t', o, s', k);
  }

  lemma HubKeepsClient(cfg: Config, s: State, st: HubStep, s': State, k: nat)
    requires ValidConfig(cfg) && TableInv(cfg, s) && ClientInv(cfg, s, k) && HubDo(cfg, s, st) == Some(s')
    ensures ClientInv(cfg, s', k)
  {
    hide ClientInv, TableInv, ValidConfig, ClientGo, DestGo, TickGo, DrainGo, ClientIdle, DestIdle, HubGo;
    match st
    case ByClientLoop(c) =>
      if s.t.cpc.CIdle? { ClientIdleKeeps(cfg, s, c, s', k); } else { ClientGoKeeps(cfg, s, c.time, s', k); }
    case ByDestLoop(d) =>
      if s.t.dpc.DIdle? { DestIdleKeeps(cfg, s, d, s', k); } else { DestGoKeeps(cfg, s, d.time, s', k); }
    case ByTicker(t) => TickKeeps(cfg, s, t, s', k);
    case ByDrain(pick) => DrainKeeps(cfg, s, pick, s', k);
    case Quits => PcOnly(cfg, s, s', k);
  }

  /** What the timeout goroutine is doing does not concern the client. */
  lemma PcOnly(cfg: Config, s: State, s': State, k: nat)
    requires ClientInv(cfg, s, k) && s' == s.(t := s.t.(tpc := s'.t.tpc, now := s'.t.now), shutdown := s'.shutdown)
    ensures ClientInv(cfg, s', k)
  {
    hide SessionOk, RouterOk, EntryOk, ClientPcOk, DestPcOk, UpHop, DownHop, AllBacked, Reached, Returned, Forwarded,
      DestOk, Gone, RouteOk, SentTo, GotBy, For;
  }
}
