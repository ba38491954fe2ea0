/**
 Which parts of the state a step can change, one lemma per kind of step. Every invariant proof starts
 from these, so that it only has to look at the parts it is about.
 */
module Frames {
  import opened Types
  import opened Channels
  import opened ClientTable
  import opened Machine

  /** A destination after a hub output. */
  function DestAfter(d: Name, D: Dest, o: Out): Dest {
    if (o.DataUp? || o.OpenUp? || o.CloseUp?) && o.dest == d then ToDest(D, o) else D
  }

  /** A router after a hub output. */
  function RouterAfter(n: Name, R: Router, o: Out): Router {
    if (o.DataDown? || o.VerdictDown? || o.CloseDown?) && o.router == n then ToRouter(R, o) else R
  }

  lemma HubSends(cfg: Config, s: State, r: Option<(Table, Out)>, s': State)
    requires HubGo(cfg, s, r) == Some(s')
    ensures r.Some? && s' == s.(t := r.value.0, dests := s'.dests, routers := s'.routers)
    ensures s'.dests.Keys == s.dests.Keys && s'.routers.Keys == s.routers.Keys
    ensures forall d :: d in s.dests ==> s'.dests[d] == DestAfter(d, s.dests[d], r.value.1)
    ensures forall n :: n in s.routers ==> s'.routers[n] == RouterAfter(n, s.routers[n], r.value.1)
  {
    hide ToDest, ToRouter, Fits;
    FitsKnown(cfg, s, r.value.1);
  }

  /** The part of that which most proofs need. */
  lemma HubTable(cfg: Config, s: State, r: Option<(Table, Out)>, s': State)
    requires HubGo(cfg, s, r) == Some(s')
    ensures r.Some? && s' == s.(t := r.value.0, dests := s'.dests, routers := s'.routers)
  {
    hide ToDest, ToRouter, Fits;
  }

  lemma FitsKnown(cfg: Config, s: State, o: Out)
    requires Fits(cfg, s, o)
    ensures o.DataUp? || o.OpenUp? || o.CloseUp? ==> o.dest in s.dests
    ensures o.DataDown? || o.VerdictDown? || o.CloseDown? ==> o.router in s.routers
  {
  }

  /** A kick only ever removes entries. */
  lemma KickStays(cfg: Config, t: Table, k: Kick)
    ensures KickStep(cfg, t, k).t ==
      t.(clients := KickStep(cfg, t, k).t.clients, dropped := KickStep(cfg, t, k).t.dropped)
    ensures forall c :: c in KickStep(cfg, t, k).t.clients ==>
      c in t.clients && KickStep(cfg, t, k).t.clients[c] == t.clients[c]
  {
    hide CloseForClient, CloseForDest;
  }

  lemma ClientGoStays(cfg: Config, t: Table, time: int)
    requires ClientGo(cfg, t, time).Some?
    ensures var t' := ClientGo(cfg, t, time).value.0;
      t' == t.(clients := t'.clients, cpc := t'.cpc, routed := t'.routed, dropped := t'.dropped)
  {
    hide KickStep, FirstMatch, SetDest, StampClient, DestName;
    if t.cpc.CKick? {
      KickStays(cfg, t, t.cpc.k);
    }
  }

  lemma DestGoStays(cfg: Config, t: Table, time: int)
    requires DestGo(cfg, t, time).Some?
    ensures var t' := DestGo(cfg, t, time).value.0;
      t' == t.(clients := t'.clients, dpc := t'.dpc, dropped := t'.dropped)
  {
    hide KickStep, Connect, StampDest, ClientName;
    if t.dpc.DKick? {
      KickStays(cfg, t, t.dpc.k);
    }
  }

  lemma TickGoStays(cfg: Config, t: Table, st: TickStep)
    requires TickGo(cfg, t, st).Some?
    ensures var t' := TickGo(cfg, t, st).value.0;
      t' == t.(clients := t'.clients, tpc := t'.tpc, dropped := t'.dropped, swept := t'.swept)
  {
    hide KickStep, ListsAll, Due, DueAt;
    if t.tpc.TKick? {
      KickStays(cfg, t, t.tpc.k);
    }
  }

  /** The hub enters nobody into the table. */
  lemma GoShrinks(cfg: Config, t: Table, time: int, c: Id)
    ensures ClientGo(cfg, t, time).Some? && c in ClientGo(cfg, t, time).value.0.clients ==> c in t.clients
    ensures DestGo(cfg, t, time).Some? && c in DestGo(cfg, t, time).value.0.clients ==> c in t.clients
  {
    hide FirstMatch, KickStep;
    if t.cpc.CKick? { KickStays(cfg, t, t.cpc.k); }
    if t.dpc.DKick? { KickStays(cfg, t, t.dpc.k); }
  }

  lemma TickShrinks(cfg: Config, t: Table, st: TickStep, pick: Id, c: Id)
    ensures TickGo(cfg, t, st).Some? && c in TickGo(cfg, t, st).value.0.clients ==> c in t.clients
    ensures DrainGo(cfg, t, pick).Some? && c in DrainGo(cfg, t, pick).value.0.clients ==> c in t.clients
  {
    hide KickStep, Due, CloseForClient, CloseForDest;
    if t.tpc.TKick? { KickStays(cfg, t, t.tpc.k); }
  }

  lemma DrainGoStays(cfg: Config, t: Table, pick: Id)
    requires DrainGo(cfg, t, pick).Some?
    ensures var t' := DrainGo(cfg, t, pick).value.0;
      t' == t.(clients := t'.clients, zpc := t'.zpc, dropped := t'.dropped)
  {
  }

  lemma ClientTakes(s: State, st: LoopStep, s': State)
    requires ClientIdle(s, st) == Some(s')
    ensures s' == s.(t := s.t.(cpc := s'.t.cpc), cMsgs := s'.cMsgs, cOpens := s'.cOpens, cCloses := s'.cCloses)
  {
  }

  lemma DestTakes(s: State, st: LoopStep, s': State)
    requires DestIdle(s, st) == Some(s')
    ensures s' == s.(t := s.t.(dpc := s'.t.dpc), dMsgs := s'.dMsgs, dVerdicts := s'.dVerdicts, dCloses := s'.dCloses)
  {
  }

  /** A hub step leaves the sessions, the record of accepts and the counters of the table's entrance alone. */
  lemma HubFrame(cfg: Config, s: State, st: HubStep, s': State)
    requires HubDo(cfg, s, st) == Some(s')
    ensures s'.ses == s.ses && s'.accepts == s.accepts && s'.shutdown == s.shutdown
    ensures s'.t.allocs == s.t.allocs && s'.t.made == s.t.made && s'.t.inserted == s.t.inserted && s'.t.now == s.t.now
    ensures !st.ByDrain? ==> s'.t.zpc == s.t.zpc
  {
    hide ClientGo, DestGo, TickGo, DrainGo, ClientIdle, DestIdle, HubGo;
    match st
    case ByClientLoop(c) =>
      if s.t.cpc.CIdle? { ClientTakes(s, c, s'); } else {
        HubTable(cfg, s, ClientGo(cfg, s.t, c.time), s');
        ClientGoStays(cfg, s.t, c.time);
      }
    case ByDestLoop(d) =>
      if s.t.dpc.DIdle? { DestTakes(s, d, s'); } else {
        HubTable(cfg, s, DestGo(cfg, s.t, d.time), s');
        DestGoStays(cfg, s.t, d.time);
      }
    case ByTicker(t) => HubTable(cfg, s, TickGo(cfg, s.t, t), s'); TickGoStays(cfg, s.t, t);
    case ByDrain(pick) => HubTable(cfg, s, DrainGo(cfg, s.t, pick), s'); DrainGoStays(cfg, s.t, pick);
    case Quits =>
  }

  /** A step of a client's side leaves the destinations, the hub's goroutines and the routes alone. */
  lemma ClientFrame(cfg: Config, s: State, st: ClientStep, s': State)
    requires ClientDo(cfg, s, st) == Some(s')
    ensures s'.accepts == s.accepts && s'.dests == s.dests && s'.shutdown == s.shutdown
    ensures s'.dMsgs == s.dMsgs && s'.dVerdicts == s.dVerdicts && s'.dCloses == s.dCloses
    ensures s'.t == s.t.(clients := s'.t.clients, allocs := s'.t.allocs, inserted := s'.t.inserted, made := s'.t.made)
    ensures s.t.allocs <= s'.t.allocs
  {
    hide Admitted, LinkIn, SessionDoes, TransportGo, RouterTake, RouterGives;
    match st
    case Admit(n, time) => Admits(cfg, s, n, time, s');
    case Link(n) => Links(s, n, s');
    case BySession(n, x) => SessionEmits(cfg, s, n, x, s');
    case Demux(n) => Gives(cfg, s, n, s');
    case _ =>
  }

  /** A step of a destination leaves the table, the routers and the clients' channels alone. */
  lemma DestFrame(cfg: Config, s: State, st: DestStep, s': State)
    requires DestDo(cfg, s, st) == Some(s')
    ensures s' ==
      s.(dests := s'.dests, dMsgs := s'.dMsgs, dVerdicts := s'.dVerdicts, dCloses := s'.dCloses, accepts := s'.accepts)
  {
    hide UdpTake, UdpGo, Hears;
    if st.ByListener? {
      HearsOnly(cfg, s, st.id, st.h, s');
    }
  }

  lemma Admits(cfg: Config, s: State, n: nat, time: int, s': State)
    requires n in s.ses && Admitted(cfg, s, n, s.ses[n], time) == Some(s')
    ensures s' == s.(t := s'.t, ses := s'.ses) && s.ses[n].phase.Allocated?
    ensures s'.ses == s.ses[n := s.ses[n].(phase := s'.ses[n].phase)]
    ensures
      || (s'.ses[n].phase == Rejected && s'.t == s.t)
      || (&& s'.ses[n].phase == Created && s'.t == Entered(s.t, IdOf(n), s.ses[n].owner, time)
          && CanCreate(s.t.clients, cfg.max, IdOf(n)) && s.ses[n].phase.since <= time <= s.t.now && !Draining(s.t))
  {
  }

  lemma Links(s: State, n: nat, s': State)
    requires n in s.ses && LinkIn(s, n, s.ses[n]) == Some(s')
    ensures s' == s.(ses := s'.ses, routers := s'.routers) && s.ses[n].phase.Created?
    ensures s'.ses == s.ses[n := s.ses[n].(phase := s'.ses[n].phase)]
    ensures
      || (s'.ses[n].phase == LinkFailed && s'.routers == s.routers)
      || (&& s'.ses[n].phase == WaitAuth && s.ses[n].owner in s.routers
          && IdOf(n) !in s.routers[s.ses[n].owner].links
          && s'.routers == s.routers[s.ses[n].owner :=
               s.routers[s.ses[n].owner].(links := s.routers[s.ses[n].owner].links[IdOf(n) := n])])
  {
  }

  lemma SessionEmits(cfg: Config, s: State, n: nat, st: SessionStep, s': State)
    requires n in s.ses && SessionDoes(cfg, s, n, st) == Some(s')
    ensures SessionGo(cfg, s.ses[n], s.ses[n].cancelled || s.shutdown, st).Some?
    ensures var r := SessionGo(cfg, s.ses[n], s.ses[n].cancelled || s.shutdown, st).value;
      && s' == s.(ses := s.ses[n := r.0], cMsgs := s'.cMsgs, cOpens := s'.cOpens, cCloses := s'.cCloses)
      && s'.cMsgs == (if r.1.EmitData? then Post(s.cMsgs, Env(IdOf(n), r.1.data)) else s.cMsgs)
      && s'.cOpens == (if r.1.EmitOpen? then Post(s.cOpens, Env(IdOf(n), r.1.auth)) else s.cOpens)
      && s'.cCloses == (if r.1.EmitClose? then Post(s.cCloses, Env(IdOf(n), ())) else s.cCloses)
  {
    hide SessionGo;
  }

  lemma Gives(cfg: Config, s: State, n: Name, s': State)
    requires n in s.routers && RouterGives(cfg, s, n, s.routers[n]) == Some(s')
    ensures Holding(s.routers[n].pc).Some?
    ensures s' == s.(ses := s'.ses, routers := s.routers[n := s.routers[n].(pc := RIdle)])
    ensures var R, id := s.routers[n], Holding(s.routers[n].pc).value;
      if id in R.links && R.links[id] in s.ses
      then Receive(cfg, s.ses[R.links[id]], R.pc).Some?
           && s'.ses == s.ses[R.links[id] := Receive(cfg, s.ses[R.links[id]], R.pc).value]
      else s'.ses == s.ses
  {
  }

  lemma HearsOnly(cfg: Config, s: State, c: Id, h: Heard, s': State)
    requires Hears(cfg, s, c, h) == Some(s')
    ensures s' == s.(dVerdicts := s'.dVerdicts, dMsgs := s'.dMsgs, dCloses := s'.dCloses, accepts := s'.accepts)
    ensures s'.dVerdicts == (if h.HVerdict? then Post(s.dVerdicts, Env(c, Verdict(h.accepted, h.app))) else s.dVerdicts)
    ensures s'.dMsgs == (if h.HData? then Post(s.dMsgs, Env(c, h.data)) else s.dMsgs)
    ensures s'.dCloses == (if h.HClose? then Post(s.dCloses, Env(c, ())) else s.dCloses)
    ensures s'.accepts == (if h.HVerdict? && h.accepted then s.accepts + [Env(c, h.app)] else s.accepts)
  {
  }

  /** A session never changes its owner, and leaves `Allocated` only through the client table. */
  predicate SameSession(S: Session, S': Session) {
    S'.owner == S.owner && (S'.phase.Allocated? ==> S'.phase == S.phase)
  }

  lemma SessionStays(cfg: Config, S: Session, done: bool, st: SessionStep)
    requires SessionGo(cfg, S, done, st).Some?
    ensures SameSession(S, SessionGo(cfg, S, done, st).value.0)
    ensures HasEntry(S.phase) && Linked(S.phase)
    ensures Linked(SessionGo(cfg, S, done, st).value.0.phase)
  {
  }

  lemma TransportStays(cfg: Config, S: Session, st: TransportStep)
    requires TransportGo(cfg, S, st).Some?
    ensures TransportGo(cfg, S, st).value
         == S.(inbox := TransportGo(cfg, S, st).value.inbox, packets := TransportGo(cfg, S, st).value.packets,
               clientClose := TransportGo(cfg, S, st).value.clientClose,
               proxyClose := TransportGo(cfg, S, st).value.proxyClose,
               cancelled := TransportGo(cfg, S, st).value.cancelled)
    ensures TransportGo(cfg, S, st).value.inbox.got == S.inbox.got
    ensures TransportGo(cfg, S, st).value.packets.Sent() == S.packets.Sent()
  {
  }

  lemma ReceiveStays(cfg: Config, S: Session, pc: RouterPc)
    requires Receive(cfg, S, pc).Some?
    ensures Receive(cfg, S, pc).value
         == S.(outQ := Receive(cfg, S, pc).value.outQ, verdictQ := Receive(cfg, S, pc).value.verdictQ,
               closeReq := Receive(cfg, S, pc).value.closeReq)
    ensures Receive(cfg, S, pc).value.outQ == (if pc.RMsg? then S.outQ.Put(pc.m.body) else S.outQ)
    ensures Receive(cfg, S, pc).value.verdictQ == (if pc.RVerdict? then S.verdictQ.Put(pc.v.body) else S.verdictQ)
  {
  }
}
