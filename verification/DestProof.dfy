/** The steps of the UDP destinations keep the client invariant. */
module DestProof {
  import opened Types
  import opened Channels
  import opened UdpRules
  import opened Machine
  import opened Frames
  import opened Grammar
  import opened ClientInvariant
  import opened SessionProof
  import opened HubProof

  /** What a destination relies on: one open command, and data only for a client it has registered. */
  ghost predicate Fed(D: Dest, c: Id) {
    |SentTo(D.opens, c)| <= 1 && (SentTo(D.msgs, c) != [] ==> c in D.ever)
  }

  lemma FedOk(cfg: Config, s: State, d: Name, k: nat)
    requires ClientInv(cfg, s, k) && d in s.dests
    ensures Fed(s.dests[d], IdOf(k))
  {
    hide EntryOk, ClientPcOk, DestPcOk, DownHop, AllBacked, RoutersOk, DestOk, Faced, Gone, UpOk, FacingOk, Backed,
      SentTo, GotBy, For;
    var c, route := IdOf(k), Get(s.t.routed, IdOf(k));
    assert RouteOk(d, s.dests[d], c, route, SentTo(s.cOpens, c), s.t.cpc);
    if SentTo(s.dests[d].msgs, c) != [] {
      GotIsPrefix(s.cMsgs, c);
      Relayed(cfg, s, k);
    }
  }

  // ---------------------------------------------------------------- the parts of a destination

  lemma TakeRegOk(u: UdpConfig, D: Dest, st: UdpStep, shutdown: bool, c: Id)
    requires RegOk(u, D, c) && Fed(D, c) && D.pc.UIdle? && UdpTake(D, st, shutdown).Some?
    ensures RegOk(u, UdpTake(D, st, shutdown).value, c)
  {
    hide Target, For, SentTo, GotBy;
    GotIsPrefix(D.opens, c);
    if st.TakeOpen? && D.opens.queue[0].id == c {
      HeadOf(D.opens, c);
    }
  }

  lemma TakeTalkOk(u: UdpConfig, D: Dest, st: UdpStep, shutdown: bool, c: Id)
    requires RegOk(u, D, c) && D.pc.UIdle? && UdpTake(D, st, shutdown).Some?
    requires TalkOk(D.pc, c, GotBy(D.opens, c), Get(D.ever, c), c in D.reg, Talked(SentTo(D.out, c)))
    ensures var D' := UdpTake(D, st, shutdown).value;
      TalkOk(D'.pc, c, GotBy(D'.opens, c), Get(D'.ever, c), c in D'.reg, Talked(SentTo(D'.out, c)))
  {
    hide Target, Talked, For, SentTo, GotBy;
  }

  lemma TakeHopOk(D: Dest, st: UdpStep, shutdown: bool, c: Id)
    requires UdpHop(D, c) && D.pc.UIdle? && UdpTake(D, st, shutdown).Some?
    ensures UdpHop(UdpTake(D, st, shutdown).value, c)
  {
    hide Talked, SentData, For, SentTo, GotBy;
    assert forall out: seq<Bytes> :: out + [] == out;
  }

  lemma UdpTakeOk(u: UdpConfig, D: Dest, st: UdpStep, shutdown: bool, c: Id)
    requires DestOk(u, D, c) && Fed(D, c) && D.pc.UIdle? && UdpTake(D, st, shutdown).Some?
    ensures DestOk(u, UdpTake(D, st, shutdown).value, c)
  {
    hide RegOk, TalkOk, UdpHop, UdpTake, Talked, SentTo, GotBy, For;
    TakeRegOk(u, D, st, shutdown, c);
    TakeTalkOk(u, D, st, shutdown, c);
    TakeHopOk(D, st, shutdown, c);
  }

  lemma UdpGoOk(cfg: Config, u: UdpConfig, D: Dest, c: Id)
    requires DestOk(u, D, c) && Fed(D, c) && UdpGo(cfg, u, D).Some?
    ensures DestOk(u, UdpGo(cfg, u, D).value, c)
  {
    hide Talked, Target, For, SentTo, GotBy;
    GotIsPrefix(D.msgs, c);
    match D.pc
    case UOpen(o) => RegisterOk(u, D, o, c);
    case USend(dg) => SendOk(u, D, dg, c);
    case USendClose(id, a) => SendCloseOk(u, D, id, a, c);
    case _ =>
  }

  lemma SendOk(u: UdpConfig, D: Dest, dg: Env<Datagram>, c: Id)
    requires DestOk(u, D, c) && D.pc == USend(dg)
    ensures DestOk(u, D.(out := Post(D.out, dg), pc := UIdle), c)
  {
    hide Talked, Target, For, SentTo, GotBy;
    var sent := SentData(Talked(SentTo(D.out, c)));
    assert sent + [] == sent;
    if dg.id == c {
      TalkedMore(SentTo(D.out, c), dg.body);
      if dg.body.kind.ClientMessage? {
        assert (sent + [dg.body.kind.data]) + [] == sent + [dg.body.kind.data];
      }
    } else {
      assert SentTo(D.out, c) + [] == SentTo(D.out, c);
    }
  }

  lemma SendCloseOk(u: UdpConfig, D: Dest, id: Id, a: Addr, c: Id)
    requires DestOk(u, D, c) && D.pc == USendClose(id, a)
    ensures DestOk(u, D.(out := Post(D.out, Env(id, Datagram(a, CloseConnection))), pc := UDelete(id)), c)
  {
    hide Talked, Target, For, SentTo, GotBy;
    if id == c {
      TalkedMore(SentTo(D.out, c), Datagram(a, CloseConnection));
    } else {
      assert SentTo(D.out, c) + [] == SentTo(D.out, c);
    }
  }

  lemma RegisterOk(u: UdpConfig, D: Dest, o: Env<Auth>, c: Id)
    requires DestOk(u, D, c) && Fed(D, c) && D.pc == UOpen(o)
    ensures DestOk(u, Register(u, D, o), c)
  {
    hide Talked, Target, For, SentTo, GotBy;
    GotIsPrefix(D.msgs, c);
  }

  /** Only the pc, the registrations and the outgoing queue move; what was registered stays recorded. */
  lemma UdpGoStays(cfg: Config, u: UdpConfig, D: Dest)
    requires UdpGo(cfg, u, D).Some?
    ensures var D' := UdpGo(cfg, u, D).value; D' == D.(pc := D'.pc, reg := D'.reg, ever := D'.ever, out := D'.out)
    ensures D.ever.Keys <= UdpGo(cfg, u, D).value.ever.Keys
  {
  }

  lemma UdpTakeStays(D: Dest, st: UdpStep, shutdown: bool, c: Id)
    requires UdpTake(D, st, shutdown).Some?
    ensures var D' := UdpTake(D, st, shutdown).value;
      && D'.ever == D.ever && SentTo(D'.opens, c) == SentTo(D.opens, c) && SentTo(D'.msgs, c) == SentTo(D.msgs, c)
  {
  }

  lemma WipeOk(u: UdpConfig, D: Dest, c: Id)
    requires DestOk(u, D, c)
    ensures DestOk(u, D.(reg := map[]), c)
  {
    hide Talked, Target, For, SentTo, GotBy;
  }

  lemma TransmitOk(u: UdpConfig, D: Dest, c: Id)
    requires DestOk(u, D, c) && D.out.queue != []
    ensures DestOk(u, D.(out := Pull(D.out)), c)
  {
    hide Talked, Target, SentData, TalkOk, Hop, For, SentTo, GotBy;
  }

  lemma RefusedOk(u: UdpConfig, D: Dest, c: Id)
    requires DestOk(u, D, c) && D.pc.URefuse?
    ensures DestOk(u, D.(pc := UIdle), c)
  {
    hide Talked, Target, SentData, For, SentTo, GotBy;
  }

  // ---------------------------------------------------------------- the destination within the whole

  /** One destination moves on; the hub's channels to it have seen nothing new, and no registration is forgotten. */
  lemma DestMoves(cfg: Config, s: State, d: Name, D': Dest, s': State, k: nat)
    requires ClientInv(cfg, s, k) && d in s.dests && d in cfg.udp && s' == s.(dests := s.dests[d := D'])
    requires DestOk(cfg.udp[d], D', IdOf(k)) && s.dests[d].ever.Keys <= D'.ever.Keys
    requires SentTo(D'.opens, IdOf(k)) == SentTo(s.dests[d].opens, IdOf(k))
    requires SentTo(D'.msgs, IdOf(k)) == SentTo(s.dests[d].msgs, IdOf(k))
    ensures ClientInv(cfg, s', k)
  {
    hide SessionOk, RouterOk, EntryOk, ClientPcOk, DestPcOk, UpHop, DownHop, AllBacked, Returned, DestOk, Gone,
      Forwarded, Reached, RouteOk, For, SentTo, GotBy;
    var c, route := IdOf(k), Get(s.t.routed, IdOf(k));
    ViewsMove(s.dests, d, D', route, c);
    RouteMoves(d, s.dests[d], D', c, route, SentTo(s.cOpens, c), s.t.cpc);
  }

  lemma ViewsMove(dests: map<Name, Dest>, d: Name, D': Dest, route: Option<Name>, c: Id)
    requires d in dests && dests[d].ever.Keys <= D'.ever.Keys && SentTo(D'.msgs, c) == SentTo(dests[d].msgs, c)
    ensures Forwarded(dests[d := D'], route, c) == Forwarded(dests, route, c)
    ensures Reached(dests, route, c) ==> Reached(dests[d := D'], route, c)
  {
  }

  lemma RouteMoves(d: Name, D: Dest, D': Dest, c: Id, route: Option<Name>, opens: seq<Auth>, p: ClientPc)
    requires RouteOk(d, D, c, route, opens, p)
    requires SentTo(D'.opens, c) == SentTo(D.opens, c) && SentTo(D'.msgs, c) == SentTo(D.msgs, c)
    ensures RouteOk(d, D', c, route, opens, p)
  {
  }

  lemma UdpStepOk(cfg: Config, s: State, d: Name, st: UdpStep, s': State, k: nat)
    requires ClientInv(cfg, s, k) && d in s.dests && d in cfg.udp && UdpDoes(cfg, s, d, st) == Some(s')
    ensures ClientInv(cfg, s', k)
  {
    hide MySession, HubOk, RoutersOk, RouteOk, DestOk, UdpTake, UdpGo, Fed, SentTo, GotBy, For;
    var c, D := IdOf(k), s.dests[d];
    FedOk(cfg, s, d, k);
    if D.pc.UIdle? {
      UdpTakeOk(cfg.udp[d], D, st, s.shutdown, c);
      UdpTakeStays(D, st, s.shutdown, c);
    } else {
      UdpGoOk(cfg, cfg.udp[d], D, c);
      UdpGoStays(cfg, cfg.udp[d], D);
    }
    DestMoves(cfg, s, d, s'.dests[d], s', k);
  }

  lemma RefuseStepOk(cfg: Config, s: State, d: Name, s': State, k: nat)
    requires ClientInv(cfg, s, k) && d in s.dests && Refuses(cfg, s, d, s.dests[d]) == Some(s')
    ensures ClientInv(cfg, s', k)
  {
    hide MySession, HubOk, RoutersOk, RouteOk, DestOk, SentTo, GotBy, For;
    var D, mid := s.dests[d], s.(dests := s.dests[d := s.dests[d].(pc := UIdle)]);
    RefusedOk(cfg.udp[d], D, IdOf(k));
    DestMoves(cfg, s, d, D.(pc := UIdle), mid, k);
    VerdictReached(cfg, mid, k);
    VerdictArrives(cfg, mid, s', k);
  }

  /** A verdict is queued for the hub; an accepting one is also recorded. */
  lemma VerdictArrives(cfg: Config, s: State, s': State, k: nat)
    requires ClientInv(cfg, s, k)
    requires s' == s.(dVerdicts := s'.dVerdicts, accepts := s'.accepts)
    requires For(s.accepts, IdOf(k)) <= For(s'.accepts, IdOf(k))
    requires For(s'.accepts, IdOf(k)) != [] ==> Reached(s.dests, Get(s.t.routed, IdOf(k)), IdOf(k))
    requires |SentTo(s'.dVerdicts, IdOf(k))| <= |SentTo(s.dVerdicts, IdOf(k))| + 1
    requires SentTo(s.dVerdicts, IdOf(k)) <= SentTo(s'.dVerdicts, IdOf(k))
    requires |SentTo(s'.dVerdicts, IdOf(k))| > |SentTo(s.dVerdicts, IdOf(k))| ==>
      Backed(SentTo(s'.dVerdicts, IdOf(k))[|SentTo(s.dVerdicts, IdOf(k))|], For(s'.accepts, IdOf(k)))
    ensures ClientInv(cfg, s', k)
  {
    hide EntryOk, SessionOk, RouterOk, DestOk, RouteOk, UpHop, DownHop, AllBacked, Reached, Returned, Forwarded,
      Gone, ClientPcOk, DestPcOk, Backed, SentTo, GotBy, For;
    var c, more := IdOf(k), For(s'.accepts, IdOf(k));
    MoreAccepts(cfg, Ses(s, k), SentTo(s.cOpens, c), SentTo(s.cMsgs, c), For(s.accepts, c), more);
    MoreBacked(SentTo(s.dVerdicts, c), SentTo(s'.dVerdicts, c), For(s.accepts, c), more);
    MorePc(s.t.cpc, s.t.dpc, c, Get(s.t.routed, c), SentTo(s.cOpens, c), Ses(s, k).owner, For(s.accepts, c), more);
    forall n | n in s'.routers ensures RouterOk(n, s'.routers[n], c, k, Ses(s', k), more) {
      MoreRouter(n, s.routers[n], c, k, Ses(s, k), For(s.accepts, c), more);
    }
  }

  lemma Grown(accepts: seq<Bytes>, more: seq<Bytes>, v: Verdict)
    requires accepts <= more && Backed(v, accepts)
    ensures Backed(v, more)
  {
    if v.accepted {
      var i :| 0 <= i < |accepts| && accepts[i] == v.app;
      assert more[i] == v.app;
    }
  }

  lemma MoreBacked(vs: seq<Verdict>, vs': seq<Verdict>, accepts: seq<Bytes>, more: seq<Bytes>)
    requires AllBacked(vs, accepts) && accepts <= more && vs <= vs' && |vs'| <= |vs| + 1
    requires |vs'| > |vs| ==> Backed(vs'[|vs|], more)
    ensures AllBacked(vs', more)
  {
    hide Backed;
    forall i | 0 <= i < |vs'| ensures Backed(vs'[i], more) {
      if i < |vs| {
        Grown(accepts, more, vs[i]);
      }
    }
  }

  lemma MorePc(p: ClientPc, q: DestPc, c: Id, route: Option<Name>, opens: seq<Auth>, owner: Name,
               accepts: seq<Bytes>, more: seq<Bytes>)
    requires ClientPcOk(p, c, route, opens, accepts) && DestPcOk(q, c, owner, accepts) && accepts <= more
    ensures ClientPcOk(p, c, route, opens, more) && DestPcOk(q, c, owner, more)
  {
    hide Backed;
    if q.DVerdict? || q.DConnect? || q.DTell? {
      if q.v.id == c {
        Grown(accepts, more, q.v.body);
      }
    }
  }

  lemma MoreRouter(n: Name, R: Router, c: Id, k: nat, S: Session, accepts: seq<Bytes>, more: seq<Bytes>)
    requires RouterOk(n, R, c, k, S, accepts) && accepts <= more
    ensures RouterOk(n, R, c, k, S, more)
  {
    hide Hop, Backed, AllBacked, SentTo, GotBy, For;
    MoreBacked(SentTo(R.verdicts, c), SentTo(R.verdicts, c), accepts, more);
    if R.pc.RVerdict? && R.pc.v.id == c {
      Grown(accepts, more, R.pc.v.body);
    }
  }

  /** A registered client has been routed to the destination that registered it. */
  lemma RegisteredReached(cfg: Config, s: State, d: Name, k: nat)
    requires ClientInv(cfg, s, k) && d in s.dests && IdOf(k) in s.dests[d].reg
    ensures Get(s.t.routed, IdOf(k)) == Some(d) && Reached(s.dests, Get(s.t.routed, IdOf(k)), IdOf(k))
  {
    hide MySession, HubOk, RoutersOk, TalkOk, UdpHop, Target, SentTo, GotBy, For;
    GotIsPrefix(s.dests[d].opens, IdOf(k));
  }

  lemma HearStepOk(cfg: Config, s: State, d: Name, c: Id, h: Heard, s': State, k: nat)
    requires ClientInv(cfg, s, k) && d in s.dests && c in s.dests[d].reg && Hears(cfg, s, c, h) == Some(s')
    ensures ClientInv(cfg, s', k)
  {
    hide Hears, MySession, HubOk, RoutersOk, DestsOk, Reached, SentTo, GotBy, For;
    HearsOnly(cfg, s, c, h, s');
    if c == IdOf(k) {
      RegisteredReached(cfg, s, d, k);
    }
    match h
    case HVerdict(accepted, app) =>
      LogFor(s.accepts, Env(c, app), IdOf(k));
      VerdictReached(cfg, s, k);
      VerdictArrives(cfg, s, s', k);
    case HData(data) => DataArrives(cfg, s, s', k);
    case HClose => DataArrives(cfg, s, s', k);
  }

  lemma VerdictReached(cfg: Config, s: State, k: nat)
    requires ClientInv(cfg, s, k)
    ensures For(s.accepts, IdOf(k)) != [] ==> Reached(s.dests, Get(s.t.routed, IdOf(k)), IdOf(k))
  {
    hide MySession, RoutersOk, DestsOk, Reached, EntryOk, ClientPcOk, DestPcOk, UpHop, DownHop, AllBacked, SentTo,
      GotBy, For;
  }

  lemma DataArrives(cfg: Config, s: State, s': State, k: nat)
    requires ClientInv(cfg, s, k) && s' == s.(dMsgs := s'.dMsgs, dCloses := s'.dCloses)
    requires GotBy(s'.dMsgs, IdOf(k)) == GotBy(s.dMsgs, IdOf(k))
    requires SentTo(s'.dMsgs, IdOf(k)) ==
      SentTo(s.dMsgs, IdOf(k)) || Reached(s.dests, Get(s.t.routed, IdOf(k)), IdOf(k))
    ensures ClientInv(cfg, s', k)
  {
    hide SessionOk, RouterOk, EntryOk, ClientPcOk, DestPcOk, UpHop, DownHop, AllBacked, Returned, Forwarded, DestOk,
      Gone, RouteOk, Reached, SentTo, GotBy, For;
  }

  lemma DestKeepsClient(cfg: Config, s: State, st: DestStep, s': State, k: nat)
    requires ClientInv(cfg, s, k) && DestDo(cfg, s, st) == Some(s')
    ensures ClientInv(cfg, s', k)
  {
    hide MySession, HubOk, RoutersOk, RouteOk, DestOk, UdpDoes, Refuses, Hears, SentTo, GotBy, For;
    match st
    case ByUdp(d, u) => UdpStepOk(cfg, s, d, u, s', k);
    case UdpRefuse(d) => RefuseStepOk(cfg, s, d, s', k);
    case ByListener(d, c, h) => HearStepOk(cfg, s, d, c, h, s', k);
    case Transmit(d) =>
      TransmitOk(cfg.udp[d], s.dests[d], IdOf(k));
      DestMoves(cfg, s, d, s'.dests[d], s', k);
    case Wipe(d) =>
      WipeOk(cfg.udp[d], s.dests[d], IdOf(k));
      DestMoves(cfg, s, d, s'.dests[d], s', k);
  }
}
