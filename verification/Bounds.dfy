/** Every channel stays within its capacity, and no goroutine ends before the shutdown: in every state of every run. */
module Bounds {
  import opened Types
  import opened Channels
  import opened Machine
  import opened Frames
  import opened Runs

  predicate SessionBounded(cfg: Config, S: Session) {
    && |S.inbox.queue| <= cfg.room.inbox && |S.packets.queue| <= cfg.room.outbox && |S.outQ.queue| <= cfg.room.outbox
    && |S.verdictQ.queue| <= 1 && |S.closeReq.queue| <= 1 && |S.clientClose.queue| <= 1 && |S.proxyClose.queue| <= 1
  }

  predicate RouterBounded(cfg: Config, R: Router, shutdown: bool) {
    && |R.msgs.queue| <= cfg.room.routerData && |R.verdicts.queue| <= cfg.room.control
    && |R.closes.queue| <= cfg.room.control && (R.pc.RExit? ==> shutdown)
  }

  predicate DestBounded(cfg: Config, D: Dest, shutdown: bool) {
    && |D.opens.queue| <= cfg.room.control && |D.msgs.queue| <= cfg.room.destData
    && |D.closes.queue| <= cfg.room.control && |D.out.queue| <= cfg.room.datagrams && (D.pc.UExit? ==> shutdown)
  }

  predicate HubBounded(cfg: Config, s: State) {
    && |s.cMsgs.queue| <= cfg.room.clientIn && |s.cOpens.queue| <= cfg.room.clientIn
    && |s.cCloses.queue| <= cfg.room.clientIn && |s.dMsgs.queue| <= cfg.room.destIn
    && |s.dVerdicts.queue| <= cfg.room.destIn && |s.dCloses.queue| <= cfg.room.destIn
    && (s.t.cpc.CExit? || s.t.dpc.DExit? || s.t.tpc.TExit? || !s.t.zpc.ZWait? ==> s.shutdown)
  }

  ghost predicate SessionsBounded(cfg: Config, ses: map<nat, Session>) {
    forall n :: n in ses ==> SessionBounded(cfg, ses[n])
  }

  ghost predicate Bounded(cfg: Config, s: State) {
    && HubBounded(cfg, s)
    && SessionsBounded(cfg, s.ses)
    && (forall n :: n in s.routers ==> RouterBounded(cfg, s.routers[n], s.shutdown))
    && (forall d :: d in s.dests ==> DestBounded(cfg, s.dests[d], s.shutdown))
  }

  // ---------------------------------------------------------------- the parts

  lemma SessionGoBounded(cfg: Config, S: Session, done: bool, st: SessionStep)
    requires SessionBounded(cfg, S) && SessionGo(cfg, S, done, st).Some?
    ensures SessionBounded(cfg, SessionGo(cfg, S, done, st).value.0)
  {
  }

  lemma TransportBounded(cfg: Config, S: Session, st: TransportStep)
    requires SessionBounded(cfg, S) && TransportGo(cfg, S, st).Some?
    ensures SessionBounded(cfg, TransportGo(cfg, S, st).value)
  {
  }

  lemma ReceiveBounded(cfg: Config, S: Session, p: RouterPc)
    requires SessionBounded(cfg, S) && Receive(cfg, S, p).Some?
    ensures SessionBounded(cfg, Receive(cfg, S, p).value)
  {
  }

  lemma RouterTakeBounded(cfg: Config, R: Router, st: RouterStep, shutdown: bool)
    requires RouterBounded(cfg, R, shutdown) && RouterTake(R, st, shutdown).Some?
    ensures RouterBounded(cfg, RouterTake(R, st, shutdown).value, shutdown)
  {
    hide SentTo, GotBy, For;
  }

  lemma UdpBounded(cfg: Config, u: UdpRules.UdpConfig, D: Dest, st: UdpStep, shutdown: bool)
    requires DestBounded(cfg, D, shutdown)
    ensures UdpTake(D, st, shutdown).Some? ==> DestBounded(cfg, UdpTake(D, st, shutdown).value, shutdown)
    ensures UdpGo(cfg, u, D).Some? ==> DestBounded(cfg, UdpGo(cfg, u, D).value, shutdown)
  {
    hide SentTo, GotBy, For, UdpRules.Target;
  }

  lemma OutBounded(cfg: Config, s: State, o: Out)
    requires Fits(cfg, s, o)
    ensures forall n :: n in s.routers && RouterBounded(cfg, s.routers[n], s.shutdown) ==>
      RouterBounded(cfg, RouterAfter(n, s.routers[n], o), s.shutdown)
    ensures forall d :: d in s.dests && DestBounded(cfg, s.dests[d], s.shutdown) ==>
      DestBounded(cfg, DestAfter(d, s.dests[d], o), s.shutdown)
  {
    hide SentTo, GotBy, For;
  }

  // ---------------------------------------------------------------- the steps

  lemma GoBounded(cfg: Config, s: State, r: Option<(Table, Out)>, s': State)
    requires Bounded(cfg, s) && HubGo(cfg, s, r) == Some(s')
    requires r.value.0.cpc.CExit? || r.value.0.dpc.DExit? || r.value.0.tpc.TExit? || !r.value.0.zpc.ZWait? ==>
      s.shutdown
    ensures Bounded(cfg, s')
  {
    hide Fits, Sends, RouterAfter, DestAfter, RouterBounded, DestBounded, SessionBounded;
    HubSends(cfg, s, r, s');
    OutBounded(cfg, s, r.value.1);
  }

  lemma ClientIdleBounded(cfg: Config, s: State, st: LoopStep, s': State)
    requires Bounded(cfg, s) && ClientIdle(s, st) == Some(s')
    ensures Bounded(cfg, s')
  {
    hide RouterBounded, DestBounded, SessionBounded, SentTo, GotBy, For;
  }

  lemma DestIdleBounded(cfg: Config, s: State, st: LoopStep, s': State)
    requires Bounded(cfg, s) && DestIdle(s, st) == Some(s')
    ensures Bounded(cfg, s')
  {
    hide RouterBounded, DestBounded, SessionBounded, SentTo, GotBy, For;
  }

  /** No goroutine of the hub ends by itself. */
  lemma GoRunsOn(cfg: Config, t: Table, time: int, st: TickStep, pick: Id)
    ensures ClientGo(cfg, t, time).Some? ==> !ClientGo(cfg, t, time).value.0.cpc.CExit?
    ensures DestGo(cfg, t, time).Some? ==> !DestGo(cfg, t, time).value.0.dpc.DExit?
    ensures TickGo(cfg, t, st).Some? ==> !TickGo(cfg, t, st).value.0.tpc.TExit?
    ensures DrainGo(cfg, t, pick).Some? && t.zpc.ZWait? ==> t.cpc.CExit?
  {
    hide FirstMatch, KickStep, Due, CloseForClient, CloseForDest;
  }

  lemma HubStaysBounded(cfg: Config, s: State, st: HubStep, s': State)
    requires Bounded(cfg, s) && HubDo(cfg, s, st) == Some(s')
    ensures Bounded(cfg, s')
  {
    hide ClientGo, DestGo, TickGo, DrainGo, HubGo, ClientIdle, DestIdle, RouterBounded, DestBounded, SessionsBounded;
    match st
    case ByClientLoop(x) =>
      if s.t.cpc.CIdle? { ClientIdleBounded(cfg, s, x, s'); } else {
        HubTable(cfg, s, ClientGo(cfg, s.t, x.time), s');
        ClientGoStays(cfg, s.t, x.time);
        GoRunsOn(cfg, s.t, x.time, Begin, 0);
        GoBounded(cfg, s, ClientGo(cfg, s.t, x.time), s');
      }
    case ByDestLoop(x) =>
      if s.t.dpc.DIdle? { DestIdleBounded(cfg, s, x, s'); } else {
        HubTable(cfg, s, DestGo(cfg, s.t, x.time), s');
        DestGoStays(cfg, s.t, x.time);
        GoRunsOn(cfg, s.t, x.time, Begin, 0);
        GoBounded(cfg, s, DestGo(cfg, s.t, x.time), s');
      }
    case ByTicker(t) =>
      HubTable(cfg, s, TickGo(cfg, s.t, t), s');
      TickGoStays(cfg, s.t, t);
      GoRunsOn(cfg, s.t, 0, t, 0);
      GoBounded(cfg, s, TickGo(cfg, s.t, t), s');
    case ByDrain(pick) =>
      HubTable(cfg, s, DrainGo(cfg, s.t, pick), s');
      DrainGoStays(cfg, s.t, pick);
      GoRunsOn(cfg, s.t, 0, Begin, pick);
      GoBounded(cfg, s, DrainGo(cfg, s.t, pick), s');
    case Quits =>
  }

  lemma OneSessionBounded(cfg: Config, ses: map<nat, Session>, n: nat, S: Session)
    requires SessionsBounded(cfg, ses) && SessionBounded(cfg, S)
    ensures SessionsBounded(cfg, ses[n := S])
  {
    hide SessionBounded;
  }

  lemma PhaseBounded(cfg: Config, ses: map<nat, Session>, n: nat, phase: Phase)
    requires SessionsBounded(cfg, ses) && n in ses
    ensures SessionsBounded(cfg, ses[n := ses[n].(phase := phase)])
  {
    assert SessionBounded(cfg, ses[n]);
  }

  lemma SessionDoesBounded(cfg: Config, s: State, n: nat, st: SessionStep, s': State)
    requires Bounded(cfg, s) && n in s.ses && SessionDoes(cfg, s, n, st) == Some(s')
    ensures Bounded(cfg, s')
  {
    hide SessionGo, SessionBounded, RouterBounded, DestBounded, SessionsBounded, SentTo, GotBy, For;
    var done := s.ses[n].cancelled || s.shutdown;
    assert SessionBounded(cfg, s.ses[n]) by { Member(cfg, s.ses, n); }
    SessionGoBounded(cfg, s.ses[n], done, st);
    OneSessionBounded(cfg, s.ses, n, SessionGo(cfg, s.ses[n], done, st).value.0);
  }

  lemma Member(cfg: Config, ses: map<nat, Session>, n: nat)
    requires SessionsBounded(cfg, ses) && n in ses
    ensures SessionBounded(cfg, ses[n])
  {
  }

  lemma NewbornBounded(cfg: Config, s: State, r: Name)
    requires SessionsBounded(cfg, s.ses)
    ensures SessionsBounded(cfg, Connected(s, r).ses)
  {
  }

  lemma ClientStaysBounded(cfg: Config, s: State, st: ClientStep, s': State)
    requires Bounded(cfg, s) && ClientDo(cfg, s, st) == Some(s')
    ensures Bounded(cfg, s')
  {
    hide Admitted, LinkIn, SessionDoes, TransportGo, RouterTake, RouterGives, SessionsBounded, SessionBounded,
      DestBounded;
    match st
    case Connection(r) => NewbornBounded(cfg, s, r);
    case Admit(n, time) => Admits(cfg, s, n, time, s'); PhaseBounded(cfg, s.ses, n, s'.ses[n].phase);
    case Link(n) => Links(s, n, s'); PhaseBounded(cfg, s.ses, n, s'.ses[n].phase);
    case BySession(n, x) => SessionDoesBounded(cfg, s, n, x, s');
    case ByTransport(n, x) =>
      Member(cfg, s.ses, n);
      TransportBounded(cfg, s.ses[n], x);
      OneSessionBounded(cfg, s.ses, n, s'.ses[n]);
    case ByRouter(n, x) => RouterTakeBounded(cfg, s.routers[n], x, s.shutdown);
    case Demux(n) => DemuxBounded(cfg, s, n, s');
    case Unlink(n) =>
  }

  lemma DemuxBounded(cfg: Config, s: State, n: Name, s': State)
    requires Bounded(cfg, s) && n in s.routers && RouterGives(cfg, s, n, s.routers[n]) == Some(s')
    ensures Bounded(cfg, s')
  {
    hide RouterGives, Receive, DestBounded, SessionBounded, SessionsBounded;
    Gives(cfg, s, n, s');
    var R, id := s.routers[n], Holding(s.routers[n].pc).value;
    if id in R.links && R.links[id] in s.ses {
      Member(cfg, s.ses, R.links[id]);
      ReceiveBounded(cfg, s.ses[R.links[id]], R.pc);
      OneSessionBounded(cfg, s.ses, R.links[id], Receive(cfg, s.ses[R.links[id]], R.pc).value);
    }
  }

  lemma HearsBounded(cfg: Config, s: State, c: Id, h: Heard, s': State)
    requires Bounded(cfg, s) && Hears(cfg, s, c, h) == Some(s')
    ensures Bounded(cfg, s')
  {
    hide RouterBounded, DestBounded, SessionsBounded, SentTo, GotBy, For;
  }

  lemma DestStaysBounded(cfg: Config, s: State, st: DestStep, s': State)
    requires Bounded(cfg, s) && DestDo(cfg, s, st) == Some(s')
    ensures Bounded(cfg, s')
  {
    hide UdpTake, UdpGo, Hears, RouterBounded, SessionsBounded, SentTo, GotBy, For;
    if st.ByUdp? {
      UdpBounded(cfg, cfg.udp[st.dest], s.dests[st.dest], st.u, s.shutdown);
    } else if st.ByListener? {
      HearsBounded(cfg, s, st.id, st.h, s');
    }
  }

  lemma StaysBounded(cfg: Config, s: State, st: Step, s': State)
    requires Bounded(cfg, s) && Do(cfg, s, st) == Some(s')
    ensures Bounded(cfg, s')
  {
    hide HubDo, ClientDo, DestDo, SessionsBounded;
    match st
    case AtHub(h) => HubStaysBounded(cfg, s, h, s');
    case AtClient(c) => ClientStaysBounded(cfg, s, c, s');
    case AtDest(d) => DestStaysBounded(cfg, s, d, s');
    case _ =>
  }

  lemma BoundedInit(cfg: Config, s: State)
    requires Init(cfg, s)
    ensures Bounded(cfg, s)
  {
  }

  /** No channel ever holds more than its capacity; goroutines end, and the drain begins, only after the shutdown. */
  lemma {:induction false} QueuesStayBounded(cfg: Config, r: Run, i: nat)
    requires IsRun(cfg, r) && i < |r.states|
    ensures Bounded(cfg, r.states[i])
  {
    hide Do, Init, Bounded;
    if i == 0 {
      BoundedInit(cfg, r.states[0]);
    } else {
      QueuesStayBounded(cfg, r, i - 1);
      StaysBounded(cfg, r.states[i - 1], r.steps[i - 1], r.states[i]);
    }
  }
}
