/** Kicking over whole runs: whoever leaves the table was told, and the drain leaves nobody. */
module KickRuns {
  import opened Types
  import opened Channels
  import opened Machine
  import opened Frames
  import opened TableSafety
  import opened ClientInvariant
  import opened ClientSideProof
  import opened HubProof
  import opened DestProof
  import opened Runs
  import opened Kicks

  /** Closes sent for a client to one router. */
  function DownTo(routers: map<Name, Router>, n: Name, c: Id): nat {
    if n in routers then |SentTo(routers[n].closes, c)| else 0
  }

  /** Closes sent for a client to one destination. */
  function UpTo(dests: map<Name, Dest>, d: Name, c: Id): nat {
    if d in dests then |SentTo(dests[d].closes, c)| else 0
  }

  function ClosesDown(s: State, k: nat): nat {
    DownTo(s.routers, Ses(s, k).owner, IdOf(k))
  }

  function ClosesUp(s: State, d: Name, k: nat): nat {
    UpTo(s.dests, d, IdOf(k))
  }

  predicate Present(s: State, k: nat) {
    HasEntry(Ses(s, k).phase)
  }

  /** The drain runs alone, on clients that are in the table. */
  ghost predicate DrainAlone(t: Table) {
    && (!t.zpc.ZWait? ==> t.cpc.CExit? && t.dpc.DExit? && t.tpc.TExit?)
    && (t.zpc.ZTellClient? || t.zpc.ZTellDest? || t.zpc.ZDrop? ==> t.zpc.id in t.clients)
  }

  ghost predicate NoStray(routers: map<Name, Router>, owner: Name, c: Id) {
    forall n :: n in routers && n != owner ==> SentTo(routers[n].closes, c) == []
  }

  ghost predicate KickInv(s: State, k: nat) {
    var c, owner := IdOf(k), Ses(s, k).owner;
    && DrainAlone(s.t)
    && ClosedOk(s.t, c, owner, Present(s, k), ClosesDown(s, k) > 0)
    && NoStray(s.routers, owner, c)
    && (SentTo(s.cCloses, c) != [] || SentTo(s.dCloses, c) != [] ==> Present(s, k))
  }

  lemma KnownFacts(cfg: Config, s: State, k: nat)
    requires ValidConfig(cfg) && TableInv(cfg, s) && ClientInv(cfg, s, k)
    ensures Known(cfg, s.t, IdOf(k), Ses(s, k).owner, Present(s, k))
  {
    hide MySession, RoutersOk, DestsOk, DestPcOk, UpHop, DownHop, AllBacked, Reached, Books, Times, Ages, SentTo,
      GotBy, For;
    var c := IdOf(k);
    if (s.t.cpc.COpen? || s.t.cpc.CAssign?) && s.t.cpc.o.id == c {
      AlreadyLinked(cfg, s, k);
    }
    if Present(s, k) {
      assert SessionWired(cfg, s.ses[k], s.t.now);
    }
    if c in s.t.clients {
      assert NamesOf(cfg, s.t.clients[c]);
    }
  }

  // ---------------------------------------------------------------- hub steps

  /** What a hub output adds to the accounts of a client. */
  lemma OutputCounts(cfg: Config, s: State, r: Option<(Table, Out)>, s': State, d: Name, k: nat)
    requires HubGo(cfg, s, r) == Some(s')
    ensures s'.ses == s.ses && s'.t == r.value.0 && s'.cCloses == s.cCloses && s'.dCloses == s.dCloses
    ensures ClosesDown(s', k) == ClosesDown(s, k) + ClientClose(r.value.1, Ses(s, k).owner, IdOf(k))
    ensures ClosesUp(s', d, k) == ClosesUp(s, d, k) + DestClose(r.value.1, d, IdOf(k))
    ensures NoStray(s.routers, Ses(s, k).owner, IdOf(k)) && OwnClose(r.value.1, Ses(s, k).owner, IdOf(k))
      ==> NoStray(s'.routers, Ses(s, k).owner, IdOf(k))
  {
    hide Sends, For;
    HubSends(cfg, s, r, s');
  }

  lemma GoKeepsKick(cfg: Config, s: State, r: Option<(Table, Out)>, s': State, k: nat)
    requires KickInv(s, k) && HubGo(cfg, s, r) == Some(s') && DrainAlone(r.value.0)
    requires ClosedOk(r.value.0, IdOf(k), Ses(s, k).owner, Present(s, k),
                      ClosesDown(s, k) > 0 || ToldNow(r.value.1, Ses(s, k).owner, IdOf(k)))
    requires OwnClose(r.value.1, Ses(s, k).owner, IdOf(k))
    ensures KickInv(s', k)
  {
    hide ClosedOk, DrainAlone, NoStray, OwnClose, Sends, Fits, ClosesDown, ClosesUp, SentTo, GotBy, For;
    OutputCounts(cfg, s, r, s', "", k);
  }

  lemma HubKicks(cfg: Config, s: State, st: HubStep, s': State, k: nat)
    requires ValidConfig(cfg) && TableInv(cfg, s) && ClientInv(cfg, s, k) && KickInv(s, k)
    requires HubDo(cfg, s, st) == Some(s')
    ensures KickInv(s', k)
  {
    hide TableInv, ClientInv, ClientGo, DestGo, TickGo, DrainGo, ClientIdle, DestIdle, Fits, Sends, ClosedOk, Known,
      NoStray, ClosesDown, OwnClose, SentTo, GotBy, For;
    KnownFacts(cfg, s, k);
    var c, owner, present, closed := IdOf(k), Ses(s, k).owner, Present(s, k), ClosesDown(s, k) > 0;
    match st
    case ByClientLoop(x) =>
      if s.t.cpc.CIdle? { ClientIdleKicks(s, x, s', k); } else {
        Awake(cfg, s.t, x.time, Begin);
        ClientGoCloses(cfg, s.t, x.time, c, owner, present, closed);
        ClientGoStays(cfg, s.t, x.time);
        GoKeepsKick(cfg, s, ClientGo(cfg, s.t, x.time), s', k);
      }
    case ByDestLoop(x) =>
      if s.t.dpc.DIdle? { DestIdleKicks(s, x, s', k); } else {
        Awake(cfg, s.t, x.time, Begin);
        DestGoCloses(cfg, s.t, x.time, c, owner, present, closed);
        DestGoStays(cfg, s.t, x.time);
        GoKeepsKick(cfg, s, DestGo(cfg, s.t, x.time), s', k);
      }
    case ByTicker(x) =>
      Awake(cfg, s.t, 0, x);
      TickGoCloses(cfg, s.t, x, c, owner, present, closed);
      TickGoStays(cfg, s.t, x);
      GoKeepsKick(cfg, s, TickGo(cfg, s.t, x), s', k);
    case ByDrain(pick) =>
      DrainGoCloses(cfg, s.t, pick, c, owner, present, closed);
      DrainStaysAlone(cfg, s.t, pick);
      GoKeepsKick(cfg, s, DrainGo(cfg, s.t, pick), s', k);
    case Quits => QuitKicks(s, s', k);
  }

  /** A goroutine that still runs has not ended. */
  lemma Awake(cfg: Config, t: Table, time: int, st: TickStep)
    ensures ClientGo(cfg, t, time).Some? ==> !t.cpc.CExit?
    ensures DestGo(cfg, t, time).Some? ==> !t.dpc.DExit?
    ensures TickGo(cfg, t, st).Some? ==> !t.tpc.TExit?
  {
    hide KickStep, Assign, Due;
  }

  lemma DrainStaysAlone(cfg: Config, t: Table, pick: Id)
    requires DrainAlone(t) && DrainGo(cfg, t, pick).Some?
    ensures DrainAlone(DrainGo(cfg, t, pick).value.0)
  {
  }

  lemma QuitKicks(s: State, s': State, k: nat)
    requires KickInv(s, k) && s.t.tpc.TIdle? && s' == s.(t := s.t.(tpc := TExit))
    ensures KickInv(s', k)
  {
    hide For, NoStray, DownTo, SentTo, GotBy;
  }

  lemma ClientIdleKicks(s: State, st: LoopStep, s': State, k: nat)
    requires KickInv(s, k) && s.t.cpc.CIdle? && ClientIdle(s, st) == Some(s')
    ensures KickInv(s', k)
  {
    hide For, NoStray, DownTo, Pending, SentTo, GotBy;
    if st.FromCloses? && s.cCloses.queue[0].id == IdOf(k) {
      HeadOf(s.cCloses, IdOf(k));
    }
  }

  lemma DestIdleKicks(s: State, st: LoopStep, s': State, k: nat)
    requires KickInv(s, k) && s.t.dpc.DIdle? && DestIdle(s, st) == Some(s')
    ensures KickInv(s', k)
  {
    hide For, NoStray, DownTo, Pending, SentTo, GotBy;
    if st.FromCloses? && s.dCloses.queue[0].id == IdOf(k) {
      HeadOf(s.dCloses, IdOf(k));
    }
  }

  // ---------------------------------------------------------------- other steps

  /** Steps outside the hub send no closes to routers or destinations and remove nobody. */
  ghost predicate Outside(s: State, s': State, k: nat) {
    var c := IdOf(k);
    && s'.t == s.t.(allocs := s'.t.allocs, now := s'.t.now, clients := s'.t.clients, inserted := s'.t.inserted,
                    made := s'.t.made)
    && s.t.clients.Keys <= s'.t.clients.Keys
    && (Present(s, k) ==> Present(s', k) && (c in s'.t.clients <==> c in s.t.clients))
    && (!Present(s, k) ==> c !in s.t.clients && (c in s'.t.clients <==> Present(s', k)))
    && (Ses(s', k).owner == Ses(s, k).owner || (!Present(s', k) && Ses(s, k).owner !in s.routers))
    && s'.routers.Keys == s.routers.Keys && s'.dests.Keys == s.dests.Keys
    && (forall n :: n in s.routers ==> SentTo(s'.routers[n].closes, c) == SentTo(s.routers[n].closes, c))
    && (forall d :: d in s.dests ==> SentTo(s'.dests[d].closes, c) == SentTo(s.dests[d].closes, c))
    && (SentTo(s'.cCloses, c) == SentTo(s.cCloses, c) || Present(s', k))
    && (SentTo(s'.dCloses, c) == SentTo(s.dCloses, c) || Present(s', k))
  }

  lemma OutsideKicks(s: State, s': State, k: nat)
    requires KickInv(s, k) && Outside(s, s', k)
    ensures KickInv(s', k)
  {
    hide Pending, SentTo;
  }

  lemma NotPresent(cfg: Config, s: State, k: nat)
    requires ClientInv(cfg, s, k)
    ensures !Present(s, k) ==> IdOf(k) !in s.t.clients
  {
    hide MySession, RoutersOk, DestsOk, ClientPcOk, DestPcOk, UpHop, DownHop, AllBacked, Reached, SentTo, GotBy, For;
  }

  lemma ClientSideOutside(cfg: Config, s: State, st: ClientStep, s': State, k: nat)
    requires ValidConfig(cfg) && TableInv(cfg, s) && ClientInv(cfg, s, k) && ClientDo(cfg, s, st) == Some(s')
    requires Distinct(s', k) && s.t.allocs <= s'.t.allocs
    ensures Outside(s, s', k)
  {
    hide TableOk, ClientInv, SessionDoes, TransportGo, RouterTake, RouterGives, Outside, DestsWired, SessionsWired,
      LinksWired, SentTo, GotBy, For;
    NotPresent(cfg, s, k);
    match st
    case Connection(r) => ConnectOutside(s, r, k);
    case Admit(n, time) => AdmitOutside(cfg, s, n, time, s', k);
    case Link(n) => LinkOutside(s, n, s', k);
    case Unlink(n) => RouterOutside(s, s.ses[n].owner, s'.routers[s.ses[n].owner], s', k);
    case BySession(n, x) => SessionOutside(cfg, s, n, x, s', k);
    case ByTransport(n, x) => TransportOutside(cfg, s, n, x, s', k);
    case ByRouter(n, x) =>
      TakeCloses(s.routers[n], x, s.shutdown, IdOf(k));
      RouterOutside(s, n, s'.routers[n], s', k);
    case Demux(n) => DemuxOutside(cfg, s, n, s', k);
  }

  lemma ConnectOutside(s: State, r: Name, k: nat)
    requires Serials(s.ses, s.t.allocs) && "" !in s.routers && (!Present(s, k) ==> IdOf(k) !in s.t.clients)
    ensures Outside(s, Connected(s, r), k)
  {
    hide SentTo;
  }

  lemma AdmitOutside(cfg: Config, s: State, n: nat, time: int, s': State, k: nat)
    requires n in s.ses && Admitted(cfg, s, n, s.ses[n], time) == Some(s')
    requires (!Present(s, k) ==> IdOf(k) !in s.t.clients)
    requires Serials(s.ses, s.t.allocs) && Distinct(s, k)
    ensures Outside(s, s', k)
  {
    hide Admitted, SentTo;
    Admits(cfg, s, n, time, s');
    if n != k {
      IdsDistinct(n, k);
    }
  }

  lemma LinkOutside(s: State, n: nat, s': State, k: nat)
    requires n in s.ses && LinkIn(s, n, s.ses[n]) == Some(s') && (!Present(s, k) ==> IdOf(k) !in s.t.clients)
    ensures Outside(s, s', k)
  {
    hide LinkIn, SentTo;
    Links(s, n, s');
  }

  lemma RouterOutside(s: State, n: Name, R: Router, s': State, k: nat)
    requires n in s.routers && s' == s.(routers := s.routers[n := R]) && (!Present(s, k) ==> IdOf(k) !in s.t.clients)
    requires SentTo(R.closes, IdOf(k)) == SentTo(s.routers[n].closes, IdOf(k))
    ensures Outside(s, s', k)
  {
    hide SentTo;
  }

  lemma TransportOutside(cfg: Config, s: State, n: nat, st: TransportStep, s': State, k: nat)
    requires n in s.ses && TransportDoes(cfg, s, n, st) == Some(s') && (!Present(s, k) ==> IdOf(k) !in s.t.clients)
    ensures Outside(s, s', k)
  {
    hide TransportGo, SentTo;
    TransportStays(cfg, s.ses[n], st);
  }

  lemma TakeCloses(R: Router, st: RouterStep, shutdown: bool, c: Id)
    requires RouterTake(R, st, shutdown).Some?
    ensures SentTo(RouterTake(R, st, shutdown).value.closes, c) == SentTo(R.closes, c)
  {
  }

  lemma SessionOutside(cfg: Config, s: State, n: nat, st: SessionStep, s': State, k: nat)
    requires n in s.ses && SessionDoes(cfg, s, n, st) == Some(s') && (!Present(s, k) ==> IdOf(k) !in s.t.clients)
    requires Serials(s.ses, s.t.allocs) && Distinct(s, k)
    ensures Outside(s, s', k)
  {
    hide SessionDoes, SessionGo, For;
    SessionEmits(cfg, s, n, st, s');
    SessionStays(cfg, s.ses[n], s.ses[n].cancelled || s.shutdown, st);
    if n != k {
      IdsDistinct(n, k);
    }
  }

  lemma DemuxOutside(cfg: Config, s: State, n: Name, s': State, k: nat)
    requires n in s.routers && RouterGives(cfg, s, n, s.routers[n]) == Some(s')
    requires (!Present(s, k) ==> IdOf(k) !in s.t.clients)
    ensures Outside(s, s', k)
  {
    hide RouterGives, Receive, SentTo;
    Gives(cfg, s, n, s');
    var R, id := s.routers[n], Holding(s.routers[n].pc).value;
    if id in R.links && R.links[id] in s.ses {
      ReceiveStays(cfg, s.ses[R.links[id]], R.pc);
    }
  }

  lemma DestSideOutside(cfg: Config, s: State, st: DestStep, s': State, k: nat)
    requires ClientInv(cfg, s, k) && DestDo(cfg, s, st) == Some(s')
    ensures Outside(s, s', k)
  {
    hide ClientInv, UdpTake, UdpGo, Hears, SentTo, Outside, GotBy;
    NotPresent(cfg, s, k);
    match st
    case ByUdp(d, u) =>
      if s.dests[d].pc.UIdle? {
        UdpTakeCloses(s.dests[d], u, s.shutdown, IdOf(k));
      } else {
        UdpGoStays(cfg, cfg.udp[d], s.dests[d]);
      }
      DestOutside(s, d, s'.dests[d], s', k);
    case UdpRefuse(d) => DestOutside(s, d, s'.dests[d], s', k);
    case ByListener(d, c, h) => HearOutside(cfg, s, d, c, h, s', k);
    case Transmit(d) => DestOutside(s, d, s'.dests[d], s', k);
    case Wipe(d) => DestOutside(s, d, s'.dests[d], s', k);
  }

  lemma DestOutside(s: State, d: Name, D: Dest, s': State, k: nat)
    requires d in s.dests && s' == s.(dests := s.dests[d := D], dVerdicts := s'.dVerdicts)
    requires (!Present(s, k) ==> IdOf(k) !in s.t.clients)
    requires SentTo(D.closes, IdOf(k)) == SentTo(s.dests[d].closes, IdOf(k))
    ensures Outside(s, s', k)
  {
    hide SentTo;
  }

  lemma HearOutside(cfg: Config, s: State, d: Name, c: Id, h: Heard, s': State, k: nat)
    requires ClientInv(cfg, s, k) && d in s.dests && c in s.dests[d].reg && Hears(cfg, s, c, h) == Some(s')
    requires !Present(s, k) ==> IdOf(k) !in s.t.clients
    ensures Outside(s, s', k)
  {
    hide ClientInv, Hears, SentTo;
    HearsOnly(cfg, s, c, h, s');
    if c == IdOf(k) {
      RegisteredReached(cfg, s, d, k);
      RoutedPresent(cfg, s, k);
    } else {
      Unsent(s.dCloses, Env(c, ()), IdOf(k));
    }
  }

  /** A message for another client. */
  lemma Unsent<T>(ch: Chan<Env<T>>, x: Env<T>, c: Id)
    requires x.id != c
    ensures SentTo(Post(ch, x), c) == SentTo(ch, c)
  {
    hide SentTo, Post;
    assert SentTo(ch, c) + [] == SentTo(ch, c);
  }

  lemma UdpTakeCloses(D: Dest, st: UdpStep, shutdown: bool, c: Id)
    requires UdpTake(D, st, shutdown).Some?
    ensures SentTo(UdpTake(D, st, shutdown).value.closes, c) == SentTo(D.closes, c)
  {
  }

  lemma RoutedPresent(cfg: Config, s: State, k: nat)
    requires ClientInv(cfg, s, k) && Get(s.t.routed, IdOf(k)).Some?
    ensures Present(s, k)
  {
    hide MySession, RoutersOk, DestsOk, ClientPcOk, DestPcOk, UpHop, DownHop, AllBacked, Reached, SentTo, GotBy, For;
  }

  lemma KeepsKicks(cfg: Config, s: State, st: Step, s': State, k: nat)
    requires ValidConfig(cfg) && TableInv(cfg, s) && ClientInv(cfg, s, k) && KickInv(s, k) && Do(cfg, s, st) == Some(s')
    requires Distinct(s', k)
    ensures KickInv(s', k)
  {
    hide TableInv, ClientInv, KickInv, HubDo, ClientDo, DestDo, SentTo;
    AllocsGrow(cfg, s, st, s');
    match st
    case AtHub(h) => HubKicks(cfg, s, h, s', k);
    case AtClient(c) => ClientSideOutside(cfg, s, c, s', k); OutsideKicks(s, s', k);
    case AtDest(d) => DestSideOutside(cfg, s, d, s', k); OutsideKicks(s, s', k);
    case _ => NotPresent(cfg, s, k); OutsideKicks(s, s', k);
  }

  lemma {:induction false} KickHolds(cfg: Config, r: Run, i: nat, k: nat)
    requires ValidConfig(cfg) && IsRun(cfg, r) && i < |r.states| && Distinct(r.states[i], k)
    ensures KickInv(r.states[i], k)
  {
    hide TableInv, ClientInv, KickInv, Do, Init, SentTo, GotBy, For;
    if i == 0 {
      KickInit(cfg, r.states[0], k);
    } else {
      AllocsGrow(cfg, r.states[i - 1], r.steps[i - 1], r.states[i]);
      TableHolds(cfg, r, i - 1);
      ClientHolds(cfg, r, i - 1, k);
      KickHolds(cfg, r, i - 1, k);
      KeepsKicks(cfg, r.states[i - 1], r.steps[i - 1], r.states[i], k);
    }
  }

  lemma KickInit(cfg: Config, s: State, k: nat)
    requires Init(cfg, s)
    ensures KickInv(s, k)
  {
  }

  /** However kicks overlap, a client that has left the table was sent a close through its own router. */
  lemma LeaversAreTold(cfg: Config, r: Run, i: nat, k: nat)
    requires ValidConfig(cfg) && IsRun(cfg, r) && i < |r.states| && Distinct(r.states[i], k)
    requires Present(r.states[i], k) && IdOf(k) !in r.states[i].t.clients
    ensures ClosesDown(r.states[i], k) >= 1
  {
    hide IsRun, SentTo, GotBy, For;
    KickHolds(cfg, r, i, k);
  }

  // ---------------------------------------------------------------- the drain

  lemma DrainBegins(cfg: Config, t: Table, pick: Id)
    requires DrainGo(cfg, t, pick).Some? && DrainAlone(t)
    ensures t.cpc.CExit? && t.dpc.DExit? && t.tpc.TExit?
  {
  }

  /** If the drain is over, then at the moment it ended the table was empty and every client accounted for. */
  lemma DrainEnded(cfg: Config, r: Run, j: nat) returns (i: nat)
    requires ValidConfig(cfg) && IsRun(cfg, r) && j < |r.states| && r.states[j].t.zpc.ZDone?
    ensures 0 < i <= j && !r.states[i - 1].t.zpc.ZDone? && r.states[i].t.zpc.ZDone?
    ensures r.states[i].t.clients == map[] && r.states[i].t.made == r.states[i].t.dropped
  {
    hide Do, Wired, Names, Times, Ages, PcsOk;
    i := j;
    while 0 < i && r.states[i - 1].t.zpc.ZDone?
      invariant i <= j && r.states[i].t.zpc.ZDone?
    {
      i := i - 1;
    }
    DrainEnds(cfg, r.states[i - 1], r.steps[i - 1], r.states[i]);
    TableHolds(cfg, r, i);
  }

  /** The only step that ends the drain finds the table empty. */
  lemma DrainEnds(cfg: Config, s: State, st: Step, s': State)
    requires Do(cfg, s, st) == Some(s') && !s.t.zpc.ZDone? && s'.t.zpc.ZDone?
    ensures s'.t.clients == map[]
  {
    hide HubDo, ClientDo, DestDo;
    match st
    case AtHub(h) =>
      HubFrame(cfg, s, h, s');
      DrainStep(cfg, s, h.pick, s');
    case AtClient(c) => ClientFrame(cfg, s, c, s');
    case AtDest(d) => DestFrame(cfg, s, d, s');
    case _ =>
  }

  lemma DrainStep(cfg: Config, s: State, pick: Id, s': State)
    requires HubDo(cfg, s, ByDrain(pick)) == Some(s') && !s.t.zpc.ZDone? && s'.t.zpc.ZDone?
    ensures s'.t.clients == map[]
  {
    hide HubGo, RouterAfter, DestAfter;
    HubSends(cfg, s, DrainGo(cfg, s.t, pick), s');
  }
}
