/** How a client is routed, and what had to happen before its data moves: statements about whole runs. */
module Handshake {
  import opened Types
  import opened Channels
  import opened ClientTable
  import opened UdpRules
  import opened Machine
  import opened Frames
  import opened Grammar
  import opened ClientInvariant
  import opened ClientSideProof
  import opened DestProof
  import opened Runs
  import opened Theorems

  // ---------------------------------------------------------------- accepting verdicts

  /** An accepting verdict datagram for client `c`, heard by a destination that has `c` registered. */
  ghost predicate HearsAccept(s: State, st: Step, d: Name, c: Id, app: Bytes) {
    && st.AtDest? && st.dest.ByListener? && st.dest.dest == d && st.dest.id == c
    && st.dest.h == HVerdict(true, app)
    && d in s.dests && c in s.dests[d].reg
  }

  /** The record of accepts only grows, by what a destination says. */
  lemma AcceptsGrow(cfg: Config, s: State, st: Step, s': State, c: Id)
    requires Do(cfg, s, st) == Some(s')
    ensures For(s'.accepts, c) == For(s.accepts, c) ||
      (exists d, app :: HearsAccept(s, st, d, c, app) && For(s'.accepts, c) == For(s.accepts, c) + [app])
  {
    hide HubDo, ClientDo, SentTo, GotBy, For;
    match st
    case AtHub(h) => HubFrame(cfg, s, h, s');
    case AtClient(x) => ClientFrame(cfg, s, x, s');
    case AtDest(x) =>
      if x.ByListener? {
        hide Hears;
        HearsOnly(cfg, s, x.id, x.h, s');
        if x.h.HVerdict? && x.h.accepted {
          LogFor(s.accepts, Env(x.id, x.h.app), c);
          assert For(s.accepts, c) + [] == For(s.accepts, c);
          if x.id == c {
            assert HearsAccept(s, st, x.dest, c, x.h.app);
          }
        }
      }
    case _ =>
  }

  /**
   Each recorded accept was heard at an earlier step of the run: the `n`-th one at a step that carried its
   application data, when exactly the `n` before it had been heard.
   */
  lemma {:induction false} AcceptWasHeard(cfg: Config, r: Run, i: nat, c: Id, n: nat) returns (j: nat, d: Name)
    requires IsRun(cfg, r) && i < |r.states| && n < |For(r.states[i].accepts, c)|
    ensures j < i && HearsAccept(r.states[j], r.steps[j], d, c, For(r.states[i].accepts, c)[n])
    ensures For(r.states[j].accepts, c) == For(r.states[i].accepts, c)[..n]
  {
    hide Do, HearsAccept;
    var before, after := For(r.states[i - 1].accepts, c), For(r.states[i].accepts, c);
    AcceptsGrow(cfg, r.states[i - 1], r.steps[i - 1], r.states[i], c);
    if n < |before| {
      j, d := AcceptWasHeard(cfg, r, i - 1, c, n);
      assert after[..n] == before[..n];
    } else {
      j := i - 1;
      var e, app :| HearsAccept(r.states[j], r.steps[j], e, c, app) && after == before + [app];
      d := e;
    }
  }

  // ---------------------------------------------------------------- routing

  /** The moment a client's destination is chosen: the first registered one that claims its string. */
  ghost predicate Chooses(cfg: Config, s: State, s': State, c: Id) {
    && s.t.cpc.CAssign? && s.t.cpc.o.id == c
    && Get(s'.t.routed, c) == FirstMatch(cfg.dests, cfg.matches, s.t.cpc.o.body.conn)
  }

  lemma StepRoutes(cfg: Config, s: State, st: Step, s': State, c: Id)
    requires Do(cfg, s, st) == Some(s')
    ensures Get(s'.t.routed, c) == Get(s.t.routed, c) || Chooses(cfg, s, s', c)
    ensures SentTo(s.cOpens, c) <= SentTo(s'.cOpens, c)
  {
    hide HubDo, ClientDo, DestDo, SentTo, GotBy, For;
    match st
    case AtHub(h) => HubRoutes(cfg, s, h, s', c);
    case AtClient(x) => ClientFrame(cfg, s, x, s'); ClientOpens(cfg, s, x, s', c);
    case AtDest(x) => DestFrame(cfg, s, x, s');
    case _ =>
  }

  lemma HubRoutes(cfg: Config, s: State, st: HubStep, s': State, c: Id)
    requires HubDo(cfg, s, st) == Some(s')
    ensures Get(s'.t.routed, c) == Get(s.t.routed, c) || Chooses(cfg, s, s', c)
    ensures SentTo(s'.cOpens, c) == SentTo(s.cOpens, c)
  {
    hide DestGo, TickGo, DrainGo, ClientIdle, DestIdle, HubGo, ClientGo, Chooses, SentTo;
    match st
    case ByClientLoop(x) =>
      if s.t.cpc.CIdle? { IdleOpens(s, x, s', c); } else { GoRoutes(cfg, s, x.time, s', c); }
    case ByDestLoop(x) =>
      if s.t.dpc.DIdle? { DestTakes(s, x, s'); }
      else { HubTable(cfg, s, DestGo(cfg, s.t, x.time), s'); DestGoStays(cfg, s.t, x.time); }
    case ByTicker(t) => HubTable(cfg, s, TickGo(cfg, s.t, t), s'); TickGoStays(cfg, s.t, t);
    case ByDrain(pick) => HubTable(cfg, s, DrainGo(cfg, s.t, pick), s'); DrainGoStays(cfg, s.t, pick);
    case Quits =>
  }

  lemma IdleOpens(s: State, st: LoopStep, s': State, c: Id)
    requires ClientIdle(s, st) == Some(s')
    ensures SentTo(s'.cOpens, c) == SentTo(s.cOpens, c) && s'.t.routed == s.t.routed
  {
  }

  lemma GoRoutes(cfg: Config, s: State, time: int, s': State, c: Id)
    requires HubGo(cfg, s, ClientGo(cfg, s.t, time)) == Some(s')
    ensures Get(s'.t.routed, c) == Get(s.t.routed, c) || Chooses(cfg, s, s', c)
    ensures s'.cOpens == s.cOpens
  {
    hide HubGo, KickStep, FirstMatch, SetDest, StampClient;
    if s.t.cpc.CKick? {
      KickStays(cfg, s.t, s.t.cpc.k);
    }
    HubTable(cfg, s, ClientGo(cfg, s.t, time), s');
  }

  lemma ClientOpens(cfg: Config, s: State, st: ClientStep, s': State, c: Id)
    requires ClientDo(cfg, s, st) == Some(s')
    ensures SentTo(s.cOpens, c) <= SentTo(s'.cOpens, c) && GotBy(s'.cOpens, c) == GotBy(s.cOpens, c)
  {
    hide Admitted, LinkIn, SessionDoes, TransportGo, RouterTake, RouterGives, SessionGo, SentTo, GotBy, For;
    match st
    case Admit(n, time) => Admits(cfg, s, n, time, s');
    case Link(n) => Links(s, n, s');
    case BySession(n, x) => SessionEmits(cfg, s, n, x, s');
    case Demux(n) => Gives(cfg, s, n, s');
    case _ =>
  }

  /** A client that is about to be routed has not been routed before, and asks with its own packet. */
  lemma ChoiceIsFirst(cfg: Config, s: State, k: nat)
    requires ClientInv(cfg, s, k) && s.t.cpc.CAssign? && s.t.cpc.o.id == IdOf(k)
    ensures Get(s.t.routed, IdOf(k)) == None && SentTo(s.cOpens, IdOf(k)) == [s.t.cpc.o.body]
  {
    hide MySession, RoutersOk, DestsOk, EntryOk, DestPcOk, UpHop, DownHop, AllBacked, Reached, SentTo, GotBy, For;
  }

  lemma RoutedAsked(cfg: Config, s: State, k: nat)
    requires ClientInv(cfg, s, k)
    ensures Get(s.t.routed, IdOf(k)).Some? ==> SentTo(s.cOpens, IdOf(k)) != []
  {
    hide MySession, RoutersOk, DestsOk, ClientPcOk, DestPcOk, UpHop, DownHop, AllBacked, Reached, SentTo, GotBy, For;
  }

  /** A client's destination is chosen once and for good, whatever else happens. */
  lemma {:induction false} RouteIsFixed(cfg: Config, r: Run, i: nat, j: nat, k: nat)
    requires ValidConfig(cfg) && IsRun(cfg, r) && i <= j < |r.states| && Distinct(r.states[j], k)
    requires Get(r.states[i].t.routed, IdOf(k)).Some?
    ensures Get(r.states[j].t.routed, IdOf(k)) == Get(r.states[i].t.routed, IdOf(k))
  {
    hide ClientInv, Do, SentTo, GotBy, For;
    if i < j {
      AllocsGrow(cfg, r.states[j - 1], r.steps[j - 1], r.states[j]);
      RouteIsFixed(cfg, r, i, j - 1, k);
      ClientHolds(cfg, r, j - 1, k);
      StepRoutes(cfg, r.states[j - 1], r.steps[j - 1], r.states[j], IdOf(k));
      if Get(r.states[j].t.routed, IdOf(k)) != Get(r.states[j - 1].t.routed, IdOf(k)) {
        ChoiceIsFirst(cfg, r.states[j - 1], k);
      }
    }
  }

  ghost predicate FirstChoice(cfg: Config, s: State, k: nat) {
    var route, opens := Get(s.t.routed, IdOf(k)), SentTo(s.cOpens, IdOf(k));
    route.Some? ==> opens != [] && FirstMatch(cfg.dests, cfg.matches, opens[0].conn) == route
  }

  lemma {:induction false} ChoiceHolds(cfg: Config, r: Run, i: nat, k: nat)
    requires ValidConfig(cfg) && IsRun(cfg, r) && i < |r.states| && Distinct(r.states[i], k)
    ensures FirstChoice(cfg, r.states[i], k)
  {
    hide ClientInv, Do, FirstMatch, SentTo, GotBy, For;
    if i > 0 {
      AllocsGrow(cfg, r.states[i - 1], r.steps[i - 1], r.states[i]);
      ChoiceHolds(cfg, r, i - 1, k);
      ClientHolds(cfg, r, i - 1, k);
      RoutedAsked(cfg, r.states[i - 1], k);
      StepRoutes(cfg, r.states[i - 1], r.steps[i - 1], r.states[i], IdOf(k));
      if Get(r.states[i].t.routed, IdOf(k)) != Get(r.states[i - 1].t.routed, IdOf(k)) {
        ChoiceIsFirst(cfg, r.states[i - 1], k);
      }
    }
  }

  // ---------------------------------------------------------------- theorems

  /** Whichever duplicate opens and removals happen, at most one open command leaves the hub for a client. */
  lemma AtMostOneOpen(cfg: Config, r: Run, i: nat, k: nat, d: Name, e: Name)
    requires ValidConfig(cfg) && IsRun(cfg, r) && i < |r.states| && Distinct(r.states[i], k)
    requires d in r.states[i].dests && e in r.states[i].dests
    requires SentTo(r.states[i].dests[d].opens, IdOf(k)) != [] && SentTo(r.states[i].dests[e].opens, IdOf(k)) != []
    ensures d == e && |SentTo(r.states[i].dests[d].opens, IdOf(k))| == 1
    ensures Get(r.states[i].t.routed, IdOf(k)) == Some(d)
  {
    hide IsRun, RoutersOk, DestOk, UpOk, FacingOk, AllBacked, Faced, HubOk, SentTo, GotBy, For;
    ClientHolds(cfg, r, i, k);
    var s := r.states[i];
    assert RouteOk(d, s.dests[d], IdOf(k), Get(s.t.routed, IdOf(k)), SentTo(s.cOpens, IdOf(k)), s.t.cpc);
    assert RouteOk(e, s.dests[e], IdOf(k), Get(s.t.routed, IdOf(k)), SentTo(s.cOpens, IdOf(k)), s.t.cpc);
  }

  /** A client is routed to a destination exactly when its open has been forwarded there, or is about to be. */
  lemma OpenIffRouted(cfg: Config, r: Run, i: nat, k: nat, d: Name)
    requires ValidConfig(cfg) && IsRun(cfg, r) && i < |r.states| && Distinct(r.states[i], k) && d in r.states[i].dests
    ensures var s, c := r.states[i], IdOf(k);
      Get(s.t.routed, c) == Some(d) <==>
      SentTo(s.dests[d].opens, c) != [] || (s.t.cpc.CForward? && s.t.cpc.o.id == c && s.t.cpc.dn == d)
  {
    hide IsRun, MySession, RoutersOk, DestOk, DestPcOk, UpHop, DownHop, AllBacked, Reached, SentTo, GotBy, For;
    ClientHolds(cfg, r, i, k);
    var s := r.states[i];
    assert RouteOk(d, s.dests[d], IdOf(k), Get(s.t.routed, IdOf(k)), SentTo(s.cOpens, IdOf(k)), s.t.cpc);
  }

  /** A destination that was sent anything for a client is the first match of the client's connection string. */
  lemma Dispatch(cfg: Config, r: Run, i: nat, k: nat, d: Name)
    requires ValidConfig(cfg) && IsRun(cfg, r) && i < |r.states| && Distinct(r.states[i], k)
    requires Queued(r.states[i], d, k) != []
    ensures Pushed(r.states[i], k) != [] && cfg.parse(Pushed(r.states[i], k)[0]).Some?
    ensures FirstMatch(cfg.dests, cfg.matches, cfg.parse(Pushed(r.states[i], k)[0]).value.conn) == Some(d)
    ensures Get(r.states[i].t.routed, IdOf(k)) == Some(d)
  {
    hide IsRun, MySession, HubOk, RoutersOk, DestOk, FirstMatch, Talked, SentTo, GotBy, For;
    var s := r.states[i];
    ClientHolds(cfg, r, i, k);
    ChoiceHolds(cfg, r, i, k);
    QueuedAsked(cfg.udp[d], s.dests[d], IdOf(k));
    AskedFacts(cfg, s, d, k);
    GotIsPrefix(s.dests[d].opens, IdOf(k));
    assert RouteOk(d, s.dests[d], IdOf(k), Get(s.t.routed, IdOf(k)), SentTo(s.cOpens, IdOf(k)), s.t.cpc);
  }

  /** The host a client's first packet names, if its destination can resolve it. */
  function HostOf(cfg: Config, s: State, d: Name, k: nat): Option<string> {
    if Pushed(s, k) == [] || d !in cfg.udp then None
    else
      var auth := cfg.parse(Pushed(s, k)[0]);
      if auth.None? then None else cfg.udp[d].host(auth.value.conn)
  }

  /** `a` is where destination `d` may send client `k`'s datagrams: its own host, which the policy allows. */
  ghost predicate Permitted(cfg: Config, s: State, d: Name, k: nat, a: Addr) {
    && HostOf(cfg, s, d, k).Some?
    && var u, host := cfg.udp[d], HostOf(cfg, s, d, k).value;
       host !in u.deny && (u.allowAll || host in u.allow) && u.address(host) == Some(a)
  }

  /** Every registered address, and the address of every queued datagram, is permitted. */
  lemma AddressPolicy(cfg: Config, r: Run, i: nat, k: nat, d: Name, j: nat)
    requires ValidConfig(cfg) && IsRun(cfg, r) && i < |r.states| && Distinct(r.states[i], k) && d in r.states[i].dests
    ensures var s, c := r.states[i], IdOf(k);
      && (c in s.dests[d].reg ==> Permitted(cfg, s, d, k, s.dests[d].reg[c]))
      && (j < |Queued(s, d, k)| ==> Permitted(cfg, s, d, k, Queued(s, d, k)[j].to))
  {
    hide IsRun, MySession, HubOk, RoutersOk, RouteOk, Talked, UdpHop, TalkOk, SentTo, GotBy, For;
    var s, c := r.states[i], IdOf(k);
    ClientHolds(cfg, r, i, k);
    AskedFacts(cfg, s, d, k);
    Delivery(cfg, r, i, k, d);
    if j < |Queued(s, d, k)| {
      hide DestsOk;
      OneAddress(Queued(s, d, k), j);
    }
  }

  /** The datagrams of an orderly conversation all have one address. */
  lemma OneAddress(q: seq<Datagram>, j: nat)
    requires j < |q| && !Talked(q).Garbled?
    ensures !Talked(q).NotOpened? && q[j].to == Talked(q).to
  {
    hide Talked;
    TalkedShape(q);
  }

  /** A client whose string nobody claims is never routed, and no destination is sent anything for it. */
  lemma NoMatchNoOpen(cfg: Config, r: Run, i: nat, k: nat, d: Name)
    requires ValidConfig(cfg) && IsRun(cfg, r) && i < |r.states| && Distinct(r.states[i], k) && d in r.states[i].dests
    requires SentTo(r.states[i].cOpens, IdOf(k)) != []
    requires FirstMatch(cfg.dests, cfg.matches, SentTo(r.states[i].cOpens, IdOf(k))[0].conn) == None
    ensures Get(r.states[i].t.routed, IdOf(k)) == None
    ensures SentTo(r.states[i].dests[d].opens, IdOf(k)) == [] && SentTo(r.states[i].dests[d].msgs, IdOf(k)) == []
    ensures Queued(r.states[i], d, k) == []
  {
    hide IsRun, MySession, HubOk, RoutersOk, DestOk, FirstMatch, SentTo, GotBy, For;
    var s := r.states[i];
    ClientHolds(cfg, r, i, k);
    ChoiceHolds(cfg, r, i, k);
    assert RouteOk(d, s.dests[d], IdOf(k), Get(s.t.routed, IdOf(k)), SentTo(s.cOpens, IdOf(k)), s.t.cpc);
    GotIsPrefix(s.dests[d].opens, IdOf(k));
    if Queued(s, d, k) != [] {
      QueuedAsked(cfg.udp[d], s.dests[d], IdOf(k));
    }
  }

  /** The choice itself: without a match, or if the client has gone, it leads to a kick and assigns nothing. */
  lemma ChoiceOrKick(cfg: Config, t: Table, o: Env<Auth>, time: int)
    requires t.cpc == CAssign(o)
    ensures var t', first := ClientGo(cfg, t, time).value.0, FirstMatch(cfg.dests, cfg.matches, o.body.conn);
      && ClientGo(cfg, t, time).value.1 == Nothing
      && (first.None? || o.id !in t.clients <==> t'.cpc == CKick(LookClient(o.id)))
      && (t'.cpc.CKick? ==> t' == t.(cpc := t'.cpc))
      && (!t'.cpc.CKick? ==> t'.cpc == CForward(o, first.value) && t'.clients == SetDest(t.clients, o.id, first.value))
  {
  }

  lemma QueuedAsked(u: UdpConfig, D: Dest, c: Id)
    requires DestOk(u, D, c) && SentTo(D.out, c) != []
    ensures GotBy(D.opens, c) != []
  {
    hide Target, UdpHop, SentTo, GotBy, For;
    TalkedShape(SentTo(D.out, c));
  }

  /**
   Handshake safety: data is queued for a destination only after that destination accepted the client
   in a verdict datagram it sent while the client was registered with it.
   */
  lemma HandshakeSafety(cfg: Config, r: Run, i: nat, k: nat, d: Name) returns (j: nat)
    requires ValidConfig(cfg) && IsRun(cfg, r) && i < |r.states| && Distinct(r.states[i], k)
    requires SentData(Talked(Queued(r.states[i], d, k))) != []
    ensures j < i && r.steps[j].AtDest? && r.steps[j].dest.ByListener? && r.steps[j].dest.h.HVerdict?
    ensures HearsAccept(r.states[j], r.steps[j], d, IdOf(k), r.steps[j].dest.h.app)
  {
    hide Do, ClientInv, FirstMatch, Target;
    Delivery(cfg, r, i, k, d);
    var e: Name;
    j, e := AcceptWasHeard(cfg, r, i, IdOf(k), 0);
    AllocsBelow(cfg, r, j, i);
    ClientHolds(cfg, r, j, k);
    RegisteredReached(cfg, r.states[j], e, k);
    RouteIsFixed(cfg, r, j, i, k);
    Dispatch(cfg, r, i, k, d);
  }

  /** The accept a client was shown is one its own destination sent, with the same application data. */
  lemma ShownAcceptWasHeard(cfg: Config, r: Run, i: nat, k: nat) returns (j: nat, d: Name)
    requires ValidConfig(cfg) && IsRun(cfg, r) && i < |r.states| && Distinct(r.states[i], k)
    requires Faced(Handed(r.states[i], k)).Accepted?
    ensures j < i && HearsAccept(r.states[j], r.steps[j], d, IdOf(k), Faced(Handed(r.states[i], k)).app)
    ensures Get(r.states[i].t.routed, IdOf(k)) == Some(d)
  {
    hide Do, ClientInv, Faced, Handed, For;
    Delivery(cfg, r, i, k, "");
    var accepts, app := For(r.states[i].accepts, IdOf(k)), Faced(Handed(r.states[i], k)).app;
    var n :| 0 <= n < |accepts| && accepts[n] == app;
    j, d := AcceptWasHeard(cfg, r, i, IdOf(k), n);
    AllocsBelow(cfg, r, j, i);
    ClientHolds(cfg, r, j, k);
    RegisteredReached(cfg, r.states[j], d, k);
    RouteIsFixed(cfg, r, j, i, k);
  }
}
