/**
 Every request the hub takes is served: an open leads to the first match or to a kick, and a close, from the
 client's side or from its destination, leads to a kick.
 */
module Requests {
  import opened Types
  import opened Channels
  import opened Machine
  import opened Frames
  import opened TableSafety
  import opened ClientInvariant
  import opened ClientSideProof
  import opened HubProof
  import opened Runs
  import opened Handshake
  import opened KickRuns

  predicate ClientKicks(p: ClientPc, c: Id) {
    p.CKick? && p.k.id == c
  }

  predicate DestKicks(p: DestPc, c: Id) {
    p.DKick? && p.k.id == c
  }

  /** The client-side goroutine has the client's request, or kicks the client. */
  predicate Serving(p: ClientPc, c: Id) {
    ((p.COpen? || p.CAssign?) && p.o.id == c) || ClientKicks(p, c)
  }

  /** What the hub owes a client that is in the table although the hub has taken a request of its. */
  ghost predicate Owed(t: Table, c: Id, opens: seq<Auth>, fromClient: seq<()>, fromDest: seq<()>) {
    c in t.clients ==>
      && (opens != [] ==> Serving(t.cpc, c) || c in t.routed)
      && (fromClient != [] ==> ClientKicks(t.cpc, c))
      && (fromDest != [] ==> DestKicks(t.dpc, c))
  }

  ghost predicate RequestInv(s: State, k: nat) {
    var c := IdOf(k);
    Owed(s.t, c, GotBy(s.cOpens, c), GotBy(s.cCloses, c), GotBy(s.dCloses, c))
  }

  // ---------------------------------------------------------------- the hub

  lemma ClientGoOwes(cfg: Config, t: Table, time: int, c: Id, opens: seq<Auth>, fromClient: seq<()>, fromDest: seq<()>)
    requires ClientGo(cfg, t, time).Some? && Owed(t, c, opens, fromClient, fromDest)
    requires c in t.clients && t.clients[c].dest != "" ==> c in t.routed
    ensures Owed(ClientGo(cfg, t, time).value.0, c, opens, fromClient, fromDest)
  {
    hide FirstMatch, CloseForClient, CloseForDest, ClientTable.ClientName;
    if t.cpc.CAssign? {
      ChoiceOrKick(cfg, t, t.cpc.o, time);
    }
  }

  lemma DestGoOwes(cfg: Config, t: Table, time: int, c: Id, opens: seq<Auth>, fromClient: seq<()>, fromDest: seq<()>)
    requires DestGo(cfg, t, time).Some? && Owed(t, c, opens, fromClient, fromDest)
    ensures Owed(DestGo(cfg, t, time).value.0, c, opens, fromClient, fromDest)
  {
    hide CloseForClient, CloseForDest, ClientTable.ClientName, ClientTable.DestName, Serving, ClientKicks;
  }

  lemma ClientIdleOwes(s: State, st: LoopStep, s': State, k: nat)
    requires RequestInv(s, k) && s.t.cpc.CIdle? && ClientIdle(s, st) == Some(s')
    ensures RequestInv(s', k)
  {
    hide SentTo, GotBy, For, DestKicks;
    var c := IdOf(k);
    assert GotBy(s.cOpens, c) + [] == GotBy(s.cOpens, c) && GotBy(s.cCloses, c) + [] == GotBy(s.cCloses, c);
  }

  lemma DestIdleOwes(s: State, st: LoopStep, s': State, k: nat)
    requires RequestInv(s, k) && s.t.dpc.DIdle? && DestIdle(s, st) == Some(s')
    ensures RequestInv(s', k)
  {
    hide SentTo, GotBy, For, Serving, ClientKicks;
    assert GotBy(s.dCloses, IdOf(k)) + [] == GotBy(s.dCloses, IdOf(k));
  }

  /** A client's entry names a destination only if the client was routed. */
  lemma NamedIsRouted(cfg: Config, s: State, k: nat)
    requires ClientInv(cfg, s, k)
    ensures IdOf(k) in s.t.clients && s.t.clients[IdOf(k)].dest != "" ==> IdOf(k) in s.t.routed
  {
    hide MySession, RoutersOk, DestsOk, ClientPcOk, DestPcOk, UpHop, DownHop, AllBacked, Reached, SentTo, GotBy, For;
  }

  lemma OthersOwe(t: Table, t': Table, c: Id, opens: seq<Auth>, fromClient: seq<()>, fromDest: seq<()>)
    requires Owed(t, c, opens, fromClient, fromDest) && (c in t'.clients ==> c in t.clients)
    requires t'.cpc == t.cpc && t'.dpc == t.dpc && t'.routed == t.routed
    ensures Owed(t', c, opens, fromClient, fromDest)
  {
    hide Serving, ClientKicks, DestKicks;
  }

  lemma HubOwes(cfg: Config, s: State, st: HubStep, s': State, k: nat)
    requires ClientInv(cfg, s, k) && RequestInv(s, k) && HubDo(cfg, s, st) == Some(s')
    ensures RequestInv(s', k)
  {
    hide ClientInv, ClientGo, DestGo, TickGo, DrainGo, HubGo, ClientIdle, DestIdle, Owed, SentTo, GotBy, For;
    var c := IdOf(k);
    match st
    case ByClientLoop(x) =>
      if s.t.cpc.CIdle? { ClientIdleOwes(s, x, s', k); } else {
        HubTable(cfg, s, ClientGo(cfg, s.t, x.time), s');
        NamedIsRouted(cfg, s, k);
        ClientGoOwes(cfg, s.t, x.time, c, GotBy(s.cOpens, c), GotBy(s.cCloses, c), GotBy(s.dCloses, c));
      }
    case ByDestLoop(x) =>
      if s.t.dpc.DIdle? { DestIdleOwes(s, x, s', k); } else {
        HubTable(cfg, s, DestGo(cfg, s.t, x.time), s');
        DestGoOwes(cfg, s.t, x.time, c, GotBy(s.cOpens, c), GotBy(s.cCloses, c), GotBy(s.dCloses, c));
      }
    case ByTicker(t) =>
      HubTable(cfg, s, TickGo(cfg, s.t, t), s');
      TickGoStays(cfg, s.t, t);
      TickShrinks(cfg, s.t, t, 0, c);
      OthersOwe(s.t, s'.t, c, GotBy(s.cOpens, c), GotBy(s.cCloses, c), GotBy(s.dCloses, c));
    case ByDrain(pick) =>
      HubTable(cfg, s, DrainGo(cfg, s.t, pick), s');
      DrainGoStays(cfg, s.t, pick);
      TickShrinks(cfg, s.t, Begin, pick, c);
      OthersOwe(s.t, s'.t, c, GotBy(s.cOpens, c), GotBy(s.cCloses, c), GotBy(s.dCloses, c));
    case Quits => OthersOwe(s.t, s'.t, c, GotBy(s.cOpens, c), GotBy(s.cCloses, c), GotBy(s.dCloses, c));
  }

  // ---------------------------------------------------------------- other steps

  /** Before a client is in the table it has asked for nothing, and nobody for it. */
  lemma QuietBefore(cfg: Config, s: State, k: nat)
    requires ClientInv(cfg, s, k) && KickInv(s, k) && !Present(s, k)
    ensures SentTo(s.cOpens, IdOf(k)) == [] && SentTo(s.cCloses, IdOf(k)) == [] && SentTo(s.dCloses, IdOf(k)) == []
  {
    hide ClientInv, SentTo, Kicks.ClosedOk, DrainAlone, NoStray;
    if SentTo(s.cOpens, IdOf(k)) != [] {
      AlreadyLinked(cfg, s, k);
    }
  }

  /** Outside the hub nobody takes its requests. */
  lemma ClientTakesNone(cfg: Config, s: State, st: ClientStep, s': State, c: Id)
    requires ClientDo(cfg, s, st) == Some(s')
    ensures GotBy(s'.cOpens, c) == GotBy(s.cOpens, c) && GotBy(s'.cCloses, c) == GotBy(s.cCloses, c)
    ensures GotBy(s'.dCloses, c) == GotBy(s.dCloses, c)
  {
    hide Admitted, LinkIn, SessionDoes, TransportGo, RouterTake, RouterGives, SessionGo, SentTo, GotBy, For;
    match st
    case Admit(n, time) => Admits(cfg, s, n, time, s');
    case Link(n) => Links(s, n, s');
    case BySession(n, x) => SessionEmits(cfg, s, n, x, s');
    case Demux(n) => Gives(cfg, s, n, s');
    case _ =>
  }

  lemma DestTakesNone(cfg: Config, s: State, st: DestStep, s': State, c: Id)
    requires DestDo(cfg, s, st) == Some(s')
    ensures GotBy(s'.dCloses, c) == GotBy(s.dCloses, c) && s'.cOpens == s.cOpens && s'.cCloses == s.cCloses
    ensures s'.t == s.t
  {
    hide UdpTake, UdpGo, Hears, SentTo, GotBy, For;
    if st.ByListener? {
      HearsOnly(cfg, s, st.id, st.h, s');
    }
  }

  lemma ClientOwes(cfg: Config, s: State, st: ClientStep, s': State, k: nat)
    requires ValidConfig(cfg) && TableInv(cfg, s) && ClientInv(cfg, s, k) && KickInv(s, k) && RequestInv(s, k)
    requires ClientDo(cfg, s, st) == Some(s') && Distinct(s', k) && s.t.allocs <= s'.t.allocs
    ensures RequestInv(s', k)
  {
    hide TableInv, ClientInv, KickInv, ClientDo, Serving, ClientKicks, DestKicks, SentTo, GotBy, For;
    var c := IdOf(k);
    ClientSideOutside(cfg, s, st, s', k);
    ClientTakesNone(cfg, s, st, s', c);
    if !Present(s, k) {
      QuietBefore(cfg, s, k);
      GotIsPrefix(s.cOpens, c);
      GotIsPrefix(s.cCloses, c);
      GotIsPrefix(s.dCloses, c);
    }
  }

  lemma StepOwes(cfg: Config, s: State, st: Step, s': State, k: nat)
    requires ValidConfig(cfg) && TableInv(cfg, s) && ClientInv(cfg, s, k) && KickInv(s, k) && RequestInv(s, k)
    requires Do(cfg, s, st) == Some(s') && Distinct(s', k)
    ensures RequestInv(s', k)
  {
    hide TableInv, ClientInv, KickInv, HubDo, ClientDo, DestDo, Serving, ClientKicks, DestKicks, SentTo, GotBy, For;
    AllocsGrow(cfg, s, st, s');
    match st
    case AtHub(h) => HubOwes(cfg, s, h, s', k);
    case AtClient(c) => ClientOwes(cfg, s, c, s', k);
    case AtDest(d) => DestTakesNone(cfg, s, d, s', IdOf(k));
    case _ =>
  }

  lemma {:induction false} RequestsHold(cfg: Config, r: Run, i: nat, k: nat)
    requires ValidConfig(cfg) && IsRun(cfg, r) && i < |r.states| && Distinct(r.states[i], k)
    ensures RequestInv(r.states[i], k)
  {
    hide TableInv, ClientInv, KickInv, RequestInv, Do, Init;
    if i == 0 {
      RequestInit(cfg, r.states[0], k);
    } else {
      AllocsGrow(cfg, r.states[i - 1], r.steps[i - 1], r.states[i]);
      TableHolds(cfg, r, i - 1);
      ClientHolds(cfg, r, i - 1, k);
      KickHolds(cfg, r, i - 1, k);
      RequestsHold(cfg, r, i - 1, k);
      StepOwes(cfg, r.states[i - 1], r.steps[i - 1], r.states[i], k);
    }
  }

  lemma RequestInit(cfg: Config, s: State, k: nat)
    requires Init(cfg, s)
    ensures RequestInv(s, k)
  {
  }

  // ---------------------------------------------------------------- theorems

  /**
   Once the hub has taken a client's open request and is no longer serving it, the client has left the table,
   or is routed to the first destination that claims its string.
   */
  lemma RequestIsAnswered(cfg: Config, r: Run, i: nat, k: nat)
    requires ValidConfig(cfg) && IsRun(cfg, r) && i < |r.states| && Distinct(r.states[i], k)
    requires GotBy(r.states[i].cOpens, IdOf(k)) != [] && !Serving(r.states[i].t.cpc, IdOf(k))
    ensures var s, c := r.states[i], IdOf(k);
      c in s.t.clients ==>
        && Get(s.t.routed, c).Some?
        && Get(s.t.routed, c) == FirstMatch(cfg.dests, cfg.matches, GotBy(s.cOpens, c)[0].conn)
  {
    hide IsRun, FirstMatch, Serving, SentTo, GotBy, For;
    RequestsHold(cfg, r, i, k);
    ChoiceHolds(cfg, r, i, k);
    GotIsPrefix(r.states[i].cOpens, IdOf(k));
  }

  /**
   No match leads to a kick: once the hub has a client's request that nobody claims, and is no longer
   serving it, the client is not in the table and was sent a close through its own router.
   */
  lemma UnclaimedIsKicked(cfg: Config, r: Run, i: nat, k: nat)
    requires ValidConfig(cfg) && IsRun(cfg, r) && i < |r.states| && Distinct(r.states[i], k)
    requires GotBy(r.states[i].cOpens, IdOf(k)) != []
    requires FirstMatch(cfg.dests, cfg.matches, GotBy(r.states[i].cOpens, IdOf(k))[0].conn) == None
    requires !Serving(r.states[i].t.cpc, IdOf(k))
    ensures IdOf(k) !in r.states[i].t.clients && Present(r.states[i], k) && ClosesDown(r.states[i], k) >= 1
  {
    hide IsRun, ClientInv, FirstMatch, Serving, ClosesDown, SentTo, GotBy, For;
    var s := r.states[i];
    RequestIsAnswered(cfg, r, i, k);
    GotIsPrefix(s.cOpens, IdOf(k));
    ClientHolds(cfg, r, i, k);
    AlreadyLinked(cfg, s, k);
    LeaversAreTold(cfg, r, i, k);
  }

  /**
   A close that the hub has taken, from the client's session or from its destination, leads to a kick: once the
   goroutine that took it is not kicking the client any more, the client is gone and was told.
   */
  lemma CloseIsKick(cfg: Config, r: Run, i: nat, k: nat)
    requires ValidConfig(cfg) && IsRun(cfg, r) && i < |r.states| && Distinct(r.states[i], k)
    requires var s, c := r.states[i], IdOf(k);
      || (GotBy(s.cCloses, c) != [] && !ClientKicks(s.t.cpc, c))
      || (GotBy(s.dCloses, c) != [] && !DestKicks(s.t.dpc, c))
    ensures IdOf(k) !in r.states[i].t.clients && Present(r.states[i], k) && ClosesDown(r.states[i], k) >= 1
  {
    hide IsRun, ClientKicks, DestKicks, Serving, ClosesDown, Kicks.ClosedOk, DrainAlone, NoStray, SentTo, GotBy, For;
    var s := r.states[i];
    RequestsHold(cfg, r, i, k);
    KickHolds(cfg, r, i, k);
    GotIsPrefix(s.cCloses, IdOf(k));
    GotIsPrefix(s.dCloses, IdOf(k));
    LeaversAreTold(cfg, r, i, k);
  }
}
