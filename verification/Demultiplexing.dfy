/**
 The router in the machine and the router object agree: one step of the demultiplexer puts on the client's own
 channels what `ClientRouters.Handle` puts on its queues. Over runs, no close is lost between the router and a
 client that stays linked.
 */
module Demultiplexing {
  import opened Types
  import opened Channels
  import opened Machine
  import opened Frames
  import opened TableSafety
  import opened ClientInvariant
  import opened ClientSideProof
  import opened Runs
  import opened Verdicts
  import ClientRouters

  // ---------------------------------------------------------------- agreement with the object

  /** The command the demultiplexer holds. */
  function CommandOf(p: RouterPc): Option<ClientRouters.Command> {
    match p
    case RMsg(m) => Some(ClientRouters.Message(m.id, m.body))
    case RVerdict(v) => Some(ClientRouters.Answer(v.id, v.body))
    case RClose(id) => Some(ClientRouters.Close(id))
    case _ => None
  }

  /** What a client's own channels gain from a command. */
  ghost predicate Gains(S: Session, S': Session, c: ClientRouters.Command, id: Id) {
    && S'.outQ.Sent() == S.outQ.Sent() + ClientRouters.DataOf(c, id)
    && S'.verdictQ.Sent() == S.verdictQ.Sent() + ClientRouters.AnswerOf(c, id)
    && |S'.closeReq.Sent()| == |S.closeReq.Sent()| + ClientRouters.CloseOf(c, id)
    && S' == S.(outQ := S'.outQ, verdictQ := S'.verdictQ, closeReq := S'.closeReq)
  }

  lemma ReceiveGains(cfg: Config, S: Session, p: RouterPc, id: Id)
    requires Receive(cfg, S, p).Some? && CommandOf(p).Some? && Holding(p) == Some(id)
    ensures Gains(S, Receive(cfg, S, p).value, CommandOf(p).value, id)
  {
    assert S.outQ.Sent() + [] == S.outQ.Sent() && S.verdictQ.Sent() + [] == S.verdictQ.Sent();
  }

  lemma NamesAnother(S: Session, c: ClientRouters.Command, id: Id)
    requires c.id != id
    ensures Gains(S, S, c, id)
  {
    assert S.outQ.Sent() + [] == S.outQ.Sent() && S.verdictQ.Sent() + [] == S.verdictQ.Sent();
  }

  /**
   One step of the demultiplexer serves the command it holds as the object's loop does: the channels of each
   client linked at this router gain exactly what the command says, and no other session changes.
   */
  lemma DemuxAgrees(cfg: Config, s: State, n: Name, s': State, id: Id)
    requires n in s.routers && RouterGives(cfg, s, n, s.routers[n]) == Some(s') && LinksWired(s.routers)
    requires id in s.routers[n].links && s.routers[n].links[id] in s.ses
    ensures var k := s.routers[n].links[id];
      && CommandOf(s.routers[n].pc).Some? && k in s'.ses
      && Gains(s.ses[k], s'.ses[k], CommandOf(s.routers[n].pc).value, id)
    ensures s'.routers == s.routers[n := s.routers[n].(pc := RIdle)] && s'.t == s.t && s'.dests == s.dests
    ensures forall m :: m in s.ses && m !in s.routers[n].links.Values ==> m in s'.ses && s'.ses[m] == s.ses[m]
  {
    hide RouterGives, Receive, Gains;
    Gives(cfg, s, n, s');
    var R, k := s.routers[n], s.routers[n].links[id];
    var held := Holding(R.pc).value;
    assert LinksOk(R.links);
    if held == id {
      ReceiveGains(cfg, s.ses[k], R.pc, id);
    } else {
      NamesAnother(s.ses[k], CommandOf(R.pc).value, id);
    }
  }

  /** A router takes the next command of the channel it reads, and holds it. */
  lemma TakeAgrees(R: Router, st: RouterStep, shutdown: bool)
    requires RouterTake(R, st, shutdown).Some? && !st.Leave?
    ensures var R' := RouterTake(R, st, shutdown).value;
      && R'.links == R.links
      && match st {
           case TakeMsg => R.msgs.queue != [] && R'.msgs.queue == R.msgs.queue[1..] &&
             CommandOf(R'.pc) == Some(ClientRouters.Message(R.msgs.queue[0].id, R.msgs.queue[0].body))
           case TakeVerdict => R.verdicts.queue != [] && R'.verdicts.queue == R.verdicts.queue[1..] &&
             CommandOf(R'.pc) == Some(ClientRouters.Answer(R.verdicts.queue[0].id, R.verdicts.queue[0].body))
           case TakeClose => R.closes.queue != [] && R'.closes.queue == R.closes.queue[1..] &&
             CommandOf(R'.pc) == Some(ClientRouters.Close(R.closes.queue[0].id))
           case Leave => true
         }
  {
  }

  /** Linking and unlinking do to the machine's map what `AddConnection` and `Remove` do to the object's. */
  lemma LinkAgrees(s: State, n: nat, s': State)
    requires n in s.ses && LinkIn(s, n, s.ses[n]) == Some(s')
    ensures var owner, id := s.ses[n].owner, IdOf(n);
      && owner in s.routers && owner in s'.routers && n in s'.ses
      && (id in s.routers[owner].links ==> s'.routers == s.routers && s'.ses[n].phase.LinkFailed?)
      && (id !in s.routers[owner].links ==>
          s'.routers[owner].links == s.routers[owner].links[id := n] && s'.ses[n].phase.WaitAuth?)
  {
  }

  lemma UnlinkAgrees(cfg: Config, s: State, n: nat, s': State)
    requires ClientDo(cfg, s, Unlink(n)) == Some(s')
    ensures n in s.ses && s.ses[n].owner in s.routers && s.ses[n].owner in s'.routers
    ensures s'.routers[s.ses[n].owner].links == s.routers[s.ses[n].owner].links - {IdOf(n)}
    ensures s' == s.(routers := s'.routers)
  {
  }

  // ---------------------------------------------------------------- closes

  function HeldClose(p: RouterPc, c: Id): nat {
    If(p.RClose? && p.id == c)
  }

  /** Closes for the client that its router took and that are not on their way to the session: those it dropped. */
  function CloseLag(R: Router, S: Session, c: Id): int {
    |GotBy(R.closes, c)| - |S.closeReq.Sent()| - HeldClose(R.pc, c)
  }

  ghost predicate IsLinked(s: State, k: nat) {
    Ses(s, k).owner in s.routers && IdOf(k) in s.routers[Ses(s, k).owner].links
  }

  /** The router of a client. */
  function MyRouter(s: State, k: nat): Router {
    if Ses(s, k).owner in s.routers then s.routers[Ses(s, k).owner] else NEW_ROUTER
  }

  function LagOf(s: State, k: nat): int {
    CloseLag(MyRouter(s, k), Ses(s, k), IdOf(k))
  }

  lemma TakeLag(R: Router, st: RouterStep, shutdown: bool, S: Session, c: Id)
    requires RouterTake(R, st, shutdown).Some?
    ensures CloseLag(RouterTake(R, st, shutdown).value, S, c) == CloseLag(R, S, c)
  {
    hide SentTo, GotBy, For;
  }

  lemma OutLag(n: Name, R: Router, o: Out, S: Session, c: Id)
    ensures CloseLag(RouterAfter(n, R, o), S, c) == CloseLag(R, S, c)
  {
    hide SentTo, GotBy, For;
  }

  lemma SessionLag(cfg: Config, S: Session, done: bool, st: SessionStep, R: Router, c: Id)
    requires SessionGo(cfg, S, done, st).Some?
    ensures CloseLag(R, SessionGo(cfg, S, done, st).value.0, c) == CloseLag(R, S, c)
  {
    hide GotBy;
  }

  lemma DemuxLag(cfg: Config, s: State, n: Name, s': State, k: nat)
    requires ClientInv(cfg, s, k) && n in s.routers && RouterGives(cfg, s, n, s.routers[n]) == Some(s')
    requires LinksWired(s.routers) && IsLinked(s, k)
    ensures Ses(s', k).owner == Ses(s, k).owner && LagOf(s', k) == LagOf(s, k)
  {
    hide RouterGives, Receive, ClientInv, GotBy;
    var owner := Ses(s, k).owner;
    LinkFacts(cfg, s, owner, k);
    if n == owner {
      DemuxAgrees(cfg, s, n, s', IdOf(k));
    } else {
      LinkFacts(cfg, s, n, k);
      Gives(cfg, s, n, s');
      assert LinksOk(s.routers[n].links);
      var id := Holding(s.routers[n].pc).value;
      if id in s.routers[n].links && s.routers[n].links[id] in s.ses {
        ReceiveStays(cfg, s.ses[s.routers[n].links[id]], s.routers[n].pc);
      }
    }
  }

  lemma HubLag(cfg: Config, s: State, st: HubStep, s': State, k: nat)
    requires HubDo(cfg, s, st) == Some(s')
    ensures LagOf(s', k) == LagOf(s, k)
  {
    hide ClientGo, DestGo, TickGo, DrainGo, HubGo, ClientIdle, DestIdle, CloseLag;
    match st
    case ByClientLoop(x) =>
      if s.t.cpc.CIdle? { ClientTakes(s, x, s'); } else { GoLag(cfg, s, ClientGo(cfg, s.t, x.time), s', k); }
    case ByDestLoop(x) =>
      if s.t.dpc.DIdle? { DestTakes(s, x, s'); } else { GoLag(cfg, s, DestGo(cfg, s.t, x.time), s', k); }
    case ByTicker(t) => GoLag(cfg, s, TickGo(cfg, s.t, t), s', k);
    case ByDrain(pick) => GoLag(cfg, s, DrainGo(cfg, s.t, pick), s', k);
    case Quits =>
  }

  lemma GoLag(cfg: Config, s: State, r: Option<(Table, Out)>, s': State, k: nat)
    requires HubGo(cfg, s, r) == Some(s')
    ensures LagOf(s', k) == LagOf(s, k)
  {
    hide HubGo, RouterAfter, DestAfter, CloseLag;
    HubSends(cfg, s, r, s');
    var owner := Ses(s, k).owner;
    if owner in s.routers {
      OutLag(owner, s.routers[owner], r.value.1, Ses(s, k), IdOf(k));
    }
  }

  lemma ClientLag(cfg: Config, s: State, st: ClientStep, s': State, k: nat)
    requires TableInv(cfg, s) && ClientInv(cfg, s, k) && ClientDo(cfg, s, st) == Some(s') && IsLinked(s, k)
    ensures LagOf(s', k) == LagOf(s, k)
  {
    hide TableOk, ClientInv, Admitted, LinkIn, SessionDoes, SessionGo, TransportGo, RouterTake, RouterGives,
      RoutersWired, DestsWired, SessionsWired, LinksWired, GotBy, HeldClose;
    LinkFacts(cfg, s, Ses(s, k).owner, k);
    match st
    case Admit(n, time) => Admits(cfg, s, n, time, s');
    case Link(n) => Links(s, n, s');
    case BySession(n, x) =>
      SessionEmits(cfg, s, n, x, s');
      SessionStays(cfg, s.ses[n], s.ses[n].cancelled || s.shutdown, x);
      SessionLag(cfg, s.ses[n], s.ses[n].cancelled || s.shutdown, x, s.routers[Ses(s, k).owner], IdOf(k));
    case ByTransport(n, x) => TransportStays(cfg, s.ses[n], x);
    case ByRouter(n, x) => TakeLag(s.routers[n], x, s.shutdown, Ses(s, k), IdOf(k));
    case Demux(n) => DemuxLag(cfg, s, n, s', k);
    case _ =>
  }

  lemma KeepsLag(cfg: Config, s: State, st: Step, s': State, k: nat)
    requires TableInv(cfg, s) && ClientInv(cfg, s, k) && Do(cfg, s, st) == Some(s') && IsLinked(s, k)
    ensures LagOf(s', k) == LagOf(s, k)
  {
    hide TableInv, ClientInv, HubDo, ClientDo, DestDo, CloseLag;
    match st
    case AtHub(h) => HubLag(cfg, s, h, s', k);
    case AtClient(c) => ClientLag(cfg, s, c, s', k);
    case AtDest(d) => DestFrame(cfg, s, d, s');
    case _ =>
  }

  /**
   While a client stays linked, every close that its router takes for it is held by the router, waits on the
   client's own channel, or was taken by the session: the three grow together.
   */
  lemma {:induction false} ClosesReachSession(cfg: Config, r: Run, j: nat, i: nat, k: nat)
    requires ValidConfig(cfg) && IsRun(cfg, r) && j <= i < |r.states| && Distinct(r.states[i], k)
    requires forall m :: j <= m <= i ==> IsLinked(r.states[m], k)
    ensures var R, R', S, S', c :=
        MyRouter(r.states[j], k), MyRouter(r.states[i], k), Ses(r.states[j], k), Ses(r.states[i], k), IdOf(k);
      |GotBy(R'.closes, c)| - |GotBy(R.closes, c)| ==
        (HeldClose(R'.pc, c) + |S'.closeReq.queue| + |S'.closeReq.got|) -
        (HeldClose(R.pc, c) + |S.closeReq.queue| + |S.closeReq.got|)
  {
    hide TableInv, ClientInv, Do, Init, GotBy, HeldClose;
    if j < i {
      AllocsGrow(cfg, r.states[i - 1], r.steps[i - 1], r.states[i]);
      TableHolds(cfg, r, i - 1);
      ClientHolds(cfg, r, i - 1, k);
      ClosesReachSession(cfg, r, j, i - 1, k);
      KeepsLag(cfg, r.states[i - 1], r.steps[i - 1], r.states[i], k);
    }
  }
}
