/**
 A router passes closes on without waiting. Each client's own close channel has one place, and nobody reads it
 once the session has stopped, so a second close would hold up the router and with it every client of that
 router. Without a clash of kicks there is no second close.
 */
module Clearance {
  import opened Types
  import opened Channels
  import opened Machine
  import opened Frames
  import opened TableSafety
  import opened ClientInvariant
  import opened ClientSideProof
  import opened Runs
  import opened Verdicts
  import opened Demultiplexing
  import opened KickRuns
  import opened Accounts
  import opened AccountRuns

  // ---------------------------------------------------------------- closes come from the hub

  /** What the router `n` holds and what the session of its client got was taken from the hub's channel. */
  predicate Covered(n: Name, R: Router, S: Session, c: Id) {
    CloseLag(R, if n == S.owner then S else UNBORN, c) >= 0
  }

  ghost predicate AllCovered(s: State, k: nat) {
    forall n :: n in s.routers ==> Covered(n, s.routers[n], Ses(s, k), IdOf(k))
  }

  lemma UnbornLag(R: Router, S: Session, c: Id)
    ensures CloseLag(R, UNBORN, c) == CloseLag(R, S, c) + |S.closeReq.Sent()|
  {
    hide GotBy;
  }

  lemma GoCovers(cfg: Config, s: State, r: Option<(Table, Out)>, s': State, k: nat)
    requires AllCovered(s, k) && HubGo(cfg, s, r) == Some(s')
    ensures AllCovered(s', k)
  {
    hide HubGo, RouterAfter, DestAfter, CloseLag;
    HubSends(cfg, s, r, s');
    forall n | n in s'.routers
      ensures Covered(n, s'.routers[n], Ses(s', k), IdOf(k))
    {
      OutLag(n, s.routers[n], r.value.1, if n == Ses(s, k).owner then Ses(s, k) else UNBORN, IdOf(k));
    }
  }

  lemma HubCovers(cfg: Config, s: State, st: HubStep, s': State, k: nat)
    requires AllCovered(s, k) && HubDo(cfg, s, st) == Some(s')
    ensures AllCovered(s', k)
  {
    hide ClientGo, DestGo, TickGo, DrainGo, HubGo, ClientIdle, DestIdle, Covered;
    match st
    case ByClientLoop(x) =>
      if s.t.cpc.CIdle? { ClientTakes(s, x, s'); } else { GoCovers(cfg, s, ClientGo(cfg, s.t, x.time), s', k); }
    case ByDestLoop(x) =>
      if s.t.dpc.DIdle? { DestTakes(s, x, s'); } else { GoCovers(cfg, s, DestGo(cfg, s.t, x.time), s', k); }
    case ByTicker(t) => GoCovers(cfg, s, TickGo(cfg, s.t, t), s', k);
    case ByDrain(pick) => GoCovers(cfg, s, DrainGo(cfg, s.t, pick), s', k);
    case Quits =>
  }

  /** The session keeps its close channel and its router, or is new. */
  lemma SessionCovers(s: State, s': State, k: nat)
    requires AllCovered(s, k) && s'.routers == s.routers
    requires var S, S' := Ses(s, k), Ses(s', k);
      S'.closeReq.Sent() == [] || (S'.closeReq.Sent() == S.closeReq.Sent() && S'.owner == S.owner)
    ensures AllCovered(s', k)
  {
    hide GotBy, HeldClose;
    forall n | n in s'.routers
      ensures Covered(n, s'.routers[n], Ses(s', k), IdOf(k))
    {
      assert Covered(n, s.routers[n], Ses(s, k), IdOf(k));
    }
  }

  /** One router changes its links, or takes a message, or drops one. */
  lemma RouterCovers(s: State, n: Name, R: Router, s': State, k: nat)
    requires AllCovered(s, k) && n in s.routers && s'.routers == s.routers[n := R] && Ses(s', k) == Ses(s, k)
    requires CloseLag(R, Ses(s, k), IdOf(k)) >= CloseLag(s.routers[n], Ses(s, k), IdOf(k))
    ensures AllCovered(s', k)
  {
    hide CloseLag;
    UnbornLag(R, Ses(s, k), IdOf(k));
    UnbornLag(s.routers[n], Ses(s, k), IdOf(k));
  }

  lemma DemuxCovers(cfg: Config, s: State, n: Name, s': State, k: nat)
    requires AllCovered(s, k) && TableInv(cfg, s) && ClientInv(cfg, s, k)
    requires n in s.routers && RouterGives(cfg, s, n, s.routers[n]) == Some(s')
    ensures AllCovered(s', k)
  {
    hide RouterGives, Receive, ClientInv, TableOk, GotBy, AllCovered, RoutersWired, DestsWired, SessionsWired;
    Gives(cfg, s, n, s');
    LinkFacts(cfg, s, n, k);
    var R, id := s.routers[n], Holding(s.routers[n].pc).value;
    if id in R.links && R.links[id] in s.ses && R.links[id] == k {
      assert LinksOk(R.links);
      DemuxLag(cfg, s, n, s', k);
      OwnDemuxCovers(s, n, s', k);
    } else {
      assert Ses(s', k) == Ses(s, k);
      RouterCovers(s, n, R.(pc := RIdle), s', k);
    }
  }

  lemma OwnDemuxCovers(s: State, n: Name, s': State, k: nat)
    requires AllCovered(s, k) && n in s.routers && n == Ses(s, k).owner == Ses(s', k).owner
    requires n in s'.routers && s'.routers == s.routers[n := s'.routers[n]] && LagOf(s', k) == LagOf(s, k)
    ensures AllCovered(s', k)
  {
    hide CloseLag;
    forall m | m in s'.routers
      ensures Covered(m, s'.routers[m], Ses(s', k), IdOf(k))
    {
      assert Covered(m, s.routers[m], Ses(s, k), IdOf(k));
    }
  }

  lemma ClientCovers(cfg: Config, s: State, st: ClientStep, s': State, k: nat)
    requires AllCovered(s, k) && TableInv(cfg, s) && ClientInv(cfg, s, k) && ClientDo(cfg, s, st) == Some(s')
    ensures AllCovered(s', k)
  {
    hide TableInv, ClientInv, Admitted, LinkIn, SessionDoes, SessionGo, TransportGo, RouterTake, RouterGives,
      AllCovered, GotBy, HeldClose;
    match st
    case Connection(r) => SessionCovers(s, s', k);
    case Admit(n, time) =>
      Admits(cfg, s, n, time, s');
      SessionCovers(s, s', k);
    case Link(n) =>
      Links(s, n, s');
      LinkCovers(s, n, s', k);
    case Unlink(n) => RouterCovers(s, s.ses[n].owner, s'.routers[s.ses[n].owner], s', k);
    case BySession(n, x) =>
      SessionEmits(cfg, s, n, x, s');
      SessionStays(cfg, s.ses[n], s.ses[n].cancelled || s.shutdown, x);
      KeepsCloses(cfg, s.ses[n], s.ses[n].cancelled || s.shutdown, x);
      SessionCovers(s, s', k);
    case ByTransport(n, x) =>
      TransportStays(cfg, s.ses[n], x);
      SessionCovers(s, s', k);
    case ByRouter(n, x) =>
      TakeLag(s.routers[n], x, s.shutdown, Ses(s, k), IdOf(k));
      RouterCovers(s, n, s'.routers[n], s', k);
    case Demux(n) => DemuxCovers(cfg, s, n, s', k);
  }

  lemma LinkCovers(s: State, n: nat, s': State, k: nat)
    requires AllCovered(s, k) && n in s.ses && LinkIn(s, n, s.ses[n]) == Some(s')
    ensures AllCovered(s', k)
  {
    hide AllCovered, GotBy, HeldClose;
    var owner := s.ses[n].owner;
    var mid := s.(ses := s'.ses);
    SessionCovers(s, mid, k);
    RouterCovers(mid, owner, s'.routers[owner], s', k);
  }

  lemma KeepsCloses(cfg: Config, S: Session, done: bool, st: SessionStep)
    requires SessionGo(cfg, S, done, st).Some?
    ensures SessionGo(cfg, S, done, st).value.0.closeReq.Sent() == S.closeReq.Sent()
  {
  }

  lemma KeepsCovered(cfg: Config, s: State, st: Step, s': State, k: nat)
    requires AllCovered(s, k) && TableInv(cfg, s) && ClientInv(cfg, s, k) && Do(cfg, s, st) == Some(s')
    ensures AllCovered(s', k)
  {
    hide TableInv, ClientInv, HubDo, ClientDo, DestDo, Covered;
    match st
    case AtHub(h) => HubCovers(cfg, s, h, s', k);
    case AtClient(c) => ClientCovers(cfg, s, c, s', k);
    case AtDest(d) => DestFrame(cfg, s, d, s');
    case _ =>
  }

  lemma {:induction false} CoveredHolds(cfg: Config, r: Run, i: nat, k: nat)
    requires ValidConfig(cfg) && IsRun(cfg, r) && i < |r.states| && Distinct(r.states[i], k)
    ensures AllCovered(r.states[i], k)
  {
    hide TableInv, ClientInv, Do, AllCovered;
    if i == 0 {
      FirstCovered(cfg, r.states[0], k);
    } else {
      AllocsGrow(cfg, r.states[i - 1], r.steps[i - 1], r.states[i]);
      TableHolds(cfg, r, i - 1);
      ClientHolds(cfg, r, i - 1, k);
      CoveredHolds(cfg, r, i - 1, k);
      KeepsCovered(cfg, r.states[i - 1], r.steps[i - 1], r.states[i], k);
    }
  }

  lemma FirstCovered(cfg: Config, s: State, k: nat)
    requires Init(cfg, s)
    ensures AllCovered(s, k)
  {
    hide GotBy;
  }

  // ---------------------------------------------------------------- at most one

  /** Without a clash a client is sent at most one close in all. */
  lemma AtMostOneClose(cfg: Config, r: Run, i: nat, k: nat)
    requires ValidConfig(cfg) && IsRun(cfg, r) && i < |r.states| && Distinct(r.states[i], k)
    requires NoClash(cfg, r, i, IdOf(k))
    ensures ClosesDown(r.states[i], k) <= 1
  {
    hide Do, Init, NoClash, ClosesDown, ClosesUp, LedgerAt, Shares, SentTo, GotBy, For;
    LedgerHolds(cfg, r, i, "", k);
    ClashNoted(cfg, r, i, IdOf(k), "");
  }

  /**
   A router that holds a close for a client can pass it on at once, whatever the client's session does, unless
   kicks of that client have clashed. So with no clash no client's close holds up the others.
   */
  lemma CloseNeverWaits(cfg: Config, r: Run, i: nat, k: nat)
    requires ValidConfig(cfg) && IsRun(cfg, r) && i < |r.states| && Distinct(r.states[i], k)
    requires Ses(r.states[i], k).owner in r.states[i].routers && NoClash(cfg, r, i, IdOf(k))
    requires r.states[i].routers[Ses(r.states[i], k).owner].pc == RClose(IdOf(k))
    ensures ClientDo(cfg, r.states[i], Demux(Ses(r.states[i], k).owner)).Some?
  {
    hide IsRun, NoClash, For, ClientInv;
    var s := r.states[i];
    var owner := Ses(s, k).owner;
    AtMostOneClose(cfg, r, i, k);
    CoveredHolds(cfg, r, i, k);
    ClientHolds(cfg, r, i, k);
    LinkFacts(cfg, s, owner, k);
    assert Covered(owner, s.routers[owner], Ses(s, k), IdOf(k));
  }

  /** The same for verdicts, as long as the destination has given no more than one. */
  lemma VerdictNeverWaits(cfg: Config, r: Run, i: nat, k: nat)
    requires ValidConfig(cfg) && IsRun(cfg, r) && i < |r.states| && Distinct(r.states[i], k)
    requires Ses(r.states[i], k).owner in r.states[i].routers && |SentTo(r.states[i].dVerdicts, IdOf(k))| <= 1
    requires var R := r.states[i].routers[Ses(r.states[i], k).owner]; R.pc.RVerdict? && R.pc.v.id == IdOf(k)
    ensures ClientDo(cfg, r.states[i], Demux(Ses(r.states[i], k).owner)).Some?
  {
    hide IsRun, HeldVerdict, Answering, RefusersLinked, For, ClientInv;
    var s, c, S := r.states[i], IdOf(k), Ses(r.states[i], k);
    VerdictsHold(cfg, r, i, k);
    RouterOf(s, S.owner, k);
    GotIsPrefix(s.dVerdicts, c);
    GotIsPrefix(s.routers[S.owner].verdicts, c);
    ClientHolds(cfg, r, i, k);
    LinkFacts(cfg, s, S.owner, k);
  }
}
