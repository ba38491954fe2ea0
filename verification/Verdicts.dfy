/**
 The way of a verdict from the destinations to the client's session: through the hub and the router, in
 order, and without loss while the client is in the table and linked. Refusals travel like accepts.
 */
module Verdicts {
  import opened Types
  import opened Channels
  import opened ClientTable
  import opened Machine
  import opened Frames
  import opened TableSafety
  import opened ClientInvariant
  import opened ClientSideProof
  import opened HubProof
  import opened DestProof
  import opened Runs
  import opened Theorems
  import opened Endings

  // ---------------------------------------------------------------- the two hops

  predicate Answering(p: DestPc, c: Id) {
    (p.DConnect? || p.DTell?) && p.v.id == c
  }

  function HeldVerdict(p: DestPc, c: Id): seq<Verdict> {
    if (p.DVerdict? || p.DConnect? || p.DTell?) && p.v.id == c then [p.v.body] else []
  }

  function HeldAnswer(p: RouterPc, c: Id): seq<Verdict> {
    if p.RVerdict? && p.v.id == c then [p.v.body] else []
  }

  /** The verdicts the hub has passed on to the client's router. */
  function ReturnedVerdicts(routers: map<Name, Router>, owner: Name, c: Id): seq<Verdict> {
    if owner in routers then SentTo(routers[owner].verdicts, c) else []
  }

  ghost predicate HubVerdicts(p: DestPc, c: Id, owner: Name, taken: seq<Verdict>, out: seq<Verdict>, gone: bool) {
    && Hop(taken, HeldVerdict(p, c), out, gone, Answering(p, c))
    && (Answering(p, c) ==> p.cn == owner) && (HeldVerdict(p, c) != [] ==> taken != [])
  }

  ghost predicate RouterVerdicts(n: Name, R: Router, c: Id, owner: Name, linked: bool, queued: seq<Verdict>) {
    if n == owner then Hop(GotBy(R.verdicts, c), HeldAnswer(R.pc, c), queued, linked && c !in R.links, false)
    else SentTo(R.verdicts, c) == [] && HeldAnswer(R.pc, c) == []
  }

  ghost predicate RoutersVerdicts(routers: map<Name, Router>, c: Id, S: Session) {
    forall n :: n in routers ==> RouterVerdicts(n, routers[n], c, S.owner, Linked(S.phase), S.verdictQ.Sent())
  }

  /** A destination refuses only a client that has asked. */
  ghost predicate RefusersLinked(dests: map<Name, Dest>, c: Id, linked: bool) {
    forall d :: d in dests ==> (dests[d].pc.URefuse? && dests[d].pc.id == c ==> linked)
  }

  ghost predicate VerdictInv(s: State, k: nat) {
    var c, S := IdOf(k), Ses(s, k);
    && (SentTo(s.dVerdicts, c) != [] || S.verdictQ.Sent() != [] ==> Linked(S.phase))
    && HubVerdicts(s.t.dpc, c, S.owner, GotBy(s.dVerdicts, c), ReturnedVerdicts(s.routers, S.owner, c),
                   Gone(S, Get(s.t.clients, c)))
    && RoutersVerdicts(s.routers, c, S)
    && RefusersLinked(s.dests, c, Linked(S.phase))
  }

  // ---------------------------------------------------------------- the hub

  lemma RouterUnanswered(n: Name, R: Router, o: Out, c: Id, owner: Name, linked: bool, queued: seq<Verdict>)
    requires RouterVerdicts(n, R, c, owner, linked, queued) && (o.VerdictDown? ==> o.verdict.id != c)
    ensures RouterVerdicts(n, RouterAfter(n, R, o), c, owner, linked, queued)
    ensures SentTo(RouterAfter(n, R, o).verdicts, c) == SentTo(R.verdicts, c)
  {
    hide Hop, SentTo, GotBy, For;
    assert SentTo(R.verdicts, c) + [] == SentTo(R.verdicts, c);
  }

  /** A hub step that does not carry this client's verdict on. */
  lemma OtherHubVerdicts(cfg: Config, s: State, r: (Table, Out), s': State, k: nat)
    requires VerdictInv(s, k) && HubGo(cfg, s, Some(r)) == Some(s')
    requires r.1.VerdictDown? ==> r.1.verdict.id != IdOf(k)
    requires IdOf(k) in r.0.clients ==> IdOf(k) in s.t.clients
    requires HeldVerdict(r.0.dpc, IdOf(k)) == HeldVerdict(s.t.dpc, IdOf(k))
    requires Answering(r.0.dpc, IdOf(k)) ==> Answering(s.t.dpc, IdOf(k)) && r.0.dpc.cn == s.t.dpc.cn
    ensures VerdictInv(s', k)
  {
    hide HubGo, RouterAfter, DestAfter, RouterVerdicts, Hop, HeldVerdict, Answering, SentTo, GotBy, For;
    var c, S := IdOf(k), Ses(s, k);
    HubSends(cfg, s, Some(r), s');
    forall n | n in s.routers
      ensures RouterVerdicts(n, s'.routers[n], c, S.owner, Linked(S.phase), S.verdictQ.Sent())
      ensures SentTo(s'.routers[n].verdicts, c) == SentTo(s.routers[n].verdicts, c)
    {
      RouterUnanswered(n, s.routers[n], r.1, c, S.owner, Linked(S.phase), S.verdictQ.Sent());
    }
    forall d | d in s.dests ensures s'.dests[d].pc == s.dests[d].pc {
      DestKeepsPc(d, s.dests[d], r.1);
    }
    LessSending(GotBy(s.dVerdicts, c), HeldVerdict(s.t.dpc, c), ReturnedVerdicts(s.routers, S.owner, c),
                Gone(S, Get(s.t.clients, c)), Gone(S, Get(s'.t.clients, c)), Answering(s.t.dpc,
                     c), Answering(s'.t.dpc, c));
  }

  lemma DestKeepsPc(d: Name, D: Dest, o: Out)
    ensures DestAfter(d, D, o).pc == D.pc
  {
  }

  lemma LessSending<T>(taken: seq<T>, held: seq<T>, out: seq<T>, gone: bool, gone': bool, sending: bool, sending': bool)
    requires Hop(taken, held, out, gone, sending) && (gone ==> gone') && (sending' ==> sending)
    ensures Hop(taken, held, out, gone', sending')
  {
  }

  /** The hub looks a verdict's client up: it goes on with it, or drops it because the client has left. */
  lemma LookedUp(p: DestPc, p': DestPc, c: Id, owner: Name, taken: seq<Verdict>, out: seq<Verdict>, gone: bool)
    requires HubVerdicts(p, c, owner, taken, out, gone) && p.DVerdict? && p.v.id == c
    requires (p'.DIdle? && gone) || (!gone && p' == DConnect(p.v, owner))
    ensures HubVerdicts(p', c, owner, taken, out, gone)
  {
    assert forall x: seq<Verdict> :: x + [] == x;
  }

  lemma LookUpVerdict(cfg: Config, s: State, s': State, k: nat)
    requires VerdictInv(s, k) && ClientInv(cfg, s, k) && Names(cfg, s.t.clients)
    requires s.t.dpc.DVerdict? && s.t.dpc.v.id == IdOf(k)
    requires s' == s.(t := DestGo(cfg, s.t, 0).value.0)
    ensures VerdictInv(s', k)
  {
    hide RoutersVerdicts, RefusersLinked, HubVerdicts, MySession, RoutersOk, DestsOk, ClientPcOk, DestPcOk, UpHop,
      DownHop, AllBacked, Reached, SentTo, GotBy, For;
    var c, S := IdOf(k), Ses(s, k);
    if c in s.t.clients {
      assert NamesOf(cfg, s.t.clients[c]);
    } else {
      HeldIsTaken(s.t.dpc, c, S.owner, GotBy(s.dVerdicts, c), ReturnedVerdicts(s.routers, S.owner, c), Gone(S, None));
      GotIsPrefix(s.dVerdicts, c);
    }
    LookedUp(s.t.dpc, s'.t.dpc, c, S.owner, GotBy(s.dVerdicts, c), ReturnedVerdicts(s.routers, S.owner, c),
             Gone(S, Get(s.t.clients, c)));
  }

  lemma HeldIsTaken(p: DestPc, c: Id, owner: Name, taken: seq<Verdict>, out: seq<Verdict>, gone: bool)
    requires HubVerdicts(p, c, owner, taken, out, gone) && HeldVerdict(p, c) != []
    ensures taken != []
  {
  }

  /** The hub hands a verdict to the client's router. */
  lemma VerdictGoesOut(cfg: Config, s: State, s': State, k: nat)
    requires VerdictInv(s, k) && s.t.dpc.DTell? && s.t.dpc.v.id == IdOf(k)
    requires HubGo(cfg, s, Some((s.t.(dpc := DIdle), VerdictDown(s.t.dpc.cn, s.t.dpc.v)))) == Some(s')
    ensures VerdictInv(s', k)
  {
    hide HubGo, DestAfter, Hop, SentTo, GotBy, For, RefusersLinked;
    var c, S, v, out := IdOf(k), Ses(s, k), s.t.dpc.v, VerdictDown(s.t.dpc.cn, s.t.dpc.v);
    HubSends(cfg, s, Some((s.t.(dpc := DIdle), out)), s');
    SentIsKnown(cfg, s, out);
    TellKeeps(GotBy(s.dVerdicts, c), v.body, SentTo(s.routers[S.owner].verdicts, c), Gone(S, Get(s.t.clients, c)));
    forall d | d in s.dests ensures s'.dests[d].pc == s.dests[d].pc {
      DestKeepsPc(d, s.dests[d], out);
    }
    PcsKeepRefusers(s.dests, s'.dests, c, Linked(S.phase));
  }

  lemma SentIsKnown(cfg: Config, s: State, o: Out)
    requires o.VerdictDown?
    ensures forall s' :: HubGo(cfg, s, Some((s.t.(dpc := DIdle), o))) == Some(s') ==> o.router in s.routers
  {
  }

  lemma TellKeeps(taken: seq<Verdict>, v: Verdict, out: seq<Verdict>, gone: bool)
    requires Hop(taken, [v], out, gone, true)
    ensures Hop(taken, [], out + [v], gone, false)
  {
    assert out + [v] + [] == out + [v];
  }

  lemma PcsKeepRefusers(dests: map<Name, Dest>, dests': map<Name, Dest>, c: Id, linked: bool)
    requires RefusersLinked(dests, c, linked) && dests'.Keys == dests.Keys
    requires forall d :: d in dests ==> dests'[d].pc == dests[d].pc
    ensures RefusersLinked(dests', c, linked)
  {
  }

  /** Only the destination-side goroutine passes verdicts on. */
  lemma NoVerdictOut(cfg: Config, t: Table, time: int, st: TickStep, pick: Id)
    ensures ClientGo(cfg, t, time).Some? ==> !ClientGo(cfg, t, time).value.1.VerdictDown?
    ensures TickGo(cfg, t, st).Some? ==> !TickGo(cfg, t, st).value.1.VerdictDown?
    ensures DrainGo(cfg, t, pick).Some? ==> !DrainGo(cfg, t, pick).value.1.VerdictDown?
  {
    hide FirstMatch, ListsAll, Due, ClientName, DestName;
  }

  /** Nothing that the verdicts depend on has moved. */
  lemma StillVerdicts(s: State, s': State, k: nat)
    requires VerdictInv(s, k) && Ses(s', k) == Ses(s, k) && s'.dVerdicts == s.dVerdicts && s'.t.dpc == s.t.dpc
    requires Get(s'.t.clients, IdOf(k)) == Get(s.t.clients, IdOf(k)) && s'.routers == s.routers
    requires s'.dests.Keys == s.dests.Keys && forall d :: d in s.dests ==> s'.dests[d].pc == s.dests[d].pc
    ensures VerdictInv(s', k)
  {
    hide RoutersVerdicts, HubVerdicts, RefusersLinked, SentTo, GotBy, For;
    PcsKeepRefusers(s.dests, s'.dests, IdOf(k), Linked(Ses(s, k).phase));
  }

  lemma VerdictTaken(p: DestPc, p': DestPc, c: Id, owner: Name, taken: seq<Verdict>, out: seq<Verdict>, gone: bool)
    requires HubVerdicts(p, c, owner, taken, out, gone) && p.DIdle? && !Answering(p', c)
    ensures HubVerdicts(p', c, owner, taken + (if p'.DVerdict? then One(p'.v, c) else []), out, gone)
  {
    assert out + [] == out && taken + [] == taken;
  }

  lemma DestIdleVerdicts(s: State, st: LoopStep, s': State, k: nat)
    requires VerdictInv(s, k) && s.t.dpc.DIdle? && DestIdle(s, st) == Some(s')
    ensures VerdictInv(s', k)
  {
    hide RoutersVerdicts, HubVerdicts, RefusersLinked, SentTo, GotBy, For, One;
    var c, S := IdOf(k), Ses(s, k);
    VerdictTaken(s.t.dpc, s'.t.dpc, c, S.owner, GotBy(s.dVerdicts, c), ReturnedVerdicts(s.routers, S.owner, c),
                 Gone(S, Get(s.t.clients, c)));
    assert GotBy(s.dVerdicts, c) + [] == GotBy(s.dVerdicts, c);
  }

  lemma DestGoVerdicts(cfg: Config, s: State, time: int, s': State, k: nat)
    requires VerdictInv(s, k) && ClientInv(cfg, s, k) && Names(cfg, s.t.clients)
    requires HubGo(cfg, s, DestGo(cfg, s.t, time)) == Some(s')
    ensures VerdictInv(s', k)
  {
    hide VerdictInv, ClientInv, Names, HubGo, KickStep, StampDest, Connect;
    var c, p := IdOf(k), s.t.dpc;
    HubTable(cfg, s, DestGo(cfg, s.t, time), s');
    GoShrinks(cfg, s.t, time, c);
    if p.DVerdict? && p.v.id == c {
      HubGoQuiet(cfg, s, DestGo(cfg, s.t, time).value.0, s');
      LookUpVerdict(cfg, s, s', k);
    } else if p.DTell? && p.v.id == c {
      VerdictGoesOut(cfg, s, s', k);
    } else {
      if p.DKick? { KickSendsCloses(cfg, s.t, p.k); }
      OtherHubVerdicts(cfg, s, DestGo(cfg, s.t, time).value, s', k);
    }
  }

  lemma HubGoQuiet(cfg: Config, s: State, t: Table, s': State)
    requires HubGo(cfg, s, Some((t, Nothing))) == Some(s')
    ensures s' == s.(t := t)
  {
  }

  lemma KickSendsCloses(cfg: Config, t: Table, k: Kick)
    ensures !KickStep(cfg, t, k).out.VerdictDown?
  {
  }

  lemma HubVerdictsKept(cfg: Config, s: State, st: HubStep, s': State, k: nat)
    requires TableOk(cfg, s.t) && ClientInv(cfg, s, k) && VerdictInv(s, k) && HubDo(cfg, s, st) == Some(s')
    ensures VerdictInv(s', k)
  {
    hide VerdictInv, ClientInv, Books, Names, Times, Ages, ClientGo, DestGo, TickGo, DrainGo, HubGo, ClientIdle,
      DestIdle;
    match st
    case ByClientLoop(x) =>
      if s.t.cpc.CIdle? { ClientTakes(s, x, s'); StillVerdicts(s, s', k); } else {
        HubTable(cfg, s, ClientGo(cfg, s.t, x.time), s');
        ClientGoStays(cfg, s.t, x.time);
        GoShrinks(cfg, s.t, x.time, IdOf(k));
        NoVerdictOut(cfg, s.t, x.time, Begin, 0);
        OtherHubVerdicts(cfg, s, ClientGo(cfg, s.t, x.time).value, s', k);
      }
    case ByDestLoop(x) =>
      if s.t.dpc.DIdle? { DestIdleVerdicts(s, x, s', k); } else { DestGoVerdicts(cfg, s, x.time, s', k); }
    case ByTicker(t) =>
      HubTable(cfg, s, TickGo(cfg, s.t, t), s');
      TickGoStays(cfg, s.t, t);
      TickShrinks(cfg, s.t, t, 0, IdOf(k));
      NoVerdictOut(cfg, s.t, 0, t, 0);
      OtherHubVerdicts(cfg, s, TickGo(cfg, s.t, t).value, s', k);
    case ByDrain(pick) =>
      HubTable(cfg, s, DrainGo(cfg, s.t, pick), s');
      DrainGoStays(cfg, s.t, pick);
      TickShrinks(cfg, s.t, Begin, pick, IdOf(k));
      NoVerdictOut(cfg, s.t, 0, Begin, pick);
      OtherHubVerdicts(cfg, s, DrainGo(cfg, s.t, pick).value, s', k);
    case Quits => StillVerdicts(s, s', k);
  }

  // ---------------------------------------------------------------- sessions and routers

  /** One router moves, and the client's session may have received something from it. */
  lemma RouterTurns(s: State, n: Name, R: Router, s': State, k: nat)
    requires VerdictInv(s, k) && n in s.routers && s'.routers == s.routers[n := R] && s'.dests == s.dests
    requires s'.dVerdicts == s.dVerdicts && s'.t == s.t
    requires SentTo(R.verdicts, IdOf(k)) == SentTo(s.routers[n].verdicts, IdOf(k))
    requires var S, S' := Ses(s, k), Ses(s', k);
      && S'.owner == S.owner && S'.phase == S.phase
      && RouterVerdicts(n, R, IdOf(k), S.owner, Linked(S.phase), S'.verdictQ.Sent())
      && (S'.verdictQ.Sent() == S.verdictQ.Sent() || (n == S.owner && Linked(S.phase)))
    ensures VerdictInv(s', k)
  {
    hide HubVerdicts, RefusersLinked, Hop, HeldAnswer, SentTo, GotBy, For;
    var c, S, S' := IdOf(k), Ses(s, k), Ses(s', k);
    forall m | m in s'.routers
      ensures RouterVerdicts(m, s'.routers[m], c, S.owner, Linked(S.phase), S'.verdictQ.Sent())
    {
      assert RouterVerdicts(m, s.routers[m], c, S.owner, Linked(S.phase), S.verdictQ.Sent());
    }
  }

  lemma TakeVerdicts(n: Name, R: Router, st: RouterStep, shutdown: bool, c: Id, owner: Name, linked: bool,
                     queued: seq<Verdict>)
    requires RouterVerdicts(n, R, c, owner, linked, queued) && RouterTake(R, st, shutdown).Some?
    ensures RouterVerdicts(n, RouterTake(R, st, shutdown).value, c, owner, linked, queued)
    ensures SentTo(RouterTake(R, st, shutdown).value.verdicts, c) == SentTo(R.verdicts, c)
  {
    hide SentTo, GotBy, For;
    assert queued + [] == queued && GotBy(R.verdicts, c) + [] == GotBy(R.verdicts, c);
    if st.TakeVerdict? && R.verdicts.queue[0].id == c {
      HeadOf(R.verdicts, c);
    }
  }

  /** A router that holds a verdict for the client knows that the client was linked. */
  lemma HeldMeansLinked(s: State, n: Name, k: nat)
    requires VerdictInv(s, k) && n in s.routers && HeldAnswer(s.routers[n].pc, IdOf(k)) != []
    ensures n == Ses(s, k).owner && Linked(Ses(s, k).phase)
  {
    hide RefusersLinked, HeldAnswer, HeldVerdict, Answering, SentTo, GotBy, For;
    var c, S := IdOf(k), Ses(s, k);
    assert RouterVerdicts(n, s.routers[n], c, S.owner, Linked(S.phase), S.verdictQ.Sent());
    GotIsPrefix(s.routers[n].verdicts, c);
    GotIsPrefix(s.dVerdicts, c);
  }

  /** What the demultiplexer does with a held message for the client: hand it over, or drop it once it is cut off. */
  lemma HandedOver(n: Name, R: Router, c: Id, owner: Name, linked: bool, queued: seq<Verdict>, queued': seq<Verdict>)
    requires RouterVerdicts(n, R, c, owner, linked, queued)
    requires if HeldAnswer(R.pc, c) == [] then queued' == queued
             else if c in R.links then queued' == queued + HeldAnswer(R.pc, c)
             else queued' == queued && linked && n == owner
    ensures RouterVerdicts(n, R.(pc := RIdle), c, owner, linked, queued')
  {
    hide SentTo, GotBy, For;
    assert queued' + [] == queued';
  }

  lemma DemuxVerdicts(cfg: Config, s: State, n: Name, s': State, k: nat)
    requires VerdictInv(s, k) && ClientInv(cfg, s, k) && n in s.routers
    requires RouterGives(cfg, s, n, s.routers[n]) == Some(s')
    requires LinksWired(s.routers)
    ensures VerdictInv(s', k)
  {
    hide RouterGives, Receive, VerdictInv, ClientInv, RouterVerdicts, SentTo, GotBy, For;
    var c, R, S, S' := IdOf(k), s.routers[n], Ses(s, k), Ses(s', k);
    Gives(cfg, s, n, s');
    var id := Holding(R.pc).value;
    assert LinksOk(R.links);
    LinkFacts(cfg, s, n, k);
    if id in R.links && R.links[id] in s.ses {
      ReceiveStays(cfg, s.ses[R.links[id]], R.pc);
    }
    if HeldAnswer(R.pc, c) != [] {
      HeldMeansLinked(s, n, k);
    }
    RouterOf(s, n, k);
    HandedOver(n, R, c, S.owner, Linked(S.phase), S.verdictQ.Sent(), S'.verdictQ.Sent());
    RouterTurns(s, n, R.(pc := RIdle), s', k);
  }

  lemma RouterOf(s: State, n: Name, k: nat)
    requires VerdictInv(s, k) && n in s.routers
    ensures var S := Ses(s, k);
      RouterVerdicts(n, s.routers[n], IdOf(k), S.owner, Linked(S.phase), S.verdictQ.Sent())
  {
  }

  lemma LinkFacts(cfg: Config, s: State, n: Name, k: nat)
    requires ClientInv(cfg, s, k) && n in s.routers
    ensures IdOf(k) in s.routers[n].links ==>
      s.routers[n].links[IdOf(k)] == k && k in s.ses && n == Ses(s, k).owner
  {
    hide MySession, HubOk, DestsOk, AllBacked, Hop, SentTo, GotBy, For;
    assert RouterOk(n, s.routers[n], IdOf(k), k, Ses(s, k), For(s.accepts, IdOf(k)));
  }

  /** The client's own session moves; it takes verdicts but receives none. */
  lemma SessionVerdicts(s: State, S': Session, s': State, k: nat)
    requires VerdictInv(s, k)
    requires s' == s.(ses := s.ses[k := S'], cMsgs := s'.cMsgs, cOpens := s'.cOpens, cCloses := s'.cCloses)
    requires S'.owner == Ses(s, k).owner && S'.verdictQ.Sent() == Ses(s, k).verdictQ.Sent()
    requires Linked(S'.phase) == Linked(Ses(s, k).phase) && HasEntry(S'.phase) == HasEntry(Ses(s, k).phase)
    ensures VerdictInv(s', k)
  {
    hide RouterVerdicts, HubVerdicts, SentTo, GotBy, For;
  }

  lemma SessionQueues(cfg: Config, S: Session, done: bool, st: SessionStep)
    requires SessionGo(cfg, S, done, st).Some?
    ensures SessionGo(cfg, S, done, st).value.0.verdictQ.Sent() == S.verdictQ.Sent()
  {
  }

  /** Before a client is linked no verdict for it exists anywhere. */
  ghost predicate NoVerdicts(s: State, k: nat) {
    var c := IdOf(k);
    && SentTo(s.dVerdicts, c) == [] && HeldVerdict(s.t.dpc, c) == [] && Ses(s, k).verdictQ.Sent() == []
    && (forall n :: n in s.routers ==> SentTo(s.routers[n].verdicts, c) == [] && HeldAnswer(s.routers[n].pc, c) == [])
  }

  lemma YoungHasNone(s: State, k: nat)
    requires VerdictInv(s, k) && !Linked(Ses(s, k).phase)
    ensures NoVerdicts(s, k)
  {
    hide RefusersLinked, SentTo, GotBy, For;
    var c, S := IdOf(k), Ses(s, k);
    GotIsPrefix(s.dVerdicts, c);
    forall n | n in s.routers ensures SentTo(s.routers[n].verdicts, c) == [] && HeldAnswer(s.routers[n].pc, c) == [] {
      assert RouterVerdicts(n, s.routers[n], c, S.owner, Linked(S.phase), S.verdictQ.Sent());
      GotIsPrefix(s.routers[n].verdicts, c);
    }
  }

  /** Then any change of owner, phase, entry and link keeps the invariant. */
  lemma YoungVerdicts(s: State, s': State, k: nat)
    requires NoVerdicts(s, k) && Ses(s', k).verdictQ == Ses(s, k).verdictQ && s'.dVerdicts == s.dVerdicts
    requires s'.t.dpc == s.t.dpc && s'.dests == s.dests && RefusersLinked(s.dests, IdOf(k), Linked(Ses(s, k).phase))
    requires Linked(Ses(s, k).phase) ==> Linked(Ses(s', k).phase)
    requires s'.routers.Keys == s.routers.Keys
    requires forall n :: n in s.routers ==> s'.routers[n] == s.routers[n].(links := s'.routers[n].links)
    ensures VerdictInv(s', k)
  {
    hide SentTo, GotBy, For;
    var c := IdOf(k);
    GotIsPrefix(s.dVerdicts, c);
    forall n | n in s.routers ensures GotBy(s.routers[n].verdicts, c) == [] {
      GotIsPrefix(s.routers[n].verdicts, c);
    }
  }

  lemma RelinkVerdicts(n: Name, R: Router, links: map<Id, nat>, c: Id, owner: Name, linked: bool, queued: seq<Verdict>)
    requires RouterVerdicts(n, R, c, owner, linked, queued) && (c in links ==> c in R.links)
    ensures RouterVerdicts(n, R.(links := links), c, owner, linked, queued)
  {
    hide SentTo, GotBy, For;
    assert queued <= queued + HeldAnswer(R.pc, c);
  }

  /** A client enters, before any verdict for it exists. */
  lemma BirthVerdicts(s: State, s': State, k: nat)
    requires VerdictInv(s, k) && !Linked(Ses(s, k).phase) && Ses(s', k).verdictQ == Ses(s, k).verdictQ
    requires s'.dVerdicts == s.dVerdicts && s'.t.dpc == s.t.dpc && s'.dests == s.dests
    requires s'.routers.Keys == s.routers.Keys
    requires forall n :: n in s.routers ==> s'.routers[n] == s.routers[n].(links := s'.routers[n].links)
    ensures VerdictInv(s', k)
  {
    hide HubVerdicts, RoutersVerdicts, NoVerdicts, SentTo, GotBy, For;
    YoungHasNone(s, k);
    YoungVerdicts(s, s', k);
  }

  lemma LinkVerdicts(s: State, n: nat, s': State, k: nat)
    requires VerdictInv(s, k) && n in s.ses && LinkIn(s, n, s.ses[n]) == Some(s')
    requires Serials(s.ses, s.t.allocs) && Distinct(s, k)
    ensures VerdictInv(s', k)
  {
    hide LinkIn, VerdictInv, RouterVerdicts, SentTo, GotBy, For;
    Links(s, n, s');
    if n == k {
      BirthVerdicts(s, s', k);
    } else if s'.routers == s.routers {
      StillVerdicts(s, s', k);
    } else {
      IdsDistinct(n, k);
      var m := s.ses[n].owner;
      RouterOf(s, m, k);
      RelinkVerdicts(m, s.routers[m], s'.routers[m].links, IdOf(k), Ses(s, k).owner, Linked(Ses(s, k).phase),
                     Ses(s, k).verdictQ.Sent());
      RouterTurns(s, m, s'.routers[m], s', k);
    }
  }

  lemma UnlinkVerdicts(s: State, n: nat, m: Name, s': State, k: nat)
    requires VerdictInv(s, k) && LinkOut(s, n, m) == Some(s')
    ensures VerdictInv(s', k)
  {
    hide VerdictInv, RouterVerdicts, SentTo, GotBy, For;
    RouterOf(s, m, k);
    RelinkVerdicts(m, s.routers[m], s'.routers[m].links, IdOf(k), Ses(s, k).owner, Linked(Ses(s, k).phase),
                   Ses(s, k).verdictQ.Sent());
    RouterTurns(s, m, s'.routers[m], s', k);
  }

  lemma RouterStepVerdicts(s: State, n: Name, st: RouterStep, s': State, k: nat)
    requires VerdictInv(s, k) && n in s.routers && RouterDoes(s, n, st) == Some(s')
    ensures VerdictInv(s', k)
  {
    hide RouterTake, VerdictInv, RouterVerdicts, SentTo, GotBy, For;
    RouterOf(s, n, k);
    TakeVerdicts(n, s.routers[n], st, s.shutdown, IdOf(k), Ses(s, k).owner, Linked(Ses(s, k).phase),
                 Ses(s, k).verdictQ.Sent());
    RouterTurns(s, n, s'.routers[n], s', k);
  }

  lemma SessionStepVerdicts(cfg: Config, s: State, n: nat, st: SessionStep, s': State, k: nat)
    requires VerdictInv(s, k) && n in s.ses && SessionDoes(cfg, s, n, st) == Some(s')
    ensures VerdictInv(s', k)
  {
    hide SessionDoes, SessionGo, VerdictInv;
    SessionEmits(cfg, s, n, st, s');
    if n == k {
      var done := s.ses[k].cancelled || s.shutdown;
      SessionStays(cfg, s.ses[k], done, st);
      SessionQueues(cfg, s.ses[k], done, st);
      SessionVerdicts(s, s'.ses[k], s', k);
    } else {
      StillVerdicts(s, s', k);
    }
  }

  lemma TransportVerdicts(cfg: Config, s: State, n: nat, st: TransportStep, s': State, k: nat)
    requires VerdictInv(s, k) && n in s.ses && TransportDoes(cfg, s, n, st) == Some(s')
    ensures VerdictInv(s', k)
  {
    hide TransportGo, VerdictInv;
    TransportStays(cfg, s.ses[n], st);
    if n == k { SessionVerdicts(s, s'.ses[k], s', k); } else { StillVerdicts(s, s', k); }
  }

  lemma AdmitVerdicts(cfg: Config, s: State, n: nat, time: int, s': State, k: nat)
    requires VerdictInv(s, k) && n in s.ses && Admitted(cfg, s, n, s.ses[n], time) == Some(s')
    requires Serials(s.ses, s.t.allocs) && Distinct(s, k)
    ensures VerdictInv(s', k)
  {
    hide Admitted, VerdictInv;
    Admits(cfg, s, n, time, s');
    if n == k {
      BirthVerdicts(s, s', k);
    } else {
      IdsDistinct(n, k);
      StillVerdicts(s, s', k);
    }
  }

  lemma ClientVerdicts(cfg: Config, s: State, st: ClientStep, s': State, k: nat)
    requires TableInv(cfg, s) && ClientInv(cfg, s, k) && VerdictInv(s, k) && ClientDo(cfg, s, st) == Some(s')
    requires Distinct(s', k) && s.t.allocs <= s'.t.allocs
    ensures VerdictInv(s', k)
  {
    hide TableOk, ClientInv, VerdictInv, Admitted, LinkIn, LinkOut, SessionDoes, TransportDoes, RouterDoes, RouterGives,
      RoutersWired, DestsWired, SessionsWired, LinksWired;
    match st
    case Connection(r) =>
      if k == s.t.allocs + 1 { BirthVerdicts(s, s', k); } else { StillVerdicts(s, s', k); }
    case Admit(n, time) => AdmitVerdicts(cfg, s, n, time, s', k);
    case Link(n) => LinkVerdicts(s, n, s', k);
    case Unlink(n) => UnlinkVerdicts(s, n, s.ses[n].owner, s', k);
    case BySession(n, x) => SessionStepVerdicts(cfg, s, n, x, s', k);
    case ByTransport(n, x) => TransportVerdicts(cfg, s, n, x, s', k);
    case ByRouter(n, x) => RouterStepVerdicts(s, n, x, s', k);
    case Demux(n) => DemuxVerdicts(cfg, s, n, s', k);
  }

  // ---------------------------------------------------------------- destinations

  /** A destination that has the client's open command, or has it registered, serves a linked client. */
  lemma ServedIsLinked(cfg: Config, s: State, d: Name, k: nat)
    requires ClientInv(cfg, s, k) && d in s.dests
    ensures s.dests[d].pc.UOpen? && s.dests[d].pc.o.id == IdOf(k) ==> Linked(Ses(s, k).phase)
    ensures IdOf(k) in s.dests[d].reg ==> Linked(Ses(s, k).phase)
  {
    hide MySession, HubOk, RoutersOk, TalkOk, UdpHop, UdpRules.Target, SentTo, GotBy, For;
    var c, D := IdOf(k), s.dests[d];
    assert RouteOk(d, D, c, Get(s.t.routed, c), SentTo(s.cOpens, c), s.t.cpc);
    GotIsPrefix(D.opens, c);
    if GotBy(D.opens, c) != [] {
      AlreadyLinked(cfg, s, k);
    }
  }

  /** A destination moves; it may begin to refuse a client that is linked. */
  lemma DestMovesVerdicts(s: State, d: Name, D: Dest, s': State, k: nat)
    requires VerdictInv(s, k) && d in s.dests && s' == s.(dests := s.dests[d := D])
    requires D.pc.URefuse? && D.pc.id == IdOf(k) ==> Linked(Ses(s, k).phase)
    ensures VerdictInv(s', k)
  {
    hide RoutersVerdicts, HubVerdicts, SentTo, GotBy, For;
  }

  lemma UdpRefusals(cfg: Config, u: UdpRules.UdpConfig, D: Dest, st: UdpStep, shutdown: bool, c: Id)
    ensures UdpTake(D, st, shutdown).Some? ==> !UdpTake(D, st, shutdown).value.pc.URefuse?
    ensures UdpGo(cfg, u, D).Some? && UdpGo(cfg, u, D).value.pc == URefuse(c) ==> D.pc.UOpen? && D.pc.o.id == c
  {
    hide UdpRules.Target;
  }

  /** A verdict for the client is queued: the client is linked. */
  lemma VerdictQueued(s: State, s': State, k: nat)
    requires VerdictInv(s, k) && Linked(Ses(s, k).phase) && GotBy(s'.dVerdicts, IdOf(k)) == GotBy(s.dVerdicts, IdOf(k))
    requires s' == s.(dVerdicts := s'.dVerdicts, dMsgs := s'.dMsgs, dCloses := s'.dCloses, accepts := s'.accepts,
                      dests := s'.dests)
    requires RefusersLinked(s'.dests, IdOf(k), true)
    ensures VerdictInv(s', k)
  {
    hide RoutersVerdicts, HubVerdicts, SentTo, GotBy, For;
  }

  lemma HearVerdicts(cfg: Config, s: State, d: Name, c: Id, h: Heard, s': State, k: nat)
    requires ClientInv(cfg, s, k) && VerdictInv(s, k) && d in s.dests && c in s.dests[d].reg
    requires Hears(cfg, s, c, h) == Some(s')
    ensures VerdictInv(s', k)
  {
    hide Hears, ClientInv, HubVerdicts, RoutersVerdicts, SentTo, GotBy, For;
    HearsOnly(cfg, s, c, h, s');
    if c == IdOf(k) {
      ServedIsLinked(cfg, s, d, k);
      VerdictQueued(s, s', k);
    } else {
      assert SentTo(s.dVerdicts, IdOf(k)) + [] == SentTo(s.dVerdicts, IdOf(k));
    }
  }

  lemma RefuseVerdicts(cfg: Config, s: State, d: Name, s': State, k: nat)
    requires VerdictInv(s, k) && d in s.dests && Refuses(cfg, s, d, s.dests[d]) == Some(s')
    ensures VerdictInv(s', k)
  {
    hide HubVerdicts, RoutersVerdicts, SentTo, GotBy, For;
    if s.dests[d].pc.id == IdOf(k) {
      VerdictQueued(s, s', k);
    } else {
      assert SentTo(s.dVerdicts, IdOf(k)) + [] == SentTo(s.dVerdicts, IdOf(k));
    }
  }

  lemma DestVerdicts(cfg: Config, s: State, st: DestStep, s': State, k: nat)
    requires ClientInv(cfg, s, k) && VerdictInv(s, k) && DestDo(cfg, s, st) == Some(s')
    ensures VerdictInv(s', k)
  {
    hide ClientInv, VerdictInv, UdpTake, UdpGo, Refuses, Hears;
    match st
    case ByUdp(d, u) =>
      UdpRefusals(cfg, cfg.udp[d], s.dests[d], u, s.shutdown, IdOf(k));
      ServedIsLinked(cfg, s, d, k);
      DestMovesVerdicts(s, d, s'.dests[d], s', k);
    case UdpRefuse(d) => RefuseVerdicts(cfg, s, d, s', k);
    case ByListener(d, c, h) => HearVerdicts(cfg, s, d, c, h, s', k);
    case Transmit(d) => StillVerdicts(s, s', k);
    case Wipe(d) => StillVerdicts(s, s', k);
  }

  // ---------------------------------------------------------------- runs

  lemma KeepsVerdicts(cfg: Config, s: State, st: Step, s': State, k: nat)
    requires TableInv(cfg, s) && ClientInv(cfg, s, k) && VerdictInv(s, k) && Do(cfg, s, st) == Some(s')
    requires Distinct(s', k)
    ensures VerdictInv(s', k)
  {
    hide Wired, TableOk, ClientInv, VerdictInv, HubDo, ClientDo, DestDo;
    AllocsGrow(cfg, s, st, s');
    match st
    case AtHub(h) => HubVerdictsKept(cfg, s, h, s', k);
    case AtClient(c) => ClientVerdicts(cfg, s, c, s', k);
    case AtDest(d) => DestVerdicts(cfg, s, d, s', k);
    case _ => StillVerdicts(s, s', k);
  }

  lemma {:induction false} VerdictsHold(cfg: Config, r: Run, i: nat, k: nat)
    requires ValidConfig(cfg) && IsRun(cfg, r) && i < |r.states| && Distinct(r.states[i], k)
    ensures VerdictInv(r.states[i], k)
  {
    hide TableInv, ClientInv, VerdictInv, Do, Init;
    if i == 0 {
      VerdictInit(cfg, r.states[0], k);
    } else {
      AllocsGrow(cfg, r.states[i - 1], r.steps[i - 1], r.states[i]);
      TableHolds(cfg, r, i - 1);
      ClientHolds(cfg, r, i - 1, k);
      VerdictsHold(cfg, r, i - 1, k);
      KeepsVerdicts(cfg, r.states[i - 1], r.steps[i - 1], r.states[i], k);
    }
  }

  lemma VerdictInit(cfg: Config, s: State, k: nat)
    requires Init(cfg, s)
    ensures VerdictInv(s, k)
  {
  }

  // ---------------------------------------------------------------- theorems

  /** The verdicts for a client that are under way to its session: at the router, then at the hub. */
  function VerdictsUnderway(s: State, k: nat): seq<Verdict>
    requires Ses(s, k).owner in s.routers
  {
    var c, R := IdOf(k), s.routers[Ses(s, k).owner];
    HeldAnswer(R.pc, c) + For(R.verdicts.queue, c) + HeldVerdict(s.t.dpc, c) + For(s.dVerdicts.queue, c)
  }

  /**
   The verdicts that reached a client's session are a prefix of those sent for it, whatever they say; and none
   is lost while the client is in the table and linked.
   */
  lemma VerdictsArrive(cfg: Config, r: Run, i: nat, k: nat)
    requires ValidConfig(cfg) && IsRun(cfg, r) && i < |r.states| && Distinct(r.states[i], k)
    requires Ses(r.states[i], k).owner in r.states[i].routers
    ensures var s, c, S := r.states[i], IdOf(k), Ses(r.states[i], k);
      && S.verdictQ.Sent() <= SentTo(s.dVerdicts, c)
      && (c in s.t.clients && c in s.routers[S.owner].links ==>
          SentTo(s.dVerdicts, c) == S.verdictQ.Sent() + VerdictsUnderway(s, k))
  {
    hide IsRun, HeldVerdict, HeldAnswer, Answering, RefusersLinked, For;
    var s, c, S := r.states[i], IdOf(k), Ses(r.states[i], k);
    VerdictsHold(cfg, r, i, k);
    RouterOf(s, S.owner, k);
    GotIsPrefix(s.dVerdicts, c);
    GotIsPrefix(s.routers[S.owner].verdicts, c);
  }

  /** The first packet a client is shown is the first verdict sent for it, if its session waited for it. */
  lemma FirstVerdictIsShown(cfg: Config, r: Run, i: nat, k: nat)
    requires ValidConfig(cfg) && IsRun(cfg, r) && i < |r.states| && Distinct(r.states[i], k)
    requires Ses(r.states[i], k).verdictQ.got != [] && !Ses(r.states[i], k).phase.Telling?
    ensures Handed(r.states[i], k) != [] && SentTo(r.states[i].dVerdicts, IdOf(k)) != []
    ensures Handed(r.states[i], k)[0] == Told(SentTo(r.states[i].dVerdicts, IdOf(k))[0])
  {
    hide IsRun, VerdictInv, TableOk, DestsWired, LinksWired, Serials, SentTo, GotBy, For, VerdictsUnderway;
    var s := r.states[i];
    VerdictIsShown(cfg, r, i, k);
    TableHolds(cfg, r, i);
    if k in s.ses {
      assert SessionWired(cfg, s.ses[k], s.t.now);
    }
    VerdictsArrive(cfg, r, i, k);
  }
}
