/**
 How a session ends, and what its client and the hub learn of it. The invariant follows one session through
 its phases: which signals it has consumed, what it has shown its client, and what it has asked of the hub.
 */
module Endings {
  import opened Types
  import opened Channels
  import opened Machine
  import opened Frames
  import opened TableSafety
  import opened ClientInvariant
  import opened ClientSideProof
  import opened SessionProof
  import opened HubProof
  import opened Runs
  import opened Theorems

  // ---------------------------------------------------------------- one session

  /** Nothing has been consumed, shown or asked. */
  predicate Untouched(S: Session, asks: nat) {
    && S.verdictQ.got == [] && S.closeReq.got == [] && S.clientClose.got == [] && S.proxyClose.Sent() == []
    && S.packets.Sent() == [] && asks == 0
  }

  /** Why `w` is a refusal: the destination's own, or the session's after a close or at the end of the context. */
  predicate Refusing(S: Session, done: bool, w: Verdict) {
    && !w.accepted && S.clientClose.got == []
    && (|| (S.verdictQ.got == [w] && S.closeReq.got == [])
        || (&& S.verdictQ.got == [] && w == Verdict(false, [])
            && |S.closeReq.got| <= 1 && (S.closeReq.got == [] ==> done)))
  }

  /** The session gave up before the auth packet: the client left, the hub closed it, or the context is done. */
  predicate GaveUpEarly(S: Session, done: bool) {
    && S.inbox.got == [] && S.verdictQ.got == [] && S.proxyClose.Sent() == [] && S.packets.Sent() == []
    && |S.closeReq.got| + |S.clientClose.got| <= 1 && (S.closeReq.got == [] && S.clientClose.got == [] ==> done)
  }

  /** The session ended after it had asked: its client left unanswered, or was shown exactly one refusal. */
  predicate EndedLate(S: Session, done: bool) {
    || (&& |S.clientClose.got| == 1 && S.verdictQ.got == [] && S.closeReq.got == [] && S.packets.Sent() == [])
    || (&& |S.packets.Sent()| == 1 && S.packets.Sent()[0].Told? && Refusing(S, done, S.packets.Sent()[0].verdict))
  }

  predicate Unreadable(cfg: Config, S: Session) {
    |S.inbox.got| == 1 && cfg.parse(S.inbox.got[0]).None?
  }

  /** The relay goroutines: each ends for a cause, and says so once. */
  predicate RelayEnds(S: Session, done: bool, out: OutPc, inn: InPc, asks: nat) {
    var outEnds, inEnds := out.OutSignal? || out.OutDone?, inn.InAsk? || inn.InDone?;
    && |S.verdictQ.got| == 1 && S.verdictQ.got[0].accepted
    && S.packets.Sent() != [] && S.packets.Sent()[0] == Told(S.verdictQ.got[0])
    && |S.proxyClose.Sent()| == If(out.OutDone?) && asks == If(inn.InDone?)
    && If(outEnds) <= |S.closeReq.got| <= If(outEnds) + If(inEnds)
    && (inEnds && |S.closeReq.got| == If(outEnds) ==> done)
  }

  /** What one session has been through; `asks` counts the closes it asked of the hub. */
  ghost predicate EndOk(cfg: Config, S: Session, done: bool, opens: seq<Auth>, asks: nat) {
    match S.phase
    case Asking => GaveUpEarly(S, done) && asks == 0
    case WaitVerdict => Untouched(S, asks) && opens != []
    case Telling(w) =>
      && opens != [] && S.packets.Sent() == [] && S.proxyClose.Sent() == [] && asks == 0
      && (if w.accepted then S.verdictQ.got == [w] && S.closeReq.got == [] && S.clientClose.got == []
          else Refusing(S, done, w))
    case Signalling => opens != [] && EndedLate(S, done) && S.proxyClose.Sent() == [] && asks == 0
    case Stopped =>
      if opens != [] then EndedLate(S, done) && |S.proxyClose.Sent()| == 1 && asks == 0
      else (GaveUpEarly(S, done) && asks == 1) || (Untouched(S, asks) && Unreadable(cfg, S))
    case Relaying(out, inn) => opens != [] && RelayEnds(S, done, out, inn, asks)
    case _ => Untouched(S, asks)
  }

  function AsksAfter(asks: nat, e: Emit): nat {
    asks + If(e.EmitClose?)
  }

  lemma HandshakeEnds(cfg: Config, S: Session, done: bool, opens: seq<Auth>, asks: nat)
    requires EndOk(cfg, S, done, opens, asks) && AuthOk(cfg, S.phase, S.inbox.got, opens)
    requires !S.phase.Relaying? && HandshakeGo(cfg, S).Some?
    ensures var r := HandshakeGo(cfg, S).value; EndOk(cfg, r.0, done, OpensAfter(opens, r.1), AsksAfter(asks, r.1))
  {
  }

  lemma BreakOffEnds(cfg: Config, S: Session, done: bool, st: SessionStep, opens: seq<Auth>, asks: nat)
    requires EndOk(cfg, S, done, opens, asks) && AuthOk(cfg, S.phase, S.inbox.got, opens)
    requires !S.phase.Relaying? && BreakOff(S, done, st).Some?
    ensures var r := BreakOff(S, done, st).value; EndOk(cfg, r.0, done, OpensAfter(opens, r.1), AsksAfter(asks, r.1))
  {
  }

  lemma OutEnds(cfg: Config, S: Session, done: bool, st: SessionStep, opens: seq<Auth>, asks: nat)
    requires EndOk(cfg, S, done, opens, asks) && S.phase.Relaying?
    requires OutGo(cfg, S, S.phase.out, S.phase.inn, st).Some?
    ensures OutGo(cfg, S, S.phase.out, S.phase.inn, st).value.1.Quiet?
    ensures EndOk(cfg, OutGo(cfg, S, S.phase.out, S.phase.inn, st).value.0, done, opens, asks)
  {
    hide Untouched, Refusing, GaveUpEarly, EndedLate, Unreadable;
  }

  lemma InEnds(cfg: Config, S: Session, done: bool, st: SessionStep, opens: seq<Auth>, asks: nat)
    requires EndOk(cfg, S, done, opens, asks) && S.phase.Relaying?
    requires InGo(S, done, S.phase.out, S.phase.inn, st).Some?
    ensures var r := InGo(S, done, S.phase.out, S.phase.inn, st).value;
      EndOk(cfg, r.0, done, OpensAfter(opens, r.1), AsksAfter(asks, r.1))
  {
    hide Untouched, Refusing, GaveUpEarly, EndedLate, Unreadable;
  }

  lemma SessionEnds(cfg: Config, S: Session, done: bool, st: SessionStep, opens: seq<Auth>, asks: nat)
    requires EndOk(cfg, S, done, opens, asks) && AuthOk(cfg, S.phase, S.inbox.got, opens)
    requires SessionGo(cfg, S, done, st).Some?
    ensures var r := SessionGo(cfg, S, done, st).value;
      EndOk(cfg, r.0, done, OpensAfter(opens, r.1), AsksAfter(asks, r.1))
  {
    hide OutGo, InGo, HandshakeGo, BreakOff, EndOk, AuthOk;
    if S.phase.Relaying? {
      if st.OutTake? || st.OutSend? || st.OutClose? || st.OutTell? {
        OutEnds(cfg, S, done, st, opens, asks);
      } else {
        InEnds(cfg, S, done, st, opens, asks);
      }
    } else if st.Proceed? {
      HandshakeEnds(cfg, S, done, opens, asks);
    } else {
      BreakOffEnds(cfg, S, done, st, opens, asks);
    }
  }

  /** What the transport, the router or time add takes nothing back. */
  lemma OthersKeepEnd(cfg: Config, S: Session, S': Session, done: bool, done': bool, opens: seq<Auth>, asks: nat)
    requires EndOk(cfg, S, done, opens, asks) && (done ==> done')
    requires S'.phase == S.phase && S'.inbox.got == S.inbox.got && S'.packets.Sent() == S.packets.Sent()
    requires S'.verdictQ.got == S.verdictQ.got && S'.closeReq.got == S.closeReq.got
    requires S'.clientClose.got == S.clientClose.got && S'.proxyClose.Sent() == S.proxyClose.Sent()
    ensures EndOk(cfg, S', done', opens, asks)
  {
  }

  // ---------------------------------------------------------------- every step

  ghost predicate EndInv(cfg: Config, s: State, k: nat) {
    var c, S := IdOf(k), Ses(s, k);
    EndOk(cfg, S, S.cancelled || s.shutdown, SentTo(s.cOpens, c), |SentTo(s.cCloses, c)|)
  }

  /** A step that leaves the session's own part alone, or only adds to it from outside. */
  lemma StaysEnd(cfg: Config, s: State, s': State, k: nat)
    requires EndInv(cfg, s, k) && (s.shutdown ==> s'.shutdown)
    requires SentTo(s'.cOpens, IdOf(k)) == SentTo(s.cOpens, IdOf(k))
    requires SentTo(s'.cCloses, IdOf(k)) == SentTo(s.cCloses, IdOf(k))
    requires var S, S' := Ses(s, k), Ses(s', k);
      && S'.phase == S.phase && S'.inbox.got == S.inbox.got && S'.packets.Sent() == S.packets.Sent()
      && S'.verdictQ.got == S.verdictQ.got && S'.closeReq.got == S.closeReq.got
      && S'.clientClose.got == S.clientClose.got && S'.proxyClose.Sent() == S.proxyClose.Sent()
      && (S.cancelled ==> S'.cancelled)
    ensures EndInv(cfg, s', k)
  {
    hide EndOk, SentTo;
    OthersKeepEnd(cfg, Ses(s, k), Ses(s', k), Ses(s, k).cancelled || s.shutdown, Ses(s', k).cancelled || s'.shutdown,
                  SentTo(s.cOpens, IdOf(k)), |SentTo(s.cCloses, IdOf(k))|);
  }

  lemma HubAsks(cfg: Config, s: State, st: HubStep, s': State, c: Id)
    requires HubDo(cfg, s, st) == Some(s')
    ensures SentTo(s'.cOpens, c) == SentTo(s.cOpens, c) && SentTo(s'.cCloses, c) == SentTo(s.cCloses, c)
  {
    hide ClientGo, DestGo, TickGo, DrainGo, HubGo, ClientIdle, DestIdle, SentTo, GotBy, For;
    match st
    case ByClientLoop(x) =>
      if s.t.cpc.CIdle? { IdleAsks(s, x, s', c); } else { HubTable(cfg, s, ClientGo(cfg, s.t, x.time), s'); }
    case ByDestLoop(x) =>
      if s.t.dpc.DIdle? { DestTakes(s, x, s'); } else { HubTable(cfg, s, DestGo(cfg, s.t, x.time), s'); }
    case ByTicker(t) => HubTable(cfg, s, TickGo(cfg, s.t, t), s');
    case ByDrain(pick) => HubTable(cfg, s, DrainGo(cfg, s.t, pick), s');
    case Quits =>
  }

  lemma IdleAsks(s: State, st: LoopStep, s': State, c: Id)
    requires ClientIdle(s, st) == Some(s')
    ensures SentTo(s'.cOpens, c) == SentTo(s.cOpens, c) && SentTo(s'.cCloses, c) == SentTo(s.cCloses, c)
  {
    hide SentTo, GotBy, For;
  }

  lemma TransportEnd(cfg: Config, S: Session, st: TransportStep)
    requires TransportGo(cfg, S, st).Some?
    ensures var S' := TransportGo(cfg, S, st).value;
      && S'.clientClose.got == S.clientClose.got && S'.proxyClose.Sent() == S.proxyClose.Sent()
      && S'.verdictQ == S.verdictQ && S'.closeReq == S.closeReq && (S.cancelled ==> S'.cancelled)
  {
  }

  lemma ReceiveEnd(cfg: Config, S: Session, pc: RouterPc)
    requires Receive(cfg, S, pc).Some?
    ensures var S' := Receive(cfg, S, pc).value; S'.verdictQ.got == S.verdictQ.got && S'.closeReq.got == S.closeReq.got
  {
  }

  lemma OwnSessionEnds(cfg: Config, s: State, st: SessionStep, s': State, k: nat)
    requires EndInv(cfg, s, k) && ClientInv(cfg, s, k) && k in s.ses && SessionDoes(cfg, s, k, st) == Some(s')
    ensures EndInv(cfg, s', k)
  {
    hide SessionDoes, SessionGo, EndOk, AuthOk, UpOk, FacingOk, HubOk, RoutersOk, DestsOk, SentTo, GotBy, For;
    var S, c := s.ses[k], IdOf(k);
    var done := S.cancelled || s.shutdown;
    SessionEmits(cfg, s, k, st, s');
    SessionCancels(cfg, S, done, st);
    SessionEnds(cfg, S, done, st, SentTo(s.cOpens, c), |SentTo(s.cCloses, c)|);
  }

  lemma SessionCancels(cfg: Config, S: Session, done: bool, st: SessionStep)
    requires SessionGo(cfg, S, done, st).Some?
    ensures SessionGo(cfg, S, done, st).value.0.cancelled == S.cancelled
  {
  }

  /** Another client's session cannot speak for this one. */
  lemma OtherSessionEnds(cfg: Config, s: State, n: nat, st: SessionStep, s': State, k: nat)
    requires EndInv(cfg, s, k) && n in s.ses && n != k && SessionDoes(cfg, s, n, st) == Some(s')
    requires Serials(s.ses, s.t.allocs) && Distinct(s, k)
    ensures EndInv(cfg, s', k)
  {
    hide SessionDoes, SessionGo, EndInv, SentTo, GotBy, For;
    SessionEmits(cfg, s, n, st, s');
    IdsDistinct(n, k);
    assert SentTo(s.cOpens, IdOf(k)) + [] == SentTo(s.cOpens, IdOf(k));
    assert SentTo(s.cCloses, IdOf(k)) + [] == SentTo(s.cCloses, IdOf(k));
    StaysEnd(cfg, s, s', k);
  }

  /** A session is born, admitted and linked before it does anything. */
  lemma YoungEnds(cfg: Config, s: State, n: nat, S: Session, s': State, k: nat)
    requires EndInv(cfg, s, k) && s'.ses == s.ses[n := S] && s'.cOpens == s.cOpens && s'.cCloses == s.cCloses
    requires s'.shutdown == s.shutdown && !Linked(Ses(s, n).phase)
    requires Early(S.phase) && !S.phase.Asking? && S == Ses(s, n).(owner := S.owner, phase := S.phase)
    ensures EndInv(cfg, s', k)
  {
    hide SentTo;
  }

  lemma DemuxEnds(cfg: Config, s: State, n: Name, s': State, k: nat)
    requires EndInv(cfg, s, k) && n in s.routers && RouterGives(cfg, s, n, s.routers[n]) == Some(s')
    ensures EndInv(cfg, s', k)
  {
    hide RouterGives, Receive, EndInv, SentTo;
    Gives(cfg, s, n, s');
    var R, id := s.routers[n], Holding(s.routers[n].pc).value;
    if id in R.links && R.links[id] in s.ses {
      ReceiveStays(cfg, s.ses[R.links[id]], R.pc);
      ReceiveEnd(cfg, s.ses[R.links[id]], R.pc);
    }
    StaysEnd(cfg, s, s', k);
  }

  lemma ClientEnds(cfg: Config, s: State, st: ClientStep, s': State, k: nat)
    requires TableInv(cfg, s) && ClientInv(cfg, s, k) && EndInv(cfg, s, k) && ClientDo(cfg, s, st) == Some(s')
    requires Distinct(s', k) && s.t.allocs <= s'.t.allocs
    ensures EndInv(cfg, s', k)
  {
    hide TableOk, ClientInv, EndInv, Admitted, LinkIn, SessionDoes, SessionGo, TransportGo, RouterTake, RouterGives,
      RoutersWired, DestsWired, SessionsWired, LinksWired, SentTo, GotBy, For;
    match st
    case Connection(r) => YoungEnds(cfg, s, s.t.allocs + 1, Newborn(r, s.t.now), s', k);
    case Admit(n, time) => Admits(cfg, s, n, time, s'); YoungEnds(cfg, s, n, s'.ses[n], s', k);
    case Link(n) => Links(s, n, s'); YoungEnds(cfg, s, n, s'.ses[n], s', k);
    case BySession(n, x) =>
      if n == k { OwnSessionEnds(cfg, s, x, s', k); } else { OtherSessionEnds(cfg, s, n, x, s', k); }
    case ByTransport(n, x) =>
      TransportStays(cfg, s.ses[n], x);
      TransportEnd(cfg, s.ses[n], x);
      StaysEnd(cfg, s, s', k);
    case Demux(n) => DemuxEnds(cfg, s, n, s', k);
    case _ => StaysEnd(cfg, s, s', k);
  }

  lemma KeepsEnd(cfg: Config, s: State, st: Step, s': State, k: nat)
    requires TableInv(cfg, s) && ClientInv(cfg, s, k) && EndInv(cfg, s, k) && Do(cfg, s, st) == Some(s')
    requires Distinct(s', k)
    ensures EndInv(cfg, s', k)
  {
    hide TableInv, ClientInv, EndInv, HubDo, ClientDo, DestDo, SentTo;
    AllocsGrow(cfg, s, st, s');
    match st
    case AtHub(h) => HubFrame(cfg, s, h, s'); HubAsks(cfg, s, h, s', IdOf(k)); StaysEnd(cfg, s, s', k);
    case AtClient(c) => ClientEnds(cfg, s, c, s', k);
    case AtDest(d) => DestFrame(cfg, s, d, s'); StaysEnd(cfg, s, s', k);
    case _ => StaysEnd(cfg, s, s', k);
  }

  lemma {:induction false} EndHolds(cfg: Config, r: Run, i: nat, k: nat)
    requires ValidConfig(cfg) && IsRun(cfg, r) && i < |r.states| && Distinct(r.states[i], k)
    ensures EndInv(cfg, r.states[i], k)
  {
    hide TableInv, ClientInv, EndInv, Do, Init;
    if i == 0 {
      EndInit(cfg, r.states[0], k);
    } else {
      AllocsGrow(cfg, r.states[i - 1], r.steps[i - 1], r.states[i]);
      TableHolds(cfg, r, i - 1);
      ClientHolds(cfg, r, i - 1, k);
      EndHolds(cfg, r, i - 1, k);
      KeepsEnd(cfg, r.states[i - 1], r.steps[i - 1], r.states[i], k);
    }
  }

  lemma EndInit(cfg: Config, s: State, k: nat)
    requires Init(cfg, s)
    ensures EndInv(cfg, s, k)
  {
  }

  // ---------------------------------------------------------------- theorems

  /** A verdict that its session has taken is shown to the client, accepting or refusing, as the first packet. */
  lemma VerdictIsShown(cfg: Config, r: Run, i: nat, k: nat)
    requires ValidConfig(cfg) && IsRun(cfg, r) && i < |r.states| && Distinct(r.states[i], k)
    requires Ses(r.states[i], k).verdictQ.got != [] && !Ses(r.states[i], k).phase.Telling?
    ensures Handed(r.states[i], k) != [] && Handed(r.states[i], k)[0] == Told(Ses(r.states[i], k).verdictQ.got[0])
    ensures |Ses(r.states[i], k).verdictQ.got| == 1
  {
    hide IsRun, SentTo;
    EndHolds(cfg, r, i, k);
  }

  /**
   A session that stopped after it had asked the hub was shown exactly one refusal, unless its client hung up
   first; its transport was told to close. The refusal is the destination's own, or follows a close from the
   hub or the end of the context.
   */
  lemma StoppedIsRefused(cfg: Config, r: Run, i: nat, k: nat)
    requires ValidConfig(cfg) && IsRun(cfg, r) && i < |r.states| && Distinct(r.states[i], k)
    requires Ses(r.states[i], k).phase.Stopped? && SentTo(r.states[i].cOpens, IdOf(k)) != []
    ensures var S := Ses(r.states[i], k);
      && |S.proxyClose.Sent()| == 1
      && (S.clientClose.got == [] ==>
          && |Handed(r.states[i], k)| == 1 && Handed(r.states[i], k)[0].Told?
          && !Handed(r.states[i], k)[0].verdict.accepted
          && (S.verdictQ.got == [Handed(r.states[i], k)[0].verdict]
              || S.closeReq.got != [] || S.cancelled || r.states[i].shutdown))
      && (S.clientClose.got != [] ==> Handed(r.states[i], k) == [])
  {
    hide IsRun, SentTo;
    EndHolds(cfg, r, i, k);
  }

  /** A session that stopped before it asked has asked the hub for one close, unless its packet was unreadable. */
  lemma StoppedEarlyAsksForClose(cfg: Config, r: Run, i: nat, k: nat)
    requires ValidConfig(cfg) && IsRun(cfg, r) && i < |r.states| && Distinct(r.states[i], k)
    requires Ses(r.states[i], k).phase.Stopped? && SentTo(r.states[i].cOpens, IdOf(k)) == []
    ensures var s, S := r.states[i], Ses(r.states[i], k);
      && Handed(s, k) == []
      && |SentTo(s.cCloses, IdOf(k))| == If(!Unreadable(cfg, S))
      && (!Unreadable(cfg, S) ==>
          S.clientClose.got != [] || S.closeReq.got != [] || S.cancelled || s.shutdown)
  {
    hide IsRun, SentTo;
    EndHolds(cfg, r, i, k);
  }

  /**
   A relaying session: each close from the hub that it takes ends one of its two goroutines. The one towards
   the client tells the transport, once; the one towards the hub asks for a close, once; and neither ends
   without a cause.
   */
  lemma RelayEndings(cfg: Config, r: Run, i: nat, k: nat)
    requires ValidConfig(cfg) && IsRun(cfg, r) && i < |r.states| && Distinct(r.states[i], k)
    requires Ses(r.states[i], k).phase.Relaying?
    ensures var s, S := r.states[i], Ses(r.states[i], k);
      var outEnds := S.phase.out.OutSignal? || S.phase.out.OutDone?;
      var inEnds := S.phase.inn.InAsk? || S.phase.inn.InDone?;
      && |S.proxyClose.Sent()| == If(S.phase.out.OutDone?) && |SentTo(s.cCloses, IdOf(k))| == If(S.phase.inn.InDone?)
      && |S.closeReq.got| <= If(outEnds) + If(inEnds) && (outEnds ==> S.closeReq.got != [])
      && (inEnds ==> S.closeReq.got != [] || S.cancelled || s.shutdown)
      && (inEnds && outEnds && |S.closeReq.got| == 1 ==> S.cancelled || s.shutdown)
  {
    hide IsRun, SentTo;
    EndHolds(cfg, r, i, k);
  }
}
