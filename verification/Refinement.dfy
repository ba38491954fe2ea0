/**
 The hub, seen by one client and one destination, is a simple machine: a request, a verdict, and two
 first-in first-out pipes that can only ever lose a suffix. Every step of every run is a step of that
 machine, or invisible to the two.
 */
module Refinement {
  import opened Types
  import opened Channels
  import opened UdpRules
  import opened Machine
  import opened Frames
  import opened Grammar
  import opened TableSafety
  import opened ClientSideProof
  import opened Runs
  import opened Theorems
  import opened Handshake

  /** What client and destination can observe of their connection. */
  datatype Pipe = Pipe(
    pushed: seq<Bytes>,     // packets the client sent
    offered: seq<Bytes>,    // payloads the destination sent
    accepts: seq<Bytes>,    // accepting verdicts the destination sent
    talk: Talk,             // what the destination was sent
    faced: Facing)          // what the client was sent

  function View(s: State, d: Name, k: nat): Pipe {
    Pipe(Pushed(s, k), AcceptedData(s, k), For(s.accepts, IdOf(k)), Talked(Queued(s, d, k)), Faced(Handed(s, k)))
  }

  // ---------------------------------------------------------------- the simple machine

  ghost predicate ClientPushes(a: Pipe, b: Pipe, x: Bytes) {
    b == a.(pushed := a.pushed + [x])
  }

  ghost predicate DestinationSends(a: Pipe, b: Pipe, x: Bytes) {
    b == a.(offered := a.offered + [x])
  }

  ghost predicate DestinationAccepts(a: Pipe, b: Pipe, app: Bytes) {
    b == a.(accepts := a.accepts + [app])
  }

  /** The client's own first packet opens the connection, at the first match and the address it names. */
  ghost predicate Requested(cfg: Config, d: Name, a: Pipe, b: Pipe) {
    && a.talk.NotOpened? && a.pushed != [] && cfg.parse(a.pushed[0]).Some? && d in cfg.udp
    && var auth := cfg.parse(a.pushed[0]).value;
       FirstMatch(cfg.dests, cfg.matches, auth.conn) == Some(d) && Target(cfg.udp[d], auth.conn).Some?
       && b == a.(talk := Opened(Target(cfg.udp[d], auth.conn).value, auth.app, []))
  }

  /** The next packet of the client, once it was told that it is accepted. */
  ghost predicate PassedUp(a: Pipe, b: Pipe) {
    && a.talk.Opened? && a.faced.Accepted? && |a.talk.sent| + 1 < |a.pushed|
    && b == a.(talk := Opened(a.talk.to, a.talk.app, a.talk.sent + [a.pushed[|a.talk.sent| + 1]]))
  }

  ghost predicate Finished(a: Pipe, b: Pipe) {
    a.talk.Opened? && b == a.(talk := Closed(a.talk.to, a.talk.app, a.talk.sent))
  }

  ghost predicate ToldNo(a: Pipe, b: Pipe) {
    a.faced.Silent? && b == a.(faced := Facing.Refused)
  }

  ghost predicate ToldYes(a: Pipe, b: Pipe) {
    a.faced.Silent? && b.faced.Accepted? && b.faced.app in a.accepts && b == a.(faced := Accepted(b.faced.app, []))
  }

  /** The next payload of the destination, once the client knows it was accepted. */
  ghost predicate PassedDown(a: Pipe, b: Pipe) {
    && a.faced.Accepted? && |a.faced.data| < |a.offered|
    && b == a.(faced := Accepted(a.faced.app, a.faced.data + [a.offered[|a.faced.data|]]))
  }

  ghost predicate PipeStep(cfg: Config, d: Name, a: Pipe, b: Pipe) {
    || a == b
    || (exists x: Bytes :: ClientPushes(a, b, x))
    || (exists x: Bytes :: DestinationSends(a, b, x))
    || (exists app: Bytes :: DestinationAccepts(a, b, app))
    || Requested(cfg, d, a, b) || PassedUp(a, b) || Finished(a, b)
    || ToldNo(a, b) || ToldYes(a, b) || PassedDown(a, b)
  }

  /** The machine's rest state. */
  const NEW_PIPE: Pipe := Pipe([], [], [], NotOpened, Silent)

  // ---------------------------------------------------------------- what a step of the hub shows

  /** The five things client and destination see, before they are read as conversations. */
  datatype Raw = Raw(
    pushed: seq<Bytes>, offered: seq<Bytes>, accepts: seq<Bytes>, queued: seq<Datagram>, handed: seq<Packet>)

  function RawView(s: State, d: Name, k: nat): Raw {
    Raw(Pushed(s, k), AcceptedData(s, k), For(s.accepts, IdOf(k)), Queued(s, d, k), Handed(s, k))
  }

  /** A step shows at most one new thing. */
  ghost predicate OneMore(a: Raw, b: Raw) {
    || a == b
    || (|b.pushed| == |a.pushed| + 1 && a.pushed <= b.pushed && b == a.(pushed := b.pushed))
    || (|b.offered| == |a.offered| + 1 && a.offered <= b.offered && b == a.(offered := b.offered))
    || (|b.accepts| == |a.accepts| + 1 && a.accepts <= b.accepts && b == a.(accepts := b.accepts))
    || (|b.queued| == |a.queued| + 1 && a.queued <= b.queued && b == a.(queued := b.queued))
    || (|b.handed| == |a.handed| + 1 && a.handed <= b.handed && b == a.(handed := b.handed))
  }

  lemma HubShows(cfg: Config, s: State, st: HubStep, s': State, d: Name, k: nat)
    requires HubDo(cfg, s, st) == Some(s')
    ensures RawView(s', d, k) == RawView(s, d, k)
  {
    hide ClientGo, DestGo, TickGo, DrainGo, HubGo, ClientIdle, DestIdle, RawView;
    match st
    case ByClientLoop(c) =>
      if s.t.cpc.CIdle? {
        ClientReadShows(s, c, s', d, k);
      } else {
        SendsShow(cfg, s, ClientGo(cfg, s.t, c.time), s', d, k);
      }
    case ByDestLoop(c) =>
      if s.t.dpc.DIdle? {
        DestReadShows(s, c, s', d, k);
      } else {
        SendsShow(cfg, s, DestGo(cfg, s.t, c.time), s', d, k);
      }
    case ByTicker(t) => SendsShow(cfg, s, TickGo(cfg, s.t, t), s', d, k);
    case ByDrain(pick) => SendsShow(cfg, s, DrainGo(cfg, s.t, pick), s', d, k);
    case Quits => SameParts(s, s', d, k);
  }

  lemma SameParts(s: State, s': State, d: Name, k: nat)
    requires s'.ses == s.ses && s'.dests == s.dests && s'.dMsgs == s.dMsgs && s'.accepts == s.accepts
    ensures RawView(s', d, k) == RawView(s, d, k)
  {
  }

  lemma ClientReadShows(s: State, st: LoopStep, s': State, d: Name, k: nat)
    requires ClientIdle(s, st) == Some(s')
    ensures RawView(s', d, k) == RawView(s, d, k)
  {
    hide ClientIdle, RawView;
    ClientTakes(s, st, s');
    SameParts(s, s', d, k);
  }

  lemma DestReadShows(s: State, st: LoopStep, s': State, d: Name, k: nat)
    requires DestIdle(s, st) == Some(s')
    ensures RawView(s', d, k) == RawView(s, d, k)
  {
  }

  lemma SendsShow(cfg: Config, s: State, r: Option<(Table, Out)>, s': State, d: Name, k: nat)
    requires HubGo(cfg, s, r) == Some(s')
    ensures RawView(s', d, k) == RawView(s, d, k)
  {
    hide Fits, Sends, RouterAfter, SentTo, GotBy, For;
    HubSends(cfg, s, r, s');
  }

  lemma ClientShows(cfg: Config, s: State, st: ClientStep, s': State, d: Name, k: nat)
    requires Serials(s.ses, s.t.allocs) && ClientDo(cfg, s, st) == Some(s')
    ensures OneMore(RawView(s, d, k), RawView(s', d, k))
  {
    hide LinkIn, SessionDoes, TransportGo, RouterTake, RouterGives, Admitted, SessionGo, RawView;
    ClientFrame(cfg, s, st, s');
    match st
    case Connection(r) => BornShows(s, r, d, k);
    case Admit(n, time) => Admits(cfg, s, n, time, s'); SessionMovesShow(s, n, s'.ses[n], s', d, k);
    case Link(n) => Links(s, n, s'); SessionMovesShow(s, n, s'.ses[n], s', d, k);
    case BySession(n, x) =>
      SessionEmits(cfg, s, n, x, s');
      SessionShows(cfg, s.ses[n], s.ses[n].cancelled || s.shutdown, x);
      SessionMovesShow(s, n, s'.ses[n], s', d, k);
    case ByTransport(n, x) => TransportShows(cfg, s.ses[n], x); SessionMovesShow(s, n, s'.ses[n], s', d, k);
    case Demux(n) => DemuxShows(cfg, s, n, s', d, k);
    case _ => SameParts(s, s', d, k);
  }

  lemma BornShows(s: State, r: Name, d: Name, k: nat)
    requires Serials(s.ses, s.t.allocs)
    ensures RawView(Connected(s, r), d, k) == RawView(s, d, k)
  {
  }

  /** A session may take or give one packet in a step. */
  lemma SessionMovesShow(s: State, n: nat, S: Session, s': State, d: Name, k: nat)
    requires n in s.ses && s'.ses == s.ses[n := S] && s'.dests == s.dests && s'.dMsgs == s.dMsgs
    requires s'.accepts == s.accepts
    requires s.ses[n].inbox.Sent() <= S.inbox.Sent() && s.ses[n].packets.Sent() <= S.packets.Sent()
    requires |S.inbox.Sent()| + |S.packets.Sent()| <= |s.ses[n].inbox.Sent()| + |s.ses[n].packets.Sent()| + 1
    ensures OneMore(RawView(s, d, k), RawView(s', d, k))
  {
    hide For;
  }

  lemma SessionShows(cfg: Config, S: Session, done: bool, st: SessionStep)
    requires SessionGo(cfg, S, done, st).Some?
    ensures var S' := SessionGo(cfg, S, done, st).value.0;
      && S'.inbox.Sent() == S.inbox.Sent()
      && S.packets.Sent() <= S'.packets.Sent() && |S'.packets.Sent()| <= |S.packets.Sent()| + 1
  {
  }

  lemma TransportShows(cfg: Config, S: Session, st: TransportStep)
    requires TransportGo(cfg, S, st).Some?
    ensures var S' := TransportGo(cfg, S, st).value;
      && S'.packets.Sent() == S.packets.Sent()
      && S.inbox.Sent() <= S'.inbox.Sent() && |S'.inbox.Sent()| <= |S.inbox.Sent()| + 1
  {
  }

  lemma DemuxShows(cfg: Config, s: State, n: Name, s': State, d: Name, k: nat)
    requires n in s.routers && RouterGives(cfg, s, n, s.routers[n]) == Some(s')
    ensures RawView(s', d, k) == RawView(s, d, k)
  {
    hide RouterGives, Receive, SentTo, GotBy, For;
    Gives(cfg, s, n, s');
    var R, id := s.routers[n], Holding(s.routers[n].pc).value;
    if id in R.links && R.links[id] in s.ses {
      ReceiveStays(cfg, s.ses[R.links[id]], R.pc);
    }
  }

  lemma DestShows(cfg: Config, s: State, st: DestStep, s': State, d: Name, k: nat)
    requires DestDo(cfg, s, st) == Some(s')
    ensures OneMore(RawView(s, d, k), RawView(s', d, k))
  {
    hide UdpTake, UdpGo, Hears, RawView, OneMore, SentTo, GotBy, For;
    match st
    case ByUdp(n, u) => UdpShows(cfg, s, n, u, s', d, k);
    case UdpRefuse(n) => DestMovesShow(s, n, s'.dests[n], s', d, k);
    case ByListener(n, c, h) => HearsShow(cfg, s, c, h, s', d, k);
    case Transmit(n) => DestMovesShow(s, n, s'.dests[n], s', d, k);
    case Wipe(n) => DestMovesShow(s, n, s'.dests[n], s', d, k);
  }

  lemma DestMovesShow(s: State, n: Name, D': Dest, s': State, d: Name, k: nat)
    requires n in s.dests && s'.dests == s.dests[n := D'] && s'.ses == s.ses && s'.dMsgs == s.dMsgs
    requires s'.accepts == s.accepts
    requires SentTo(s.dests[n].out, IdOf(k)) <= SentTo(D'.out, IdOf(k))
    requires |SentTo(D'.out, IdOf(k))| <= |SentTo(s.dests[n].out, IdOf(k))| + 1
    ensures OneMore(RawView(s, d, k), RawView(s', d, k))
  {
    hide For, SentTo, GotBy;
    if n != d || |SentTo(D'.out, IdOf(k))| == |SentTo(s.dests[n].out, IdOf(k))| {
      assert Queued(s', d, k) == Queued(s, d, k);
    }
  }

  lemma HearsShow(cfg: Config, s: State, c: Id, h: Heard, s': State, d: Name, k: nat)
    requires Hears(cfg, s, c, h) == Some(s')
    ensures OneMore(RawView(s, d, k), RawView(s', d, k))
  {
    hide Hears, For, SentTo, GotBy;
    HearsOnly(cfg, s, c, h, s');
    match h
    case HVerdict(accepted, app) =>
      LogFor(s.accepts, Env(c, app), IdOf(k));
      assert For(s.accepts, IdOf(k)) + [] == For(s.accepts, IdOf(k));
    case HData(data) =>
      assert AcceptedData(s, k) + [] == AcceptedData(s, k);
      assert AcceptedData(s', k) == AcceptedData(s, k) + One(Env(c, data), IdOf(k));
    case HClose =>
  }

  lemma UdpShows(cfg: Config, s: State, n: Name, st: UdpStep, s': State, d: Name, k: nat)
    requires n in s.dests && n in cfg.udp && UdpDoes(cfg, s, n, st) == Some(s')
    ensures OneMore(RawView(s, d, k), RawView(s', d, k))
  {
    hide UdpTake, UdpGo, RawView, OneMore, SentTo, GotBy, For;
    if s.dests[n].pc.UIdle? {
      TakeQueues(s.dests[n], st, s.shutdown);
    } else {
      GoQueues(cfg, cfg.udp[n], s.dests[n], IdOf(k));
    }
    DestMovesShow(s, n, s'.dests[n], s', d, k);
  }

  lemma TakeQueues(D: Dest, st: UdpStep, shutdown: bool)
    requires UdpTake(D, st, shutdown).Some?
    ensures UdpTake(D, st, shutdown).value.out == D.out
  {
  }

  lemma GoQueues(cfg: Config, u: UdpConfig, D: Dest, c: Id)
    requires UdpGo(cfg, u, D).Some?
    ensures var D' := UdpGo(cfg, u, D).value;
      SentTo(D.out, c) <= SentTo(D'.out, c) && |SentTo(D'.out, c)| <= |SentTo(D.out, c)| + 1
  {
    hide Target, For, SentTo, GotBy;
  }

  lemma StepShows(cfg: Config, s: State, st: Step, s': State, d: Name, k: nat)
    requires Serials(s.ses, s.t.allocs) && Do(cfg, s, st) == Some(s')
    ensures OneMore(RawView(s, d, k), RawView(s', d, k))
  {
    hide HubDo, ClientDo, DestDo, SentTo, GotBy, For;
    match st
    case AtHub(h) => HubShows(cfg, s, h, s', d, k);
    case AtClient(c) => ClientShows(cfg, s, c, s', d, k);
    case AtDest(x) => DestShows(cfg, s, x, s', d, k);
    case _ =>
  }

  // ---------------------------------------------------------------- refinement

  lemma LastOf<T>(a: seq<T>, b: seq<T>)
    requires a <= b && |b| == |a| + 1
    ensures b == a + [b[|a|]]
  {
  }

  /** What `DestinationSees` and `Dispatch` say, of the pipe alone. */
  ghost predicate TalkFits(cfg: Config, d: Name, p: Pipe) {
    && !p.talk.Garbled?
    && (p.talk.Opened? || p.talk.Closed? ==>
        && d in cfg.udp && p.pushed != [] && cfg.parse(p.pushed[0]).Some?
        && p.talk.app == cfg.parse(p.pushed[0]).value.app
        && Target(cfg.udp[d], cfg.parse(p.pushed[0]).value.conn) == Some(p.talk.to)
        && p.talk.sent <= p.pushed[1..]
        && FirstMatch(cfg.dests, cfg.matches, cfg.parse(p.pushed[0]).value.conn) == Some(d)
        && (p.talk.sent != [] ==> p.faced.Accepted?))
  }

  lemma TalkGoesOn(cfg: Config, d: Name, a: Pipe, b: Pipe, dg: Datagram)
    requires b == a.(talk := TalkStep(a.talk, dg)) && TalkFits(cfg, d, b)
    ensures PipeStep(cfg, d, a, b)
  {
    hide Target, FirstMatch;
    match dg.kind
    case ConnectionRequest(app) => assert Requested(cfg, d, a, b);
    case ClientMessage(x) =>
      assert b.talk.sent[|a.talk.sent|] == a.pushed[1..][|a.talk.sent|];
      assert PassedUp(a, b);
    case CloseConnection => assert Finished(a, b);
  }

  /** A destination that is sent anything for a client is the first match of its connection string. */
  ghost predicate Matched(cfg: Config, s: State, d: Name, k: nat) {
    Queued(s, d, k) != [] ==>
      && Pushed(s, k) != [] && cfg.parse(Pushed(s, k)[0]).Some?
      && FirstMatch(cfg.dests, cfg.matches, cfg.parse(Pushed(s, k)[0]).value.conn) == Some(d)
  }

  lemma TalkMoves(cfg: Config, s: State, s': State, d: Name, k: nat)
    requires OneMore(RawView(s, d, k), RawView(s', d, k)) && |Queued(s', d, k)| == |Queued(s, d, k)| + 1
    requires DestinationSees(cfg, s', d, k) && Matched(cfg, s', d, k)
    ensures PipeStep(cfg, d, View(s, d, k), View(s', d, k))
  {
    hide Talked, TalkStep, Target, FirstMatch, For, Faced, SentTo, GotBy, PipeStep, Queued, Pushed, Handed,
      AcceptedData;
    var q, q' := Queued(s, d, k), Queued(s', d, k);
    LastOf(q, q');
    TalkedMore(q, q'[|q|]);
    TalkGoesOn(cfg, d, View(s, d, k), View(s', d, k), q'[|q|]);
  }

  lemma FaceMoves(cfg: Config, s: State, s': State, d: Name, k: nat)
    requires OneMore(RawView(s, d, k), RawView(s', d, k)) && |Handed(s', k)| == |Handed(s, k)| + 1
    requires ClientSees(s', k)
    ensures PipeStep(cfg, d, View(s, d, k), View(s', d, k))
  {
    hide Talked, For, Faced, Queued;
    var q, q' := Handed(s, k), Handed(s', k);
    LastOf(q, q');
    FacedMore(q, q'[|q|]);
    var a, b := View(s, d, k), View(s', d, k);
    match q'[|q|]
    case Told(v) => if v.accepted { assert ToldYes(a, b); } else { assert ToldNo(a, b); }
    case Data(x) => assert b.faced.data[|a.faced.data|] == a.offered[|a.faced.data|]; assert PassedDown(a, b);
  }

  /** The environment's moves. */
  lemma InputMoves(cfg: Config, s: State, s': State, d: Name, k: nat)
    requires OneMore(RawView(s, d, k), RawView(s', d, k))
    requires |Queued(s', d, k)| == |Queued(s, d, k)| && |Handed(s', k)| == |Handed(s, k)|
    ensures PipeStep(cfg, d, View(s, d, k), View(s', d, k))
  {
    hide Talked, For, Faced, Queued;
    var a, b := View(s, d, k), View(s', d, k);
    if |b.pushed| > |a.pushed| {
      LastOf(a.pushed, b.pushed);
      assert ClientPushes(a, b, b.pushed[|a.pushed|]);
    } else if |b.offered| > |a.offered| {
      LastOf(a.offered, b.offered);
      assert DestinationSends(a, b, b.offered[|a.offered|]);
    } else if |b.accepts| > |a.accepts| {
      LastOf(a.accepts, b.accepts);
      assert DestinationAccepts(a, b, b.accepts[|a.accepts|]);
    } else {
      assert a == b;
    }
  }

  lemma StepRefines(cfg: Config, r: Run, i: nat, d: Name, k: nat)
    requires ValidConfig(cfg) && IsRun(cfg, r) && i < |r.steps| && Distinct(r.states[i + 1], k)
    ensures PipeStep(cfg, d, View(r.states[i], d, k), View(r.states[i + 1], d, k))
  {
    hide TableOk, ClientSees, DestinationSees, PipeStep, View, RawView, Do, SentTo, GotBy, For;
    var s, s' := r.states[i], r.states[i + 1];
    TableHolds(cfg, r, i);
    Delivery(cfg, r, i + 1, k, d);
    if Queued(s', d, k) != [] {
      Dispatch(cfg, r, i + 1, k, d);
    }
    StepShows(cfg, s, r.steps[i], s', d, k);
    ViewMoves(cfg, s, s', d, k);
  }

  /** A run of the simple machine. */
  ghost predicate PipeRun(cfg: Config, d: Name, p: seq<Pipe>) {
    && p != [] && p[0] == NEW_PIPE
    && forall i :: 0 <= i < |p| - 1 ==> PipeStep(cfg, d, p[i], p[i + 1])
  }

  /**
   The headline: whatever the hub does, what one client and one destination see of a run is a run of the
   simple machine, from its rest state.
   */
  lemma HubRefinesPipe(cfg: Config, r: Run, d: Name, k: nat) returns (p: seq<Pipe>)
    requires ValidConfig(cfg) && IsRun(cfg, r) && Distinct(r.states[|r.steps|], k)
    ensures |p| == |r.states| && (forall i :: 0 <= i < |p| ==> p[i] == View(r.states[i], d, k))
    ensures PipeRun(cfg, d, p)
  {
    hide View, PipeStep, Do;
    p := seq(|r.states|, i requires 0 <= i < |r.states| => View(r.states[i], d, k));
    RestState(cfg, r.states[0], d, k);
    forall i | 0 <= i < |p| - 1 ensures PipeStep(cfg, d, p[i], p[i + 1]) {
      AllocsBelow(cfg, r, i + 1, |r.steps|);
      StepRefines(cfg, r, i, d, k);
    }
  }

  lemma RestState(cfg: Config, s: State, d: Name, k: nat)
    requires Init(cfg, s)
    ensures View(s, d, k) == NEW_PIPE
  {
  }

  lemma ViewMoves(cfg: Config, s: State, s': State, d: Name, k: nat)
    requires OneMore(RawView(s, d, k), RawView(s', d, k))
    requires ClientSees(s', k) && DestinationSees(cfg, s', d, k) && Matched(cfg, s', d, k)
    ensures PipeStep(cfg, d, View(s, d, k), View(s', d, k))
  {
    hide ClientSees, DestinationSees, Matched, PipeStep, View, SentTo, GotBy, For;
    if |Queued(s', d, k)| > |Queued(s, d, k)| {
      TalkMoves(cfg, s, s', d, k);
    } else if |Handed(s', k)| > |Handed(s, k)| {
      FaceMoves(cfg, s, s', d, k);
    } else {
      InputMoves(cfg, s, s', d, k);
    }
  }
}
