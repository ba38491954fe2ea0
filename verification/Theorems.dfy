/**
 What the hub guarantees each of its clients, in every state of every run. `k` numbers the client by
 its allocation; `Distinct` says that no client id has been handed out twice so far.
 */
module Theorems {
  import opened Types
  import opened Channels
  import opened UdpRules
  import opened Machine
  import opened Grammar
  import opened TableSafety
  import opened ClientInvariant
  import opened ClientSideProof
  import opened HubProof
  import opened DestProof
  import opened Runs

  /** Everything the client's transport pushed. */
  function Pushed(s: State, k: nat): seq<Bytes> {
    Ses(s, k).inbox.Sent()
  }

  /** Everything the client's transport was handed. */
  function Handed(s: State, k: nat): seq<Packet> {
    Ses(s, k).packets.Sent()
  }

  /** Every datagram queued for a client at one destination. */
  function Queued(s: State, d: Name, k: nat): seq<Datagram> {
    if d in s.dests then SentTo(s.dests[d].out, IdOf(k)) else []
  }

  /** Every payload the destinations accepted for a client. */
  function AcceptedData(s: State, k: nat): seq<Bytes> {
    SentTo(s.dMsgs, IdOf(k))
  }

  // ---------------------------------------------------------------- one state

  lemma HopPrefix<T>(taken: seq<T>, held: seq<T>, out: seq<T>, cut: bool, sending: bool)
    requires Hop(taken, held, out, cut, sending)
    ensures out <= taken
  {
  }

  lemma DownChain(cfg: Config, s: State, k: nat)
    requires ClientInv(cfg, s, k) && Ses(s, k).owner in s.routers
    ensures Ses(s, k).outQ.Sent() <= AcceptedData(s, k)
  {
    hide MySession, EntryOk, ClientPcOk, DestPcOk, UpHop, AllBacked, DestsOk, Gone, Hop, HeldDown, HeldByRouter,
      Backed, SentTo, GotBy, For;
    var c, S, R := IdOf(k), Ses(s, k), s.routers[Ses(s, k).owner];
    assert RouterOk(S.owner, R, c, k, S, For(s.accepts, c));
    HopPrefix(GotBy(R.msgs, c), HeldByRouter(R.pc, c), S.outQ.Sent(), Linked(S.phase) && c !in R.links, false);
    GotIsPrefix(R.msgs, c);
    HopPrefix(GotBy(s.dMsgs, c), HeldDown(s.t.dpc, c), SentTo(R.msgs, c), Gone(S, Get(s.t.clients, c)),
              s.t.dpc.DSend? && s.t.dpc.m.id == c);
    GotIsPrefix(s.dMsgs, c);
  }

  lemma UpChain(cfg: Config, s: State, d: Name, k: nat)
    requires ClientInv(cfg, s, k) && d in s.dests
    ensures SentData(Talked(SentTo(s.dests[d].out, IdOf(k)))) <= SentTo(s.cMsgs, IdOf(k))
    ensures Get(s.t.routed, IdOf(k)) != Some(d) ==> SentData(Talked(SentTo(s.dests[d].out, IdOf(k)))) == []
  {
    hide MySession, EntryOk, ClientPcOk, DestPcOk, DownHop, AllBacked, RoutersOk, Gone, Hop, HeldUp, HeldByUdp,
      RegOk, TalkOk, Reached, Talked, Relays, SentData, SentTo, GotBy, For;
    var c, D := IdOf(k), s.dests[d];
    HopPrefix(GotBy(D.msgs, c), HeldByUdp(D.pc, c), SentData(Talked(SentTo(D.out, c))), c in D.ever && c !in D.reg,
              Relays(D.pc, c));
    GotIsPrefix(D.msgs, c);
    if Get(s.t.routed, c) == Some(d) {
      HopPrefix(GotBy(s.cMsgs, c), HeldUp(s.t.cpc, c), SentTo(D.msgs, c), Gone(Ses(s, k), Get(s.t.clients, c)),
                s.t.cpc.CSend? && s.t.cpc.m.id == c);
      GotIsPrefix(s.cMsgs, c);
    } else {
      assert SentTo(D.msgs, c) == [];
    }
  }

  /** What the client sees: nothing, a refusal, or an accept that was heard, then a prefix of the accepted data. */
  ghost predicate ClientSees(s: State, k: nat) {
    match Faced(Handed(s, k))
    case Silent => true
    case Refused => true
    case Accepted(app, data) => app in For(s.accepts, IdOf(k)) && data <= AcceptedData(s, k)
    case Confused => false
  }

  lemma ClientView(cfg: Config, s: State, k: nat)
    requires ClientInv(cfg, s, k) && SessionsWired(cfg, s.ses, s.t.now) && RoutersWired(cfg, s.routers)
    ensures ClientSees(s, k)
  {
    hide HubOk, RoutersOk, DestsOk, AuthOk, UpOk, AllBacked, Backed, Faced, SentTo, GotBy, For;
    var S := Ses(s, k);
    if S.phase.Relaying? {
      assert SessionWired(cfg, s.ses[k], s.t.now);
      DownChain(cfg, s, k);
      assert Faced(Handed(s, k)).data <= S.outQ.got <= S.outQ.Sent();
    }
  }

  /**
   What a destination sees: nothing, or one request at the allowed address, then, once the client was shown
   an accept, a prefix of the client's packets.
   */
  ghost predicate DestinationSees(cfg: Config, s: State, d: Name, k: nat) {
    var talk, pushed := Talked(Queued(s, d, k)), Pushed(s, k);
    && !talk.Garbled?
    && (talk.Opened? || talk.Closed? ==>
        && d in cfg.udp && pushed != [] && cfg.parse(pushed[0]).Some?
        && talk.app == cfg.parse(pushed[0]).value.app
        && Target(cfg.udp[d], cfg.parse(pushed[0]).value.conn) == Some(talk.to)
        && talk.sent <= pushed[1..]
        && (talk.sent != [] ==> Faced(Handed(s, k)).Accepted?))
  }

  lemma DestinationView(cfg: Config, s: State, d: Name, k: nat)
    requires ClientInv(cfg, s, k)
    ensures DestinationSees(cfg, s, d, k)
  {
    hide ClientInv, Talked, Target, SentTo, GotBy, For, Reached, Ses;
    if d in s.dests {
      TalkFacts(cfg, s, d, k);
      AskedFacts(cfg, s, d, k);
      UpChain(cfg, s, d, k);
      RelayFacts(cfg, s, k);
      if SentTo(s.cMsgs, IdOf(k)) != [] {
        SentMeansShown(cfg, s, k);
      }
    } else {
      NoTalk();
    }
  }

  /** A client that has sent data past its first packet was shown an accept before. */
  lemma SentMeansShown(cfg: Config, s: State, k: nat)
    requires ClientInv(cfg, s, k) && SentTo(s.cMsgs, IdOf(k)) != []
    ensures Faced(Handed(s, k)).Accepted?
  {
    hide HubOk, RoutersOk, DestsOk, AuthOk, UpOk, AllBacked, Backed, Faced, SentTo, GotBy, For;
    RelayedNow(cfg, s, k);
  }

  lemma NoTalk()
    ensures Talked([]) == NotOpened
  {
  }

  /** The conversation with a destination is in order and goes to the address its open command leads to. */
  lemma TalkFacts(cfg: Config, s: State, d: Name, k: nat)
    requires ClientInv(cfg, s, k) && d in s.dests
    ensures d in cfg.udp
    ensures var talk, asked := Talked(SentTo(s.dests[d].out, IdOf(k))), GotBy(s.dests[d].opens, IdOf(k));
      && !talk.Garbled?
      && (talk.Opened? || talk.Closed? ==>
          asked != [] && talk.app == asked[0].app && Target(cfg.udp[d], asked[0].conn) == Some(talk.to))
  {
    hide MySession, HubOk, RoutersOk, RouteOk, Talked, Target, UdpHop, SentTo, GotBy, For;
    assert DestOk(cfg.udp[d], s.dests[d], IdOf(k));
  }

  /** A destination's open command carries the client's own first packet. */
  lemma AskedFacts(cfg: Config, s: State, d: Name, k: nat)
    requires ClientInv(cfg, s, k) && d in s.dests
    ensures var asked, pushed := GotBy(s.dests[d].opens, IdOf(k)), Pushed(s, k);
      asked != [] ==> pushed != [] && cfg.parse(pushed[0]) == Some(asked[0])
  {
    hide HubOk, RoutersOk, DestOk, UpOk, FacingOk, AllBacked, Backed, Faced, SentTo, GotBy, For;
    var S := Ses(s, k);
    assert RouteOk(d, s.dests[d], IdOf(k), Get(s.t.routed, IdOf(k)), SentTo(s.cOpens, IdOf(k)), s.t.cpc);
    GotIsPrefix(s.dests[d].opens, IdOf(k));
    assert S.inbox.got != [] ==> S.inbox.got[0] == S.inbox.Sent()[0];
  }

  /** What the session relayed are the client's packets after the first. */
  lemma RelayFacts(cfg: Config, s: State, k: nat)
    requires ClientInv(cfg, s, k)
    ensures SentTo(s.cMsgs, IdOf(k)) != [] ==> Pushed(s, k) != []
    ensures Pushed(s, k) != [] ==> SentTo(s.cMsgs, IdOf(k)) <= Pushed(s, k)[1..]
  {
    hide HubOk, RoutersOk, DestsOk, AuthOk, FacingOk, AllBacked, Backed, Faced, SentTo, GotBy, For;
    var S := Ses(s, k);
    if S.phase.Relaying? {
      assert SentTo(s.cMsgs, IdOf(k)) <= S.inbox.got[1..];
      assert S.inbox.got[1..] + S.inbox.queue == S.inbox.Sent()[1..];
    }
  }

  // ---------------------------------------------------------------- every run

  /**
   Handshake and first-in first-out delivery, for every client, destination and state of every run.
   The packets a client is handed are one verdict and, after an accept, a prefix of what its destination
   sent; the datagrams queued for it are one request, a prefix of what the client pushed after its first
   packet, and at most one close, all to the address its own connection string leads to.
   */
  lemma Delivery(cfg: Config, r: Run, i: nat, k: nat, d: Name)
    requires ValidConfig(cfg) && IsRun(cfg, r) && i < |r.states| && Distinct(r.states[i], k)
    ensures ClientSees(r.states[i], k) && DestinationSees(cfg, r.states[i], d, k)
  {
    hide ClientInv, TableOk, IsRun, ClientSees, DestinationSees;
    TableHolds(cfg, r, i);
    ClientHolds(cfg, r, i, k);
    ClientView(cfg, r.states[i], k);
    DestinationView(cfg, r.states[i], d, k);
  }

  /** Towards the client, hop by hop: what reaches its own queue is a prefix of the payloads accepted for its id. */
  lemma FifoDown(cfg: Config, r: Run, i: nat, k: nat)
    requires ValidConfig(cfg) && IsRun(cfg, r) && i < |r.states| && Distinct(r.states[i], k)
    ensures Ses(r.states[i], k).outQ.Sent() <= AcceptedData(r.states[i], k)
  {
    hide ClientInv, TableOk, IsRun, DestsWired, LinksWired, Serials, AcceptedData;
    TableHolds(cfg, r, i);
    ClientHolds(cfg, r, i, k);
    if k in r.states[i].ses {
      assert SessionWired(cfg, r.states[i].ses[k], r.states[i].t.now);
      DownChain(cfg, r.states[i], k);
    }
  }

  /**
   Towards the destination: the client data queued as datagrams is a prefix of what the client's session
   relayed, and there is none at a destination the client is not routed to.
   */
  lemma FifoUp(cfg: Config, r: Run, i: nat, k: nat, d: Name)
    requires ValidConfig(cfg) && IsRun(cfg, r) && i < |r.states| && Distinct(r.states[i], k) && d in r.states[i].dests
    ensures SentData(Talked(Queued(r.states[i], d, k))) <= SentTo(r.states[i].cMsgs, IdOf(k))
    ensures Get(r.states[i].t.routed, IdOf(k)) != Some(d) ==> SentData(Talked(Queued(r.states[i], d, k))) == []
  {
    hide ClientInv, IsRun, Talked, SentData, SentTo;
    ClientHolds(cfg, r, i, k);
    UpChain(cfg, r.states[i], d, k);
  }

  // ---------------------------------------------------------------- nothing is lost while the client is connected

  /** The client is relayed, in the table, linked at its router and registered at destination `d`. */
  ghost predicate ConnectedTo(s: State, d: Name, k: nat) {
    var c, S := IdOf(k), Ses(s, k);
    && S.phase.Relaying? && c in s.t.clients && d in s.dests && c in s.dests[d].reg
    && S.owner in s.routers && c in s.routers[S.owner].links
  }

  /** The client's data under way to `d`, the oldest first: at the destination, at the hub, at the session. */
  function UpUnderway(s: State, d: Name, k: nat): seq<Bytes>
    requires d in s.dests
  {
    var c, S, D := IdOf(k), Ses(s, k), s.dests[d];
    HeldByUdp(D.pc, c) + For(D.msgs.queue, c) + HeldUp(s.t.cpc, c) + For(s.cMsgs.queue, c) +
    HeldIn(S.phase) + S.inbox.queue
  }

  /** The payloads under way to the client: at the session, at the router, at the hub. */
  function DownUnderway(s: State, k: nat): seq<Bytes>
    requires Ses(s, k).owner in s.routers
  {
    var c, S, R := IdOf(k), Ses(s, k), s.routers[Ses(s, k).owner];
    HeldOut(S.phase) + S.outQ.queue + HeldByRouter(R.pc, c) + For(R.msgs.queue, c) +
    HeldDown(s.t.dpc, c) + For(s.dMsgs.queue, c)
  }

  /** A stage that is not cut off holds exactly what it has not passed on. */
  lemma WholeHop<T>(taken: seq<T>, held: seq<T>, out: seq<T>, cut: bool, sending: bool)
    requires Hop(taken, held, out, cut, sending) && !cut
    ensures out + held == taken
  {
  }

  lemma UpWhole(cfg: Config, s: State, d: Name, k: nat)
    requires ClientInv(cfg, s, k) && ConnectedTo(s, d, k) && Get(s.t.routed, IdOf(k)) == Some(d)
    ensures Pushed(s, k) != [] && Pushed(s, k)[1..] == SentData(Talked(Queued(s, d, k))) + UpUnderway(s, d, k)
  {
    hide EntryOk, ClientPcOk, DestPcOk, DownHop, AllBacked, RoutersOk, Hop, HeldUp, HeldByUdp, RegOk, TalkOk, Reached,
      Talked, Relays, SentData, RouteOk, AuthOk, FacingOk, Faced, Backed, For, HeldIn;
    var c, D, S := IdOf(k), s.dests[d], Ses(s, k);
    var out := SentData(Talked(SentTo(D.out, c)));
    WholeHop(GotBy(D.msgs, c), HeldByUdp(D.pc, c), out, c in D.ever && c !in D.reg, Relays(D.pc, c));
    WholeHop(GotBy(s.cMsgs, c), HeldUp(s.t.cpc, c), SentTo(D.msgs, c), Gone(S, Get(s.t.clients, c)),
             s.t.cpc.CSend? && s.t.cpc.m.id == c);
    assert S.inbox.Sent()[1..] == S.inbox.got[1..] + S.inbox.queue;
  }

  lemma DownWhole(cfg: Config, s: State, d: Name, k: nat)
    requires ClientInv(cfg, s, k) && ConnectedTo(s, d, k)
    ensures Faced(Handed(s, k)).Accepted? && AcceptedData(s, k) == Faced(Handed(s, k)).data + DownUnderway(s, k)
  {
    hide EntryOk, ClientPcOk, DestPcOk, UpHop, AllBacked, DestsOk, Hop, HeldDown, HeldByRouter, Reached, AuthOk, UpOk,
      Faced, Backed, For, HeldOut;
    var c, S, R := IdOf(k), Ses(s, k), s.routers[Ses(s, k).owner];
    assert RouterOk(S.owner, R, c, k, S, For(s.accepts, c));
    WholeHop(GotBy(R.msgs, c), HeldByRouter(R.pc, c), S.outQ.Sent(), Linked(S.phase) && c !in R.links, false);
    WholeHop(GotBy(s.dMsgs, c), HeldDown(s.t.dpc, c), SentTo(R.msgs, c), Gone(S, Get(s.t.clients, c)),
             s.t.dpc.DSend? && s.t.dpc.m.id == c);
  }

  /**
   Nothing is lost as long as the client is connected: everything it pushed after its first packet has been
   queued for its destination or is under way to it, in order, and likewise towards the client.
   */
  lemma NothingLost(cfg: Config, r: Run, i: nat, k: nat, d: Name)
    requires ValidConfig(cfg) && IsRun(cfg, r) && i < |r.states| && Distinct(r.states[i], k)
    requires ConnectedTo(r.states[i], d, k)
    ensures var s := r.states[i];
      && Pushed(s, k) != [] && Pushed(s, k)[1..] == SentData(Talked(Queued(s, d, k))) + UpUnderway(s, d, k)
      && Faced(Handed(s, k)).Accepted? && AcceptedData(s, k) == Faced(Handed(s, k)).data + DownUnderway(s, k)
  {
    hide ClientInv, IsRun, Talked, SentData, SentTo, Faced, UpUnderway, DownUnderway;
    ClientHolds(cfg, r, i, k);
    RegisteredReached(cfg, r.states[i], d, k);
    UpWhole(cfg, r.states[i], d, k);
    DownWhole(cfg, r.states[i], d, k);
  }
}
