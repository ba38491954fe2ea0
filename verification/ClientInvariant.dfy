/**
 What every run keeps about one client, from its first packet to its last datagram. `k` is the number
 of the client's allocation and `c` its id; the facts hold as long as no id has been handed out twice,
 that is for the first 2^32 allocations.

 The invariant is a conjunction of parts, each about a few components. The parts about moving data all
 have the form of `Hop`: what left a component, plus what it holds, is what entered it, or the component
 has been cut off for good.
 */
module ClientInvariant {
  import opened Types
  import opened Channels
  import opened ClientTable
  import opened UdpRules
  import opened Machine
  import opened Grammar

  function Get<K, V>(m: map<K, V>, k: K): Option<V> {
    if k in m then Some(m[k]) else None
  }

  function Ses(s: State, k: nat): Session {
    if k in s.ses then s.ses[k] else UNBORN
  }

  /** A first-in first-out stage that either passes everything on or, once `cut`, nothing any more. */
  ghost predicate Hop<T>(taken: seq<T>, held: seq<T>, out: seq<T>, cut: bool, sending: bool) {
    out + held == taken || (cut && out <= taken && !sending)
  }

  // ---------------------------------------------------------------- the session

  /** An accepting verdict that is on its way was heard from the destination. */
  ghost predicate Backed(v: Verdict, accepts: seq<Bytes>) {
    v.accepted ==> v.app in accepts
  }

  ghost predicate AllBacked(vs: seq<Verdict>, accepts: seq<Bytes>) {
    forall i :: 0 <= i < |vs| ==> Backed(vs[i], accepts)
  }

  /** The auth packet has not been read. */
  predicate Early(p: Phase) {
    !Linked(p) || p.WaitAuth? || p.Asking?
  }

  /** The client asks at most once, with what its first packet says. */
  ghost predicate AuthOk(cfg: Config, p: Phase, got: seq<Bytes>, opens: seq<Auth>) {
    && (Early(p) ==> got == [] && opens == [])
    && (p.Opening? ==> |got| == 1 && cfg.parse(got[0]) == Some(p.auth) && opens == [])
    && (p.WaitVerdict? || p.Telling? ==> |got| == 1)
    && (opens != [] ==> |opens| == 1 && |got| >= 1 && cfg.parse(got[0]) == Some(opens[0]))
  }

  function HeldIn(p: Phase): seq<Bytes> {
    if p.Relaying? && p.inn.InHeld? then [p.inn.x] else []
  }

  function HeldOut(p: Phase): seq<Bytes> {
    if p.Relaying? && p.out.OutHeld? then [p.out.x] else []
  }

  /** Everything the client pushed after its first packet is relayed, in order. */
  ghost predicate UpOk(p: Phase, got: seq<Bytes>, ups: seq<Bytes>) {
    if p.Relaying? then |got| >= 1 && ups + HeldIn(p) == got[1..] else ups == []
  }

  /** The client is told one verdict; after an accept that was heard, it gets the routed data in order. */
  ghost predicate FacingOk(p: Phase, outGot: seq<Bytes>, f: Facing, accepts: seq<Bytes>) {
    if p.Relaying? then f.Accepted? && f.app in accepts && f.data + HeldOut(p) == outGot
    else outGot == [] && (f.Silent? || (f.Refused? && (p.Signalling? || p.Stopped?)))
  }

  ghost predicate SessionOk(cfg: Config, S: Session, opens: seq<Auth>, ups: seq<Bytes>, accepts: seq<Bytes>) {
    && AuthOk(cfg, S.phase, S.inbox.got, opens)
    && UpOk(S.phase, S.inbox.got, ups)
    && FacingOk(S.phase, S.outQ.got, Faced(S.packets.Sent()), accepts)
    && AllBacked(S.verdictQ.Sent(), accepts)
    && (S.phase.Telling? ==> Backed(S.phase.verdict, accepts))
  }

  // ---------------------------------------------------------------- the hub

  /** The table entry of a client names its own router and the destination it was routed to. */
  ghost predicate EntryOk(S: Session, entry: Option<Meta>, route: Option<Name>, opens: seq<Auth>) {
    && (entry.Some? ==> HasEntry(S.phase) && entry.value.client == S.owner)
    && (entry.Some? ==> entry.value.dest == if route.Some? then route.value else "")
    && (route.Some? ==> Linked(S.phase) && route.value != "" && opens != [])
  }

  ghost predicate ClientPcOk(p: ClientPc, c: Id, route: Option<Name>, opens: seq<Auth>, accepts: seq<Bytes>) {
    && (p.CSend? && p.m.id == c ==> route == Some(p.dn))
    && (p.CStamp? && p.id == c ==> accepts != [])
    && ((p.COpen? || p.CAssign? || p.CForward?) && p.o.id == c ==> opens == [p.o.body])
    && (p.CAssign? && p.o.id == c ==> route == None)
    && (p.CForward? && p.o.id == c ==> route == Some(p.dn))
  }

  ghost predicate DestPcOk(p: DestPc, c: Id, owner: Name, accepts: seq<Bytes>) {
    && (p.DSend? && p.m.id == c ==> p.cn == owner)
    && ((p.DVerdict? || p.DConnect? || p.DTell?) && p.v.id == c ==> Backed(p.v.body, accepts))
  }

  function HeldUp(p: ClientPc, c: Id): seq<Bytes> {
    if (p.CMsg? || p.CSend?) && p.m.id == c then [p.m.body] else []
  }

  function HeldDown(p: DestPc, c: Id): seq<Bytes> {
    if (p.DMsg? || p.DSend?) && p.m.id == c then [p.m.body] else []
  }

  /** The client has left the table, which it enters only once. */
  predicate Gone(S: Session, entry: Option<Meta>) {
    HasEntry(S.phase) && entry.None?
  }

  /** What the hub has passed on to the client's destination. */
  function Forwarded(dests: map<Name, Dest>, route: Option<Name>, c: Id): seq<Bytes> {
    if route.Some? && route.value in dests then SentTo(dests[route.value].msgs, c) else []
  }

  /** What the hub has passed on to the client's router. */
  function Returned(routers: map<Name, Router>, owner: Name, c: Id): seq<Bytes> {
    if owner in routers then SentTo(routers[owner].msgs, c) else []
  }

  ghost predicate UpHop(p: ClientPc, c: Id, taken: seq<Bytes>, out: seq<Bytes>, gone: bool) {
    Hop(taken, HeldUp(p, c), out, gone, p.CSend? && p.m.id == c)
  }

  ghost predicate DownHop(p: DestPc, c: Id, taken: seq<Bytes>, out: seq<Bytes>, gone: bool) {
    Hop(taken, HeldDown(p, c), out, gone, p.DSend? && p.m.id == c)
  }

  // ---------------------------------------------------------------- routers

  function HeldByRouter(p: RouterPc, c: Id): seq<Bytes> {
    if p.RMsg? && p.m.id == c then [p.m.body] else []
  }

  ghost predicate RouterOk(n: Name, R: Router, c: Id, k: nat, S: Session, accepts: seq<Bytes>) {
    && (c in R.links ==> n == S.owner && R.links[c] == k && Linked(S.phase))
    && AllBacked(SentTo(R.verdicts, c), accepts)
    && (R.pc.RVerdict? && R.pc.v.id == c ==> Backed(R.pc.v.body, accepts))
    && (n != S.owner ==> SentTo(R.msgs, c) == [] && HeldByRouter(R.pc, c) == [])
    && (n == S.owner ==>
        Hop(GotBy(R.msgs, c), HeldByRouter(R.pc, c), S.outQ.Sent(), Linked(S.phase) && c !in R.links, false))
  }

  // ---------------------------------------------------------------- destinations

  function HeldByUdp(p: UdpPc, c: Id): seq<Bytes> {
    if p.UMsg? && p.m.id == c then [p.m.body]
    else if p.USend? && p.dg.id == c && p.dg.body.kind.ClientMessage? then [p.dg.body.kind.data]
    else []
  }

  predicate Requesting(p: UdpPc, c: Id) {
    p.USend? && p.dg.id == c && p.dg.body.kind.ConnectionRequest?
  }

  predicate Relays(p: UdpPc, c: Id) {
    p.USend? && p.dg.id == c && p.dg.body.kind.ClientMessage?
  }

  /** The hub's one open command to the client's destination, and nothing to any other. */
  ghost predicate RouteOk(d: Name, D: Dest, c: Id, route: Option<Name>, opens: seq<Auth>, p: ClientPc) {
    if route == Some(d) then
      SentTo(D.opens, c) == if p.CForward? && p.o.id == c then [] else opens
    else
      SentTo(D.opens, c) == [] && SentTo(D.msgs, c) == []
  }

  /** A registration comes from the one open command, by the address policy. */
  ghost predicate RegOk(u: UdpConfig, D: Dest, c: Id) {
    var asked := GotBy(D.opens, c);
    && (D.pc.UOpen? && D.pc.o.id == c ==> asked == [D.pc.o.body] && c !in D.ever)
    && (c in D.ever ==> |asked| == 1 && Target(u, asked[0].conn) == Some(D.ever[c]))
    && (c in D.reg ==> c in D.ever && D.reg[c] == D.ever[c])
  }

  /** The conversation with the destination: at its registered address, closed only when it ends. */
  ghost predicate TalkOk(p: UdpPc, c: Id, asked: seq<Auth>, ever: Option<Addr>, registered: bool, talk: Talk) {
    && (p.USend? && p.dg.id == c ==> ever == Some(p.dg.body.to) && !p.dg.body.kind.CloseConnection?)
    && (p.USendClose? && p.id == c ==> ever == Some(p.a))
    && (p.UDelete? && p.id == c ==> ever.Some?)
    && (ever.None? || Requesting(p, c) ==> talk.NotOpened?)
    && (Requesting(p, c) ==> asked != [] && p.dg.body.kind.app == asked[0].app)
    && (ever.Some? && !Requesting(p, c) ==>
        && (talk.Opened? || talk.Closed?)
        && talk.to == ever.value && asked != [] && talk.app == asked[0].app
        && (talk.Closed? ==> !registered || (p.UDelete? && p.id == c))
        && (Relays(p, c) || (p.USendClose? && p.id == c) ==> talk.Opened?)
        && (p.UDelete? && p.id == c ==> talk.Closed?))
  }

  ghost predicate UdpHop(D: Dest, c: Id) {
    Hop(GotBy(D.msgs, c), HeldByUdp(D.pc, c), SentData(Talked(SentTo(D.out, c))),
        c in D.ever && c !in D.reg, Relays(D.pc, c))
  }

  ghost predicate DestOk(u: UdpConfig, D: Dest, c: Id) {
    && RegOk(u, D, c)
    && TalkOk(D.pc, c, GotBy(D.opens, c), Get(D.ever, c), c in D.reg, Talked(SentTo(D.out, c)))
    && UdpHop(D, c)
  }

  /** The client's destination has registered it at some time. */
  predicate Reached(dests: map<Name, Dest>, route: Option<Name>, c: Id) {
    route.Some? && route.value in dests && c in dests[route.value].ever
  }

  // ---------------------------------------------------------------- all together

  ghost predicate RoutersOk(s: State, k: nat) {
    forall n :: n in s.routers ==> RouterOk(n, s.routers[n], IdOf(k), k, Ses(s, k), For(s.accepts, IdOf(k)))
  }

  ghost predicate DestsOk(cfg: Config, s: State, k: nat) {
    var c := IdOf(k);
    forall d :: d in s.dests ==>
      && RouteOk(d, s.dests[d], c, Get(s.t.routed, c), SentTo(s.cOpens, c), s.t.cpc)
      && d in cfg.udp && DestOk(cfg.udp[d], s.dests[d], c)
  }

  ghost predicate HubOk(s: State, k: nat) {
    var c, S := IdOf(k), Ses(s, k);
    var entry, route := Get(s.t.clients, c), Get(s.t.routed, c);
    var accepts := For(s.accepts, c);
    && EntryOk(S, entry, route, SentTo(s.cOpens, c))
    && ClientPcOk(s.t.cpc, c, route, SentTo(s.cOpens, c), accepts)
    && DestPcOk(s.t.dpc, c, S.owner, accepts)
    && UpHop(s.t.cpc, c, GotBy(s.cMsgs, c), Forwarded(s.dests, route, c), Gone(S, entry))
    && DownHop(s.t.dpc, c, GotBy(s.dMsgs, c), Returned(s.routers, S.owner, c), Gone(S, entry))
    && AllBacked(SentTo(s.dVerdicts, c), accepts)
    && (accepts != [] || SentTo(s.dMsgs, c) != [] ==> Reached(s.dests, route, c))
  }

  ghost predicate MySession(cfg: Config, s: State, k: nat) {
    var c := IdOf(k);
    SessionOk(cfg, Ses(s, k), SentTo(s.cOpens, c), SentTo(s.cMsgs, c), For(s.accepts, c))
  }

  ghost predicate ClientInv(cfg: Config, s: State, k: nat) {
    MySession(cfg, s, k) && HubOk(s, k) && RoutersOk(s, k) && DestsOk(cfg, s, k)
  }
}
