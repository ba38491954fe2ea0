/** The steps of transports, sessions and routers keep the client invariant. */
module ClientSideProof {
  import opened Types
  import opened Channels
  import opened ClientTable
  import opened Machine
  import opened Frames
  import opened Grammar
  import opened TableSafety
  import opened ClientInvariant
  import opened SessionProof

  /** A client the invariant speaks about: no id has been given out twice. */
  ghost predicate Distinct(s: State, k: nat) {
    1 <= k <= ID_SPACE && s.t.allocs <= ID_SPACE
  }

  /** A step that leaves everything about client `k` alone, except within the routers, keeps its invariant. */
  lemma SameView(cfg: Config, s: State, s': State, k: nat)
    requires ClientInv(cfg, s, k) && RoutersOk(s', k)
    requires Ses(s', k) == Ses(s, k)
    requires SentTo(s'.cOpens, IdOf(k)) == SentTo(s.cOpens, IdOf(k))
    requires SentTo(s'.cMsgs, IdOf(k)) == SentTo(s.cMsgs, IdOf(k))
    requires GotBy(s'.cMsgs, IdOf(k)) == GotBy(s.cMsgs, IdOf(k))
    requires s'.dMsgs == s.dMsgs && s'.dVerdicts == s.dVerdicts && s'.accepts == s.accepts
    requires Get(s'.t.clients, IdOf(k)) == Get(s.t.clients, IdOf(k)) && s'.t.routed == s.t.routed
    requires s'.t.cpc == s.t.cpc && s'.t.dpc == s.t.dpc && s'.dests == s.dests
    requires Returned(s'.routers, Ses(s, k).owner, IdOf(k)) == Returned(s.routers, Ses(s, k).owner, IdOf(k))
    ensures ClientInv(cfg, s', k)
  {
    hide RoutersOk, SessionOk, EntryOk, ClientPcOk, DestPcOk, UpHop, DownHop, AllBacked, Gone, Reached, RouteOk,
      DestOk, Returned, SentTo, GotBy, For;
  }

  /** A change of the client's own session. */
  lemma OwnSession(cfg: Config, s: State, s': State, k: nat)
    requires ClientInv(cfg, s, k) && MySession(cfg, s', k)
    requires s' == s.(ses := s.ses[k := Ses(s', k)], cMsgs := s'.cMsgs, cOpens := s'.cOpens, cCloses := s'.cCloses)
    requires SameSession(Ses(s, k), Ses(s', k)) && Ses(s', k).outQ.Sent() == Ses(s, k).outQ.Sent()
    requires HasEntry(Ses(s', k).phase) == HasEntry(Ses(s, k).phase)
    requires Linked(Ses(s', k).phase) == Linked(Ses(s, k).phase)
    requires GotBy(s'.cMsgs, IdOf(k)) == GotBy(s.cMsgs, IdOf(k))
    requires SentTo(s'.cOpens, IdOf(k)) == SentTo(s.cOpens, IdOf(k)) || SentTo(s.cOpens, IdOf(k)) == []
    ensures ClientInv(cfg, s', k)
  {
    hide SessionOk, DestPcOk, AllBacked, Reached, DestOk, Hop, Returned, Forwarded, HeldUp, HeldDown, Backed, SentTo,
      GotBy, For;
  }

  // ---------------------------------------------------------------- entering

  lemma BornOk(cfg: Config, s: State, r: Name, k: nat)
    requires ClientInv(cfg, s, k) && "" !in s.routers && k !in s.ses && k == s.t.allocs + 1
    ensures ClientInv(cfg, Connected(s, r), k)
  {
    hide SessionOk, RouterOk, EntryOk, ClientPcOk, DestPcOk, UpHop, DownHop, Hop, AllBacked, Reached, Returned,
      Forwarded, DestOk, Gone, RouteOk, SentTo, GotBy, For;
    var c, s' := IdOf(k), Connected(s, r);
    var accepts, opens := For(s.accepts, c), SentTo(s.cOpens, c);
    BornSession(cfg, r, s.t.now, opens, SentTo(s.cMsgs, c), accepts);
    BornHub(s, r, k);
    forall n | n in s.routers ensures RouterOk(n, s'.routers[n], c, k, Ses(s', k), accepts) {
      BornRouter(n, s.routers[n], c, k, r, s.t.now, accepts);
    }
  }

  function Newborn(r: Name, now: int): Session {
    UNBORN.(owner := r, phase := Allocated(now))
  }

  lemma BornSession(cfg: Config, r: Name, now: int, opens: seq<Auth>, ups: seq<Bytes>, accepts: seq<Bytes>)
    requires SessionOk(cfg, UNBORN, opens, ups, accepts)
    ensures SessionOk(cfg, Newborn(r, now), opens, ups, accepts)
  {
    hide Faced;
  }

  lemma BornRouter(n: Name, R: Router, c: Id, k: nat, r: Name, now: int, accepts: seq<Bytes>)
    requires RouterOk(n, R, c, k, UNBORN, accepts) && n != ""
    ensures RouterOk(n, R, c, k, Newborn(r, now), accepts)
    ensures SentTo(R.msgs, c) == []
  {
    hide AllBacked, Backed, For;
    GotIsPrefix(R.msgs, c);
  }

  /** Nothing was routed for a client that was not there. */
  lemma BornHub(s: State, r: Name, k: nat)
    requires HubOk(s, k) && RoutersOk(s, k) && "" !in s.routers && Ses(s, k) == UNBORN && k == s.t.allocs + 1
    ensures HubOk(Connected(s, r), k)
  {
    hide RouterOk, ClientPcOk, AllBacked, Forwarded, SentTo, GotBy, For;
    var c := IdOf(k);
    GotIsPrefix(s.dMsgs, c);
    if r in s.routers {
      BornRouter(r, s.routers[r], c, k, r, s.t.now, For(s.accepts, c));
    }
  }

  lemma AdmitOk(cfg: Config, s: State, time: int, s': State, k: nat)
    requires ClientInv(cfg, s, k) && k in s.ses && Admitted(cfg, s, k, s.ses[k], time) == Some(s')
    ensures ClientInv(cfg, s', k)
  {
    hide Admitted, SessionOk, DestOk, AllBacked, Hop, HeldUp, HeldDown, Returned, Forwarded, Reached, Backed, SentTo,
      GotBy, For;
    Admits(cfg, s, k, time, s');
    PhaseOnly(cfg, s.ses[k], s'.ses[k], SentTo(s.cOpens, IdOf(k)), SentTo(s.cMsgs, IdOf(k)), For(s.accepts, IdOf(k)));
    assert MySession(cfg, s', k);
  }

  /** Moving between the phases before the auth packet changes nothing else. */
  lemma PhaseOnly(cfg: Config, S: Session, S': Session, opens: seq<Auth>, ups: seq<Bytes>, accepts: seq<Bytes>)
    requires SessionOk(cfg, S, opens, ups, accepts) && S' == S.(phase := S'.phase)
    requires !Linked(S.phase) && Early(S'.phase) && !S'.phase.Asking?
    ensures SessionOk(cfg, S', opens, ups, accepts)
  {
    hide Faced;
  }

  lemma LinkOk(cfg: Config, s: State, s': State, k: nat)
    requires ClientInv(cfg, s, k) && k in s.ses && LinkIn(s, k, s.ses[k]) == Some(s')
    ensures ClientInv(cfg, s', k)
  {
    hide LinkIn, SessionOk, DestOk, AllBacked, Hop, HeldUp, HeldDown, Forwarded, Reached, Backed, HeldByRouter,
      RouterOk, SentTo, GotBy, For;
    Links(s, k, s');
    PhaseOnly(cfg, s.ses[k], s'.ses[k], SentTo(s.cOpens, IdOf(k)), SentTo(s.cMsgs, IdOf(k)), For(s.accepts, IdOf(k)));
    assert MySession(cfg, s', k);
    forall n | n in s'.routers
      ensures RouterOk(n, s'.routers[n], IdOf(k), k, Ses(s', k), For(s'.accepts, IdOf(k)))
    {
      LinkedRouter(n, s.routers[n], s'.routers[n], IdOf(k), k, Ses(s, k), Ses(s', k), For(s.accepts, IdOf(k)));
    }
  }

  lemma LinkedRouter(n: Name, R: Router, R': Router, c: Id, k: nat, S: Session, S': Session, accepts: seq<Bytes>)
    requires RouterOk(n, R, c, k, S, accepts) && S' == S.(phase := S'.phase) && !Linked(S.phase)
    requires R' == R || (n == S.owner && R' == R.(links := R.links[c := k]) && Linked(S'.phase))
    requires n == S.owner && R' == R ==> !Linked(S'.phase)
    ensures RouterOk(n, R', c, k, S', accepts)
  {
    hide AllBacked, Backed, HeldByRouter, SentTo, GotBy, For;
  }

  /** Another client's link or unlink. */
  lemma OtherLink(cfg: Config, s: State, s': State, owner: Name, links: map<Id, nat>, k: nat)
    requires ClientInv(cfg, s, k) && owner in s.routers && Ses(s', k) == Ses(s, k)
    requires s' == s.(ses := s'.ses, routers := s.routers[owner := s.routers[owner].(links := links)])
    requires Get(links, IdOf(k)) == Get(s.routers[owner].links, IdOf(k))
    ensures ClientInv(cfg, s', k)
  {
    hide SentTo, GotBy, For;
    forall n | n in s'.routers
      ensures RouterOk(n, s'.routers[n], IdOf(k), k, Ses(s', k), For(s'.accepts, IdOf(k)))
    {
      hide AllBacked, Hop, Backed, HeldByRouter;
      assert RouterOk(n, s.routers[n], IdOf(k), k, Ses(s, k), For(s.accepts, IdOf(k)));
    }
    SameView(cfg, s, s', k);
  }

  lemma UnlinkOk(cfg: Config, s: State, s': State, k: nat)
    requires ClientInv(cfg, s, k) && k in s.ses && Linked(s.ses[k].phase) && LinkOut(s, k, s.ses[k].owner) == Some(s')
    ensures ClientInv(cfg, s', k)
  {
    hide SentTo, GotBy, For;
    forall n | n in s'.routers
      ensures RouterOk(n, s'.routers[n], IdOf(k), k, Ses(s', k), For(s'.accepts, IdOf(k)))
    {
      hide AllBacked, Backed, HeldByRouter;
      assert RouterOk(n, s.routers[n], IdOf(k), k, Ses(s, k), For(s.accepts, IdOf(k)));
    }
    SameView(cfg, s, s', k);
  }

  // ---------------------------------------------------------------- sessions

  lemma SessionStepOk(cfg: Config, s: State, st: SessionStep, s': State, k: nat)
    requires ClientInv(cfg, s, k) && k in s.ses && SessionDoes(cfg, s, k, st) == Some(s')
    ensures ClientInv(cfg, s', k)
  {
    hide SessionDoes, SessionOk, HubOk, RoutersOk, DestsOk, SessionGo, SentTo, GotBy, For;
    var c, S, done := IdOf(k), s.ses[k], s.ses[k].cancelled || s.shutdown;
    SessionEmits(cfg, s, k, st, s');
    SessionStays(cfg, S, done, st);
    SessionOut(cfg, S, done, st);
    SessionGoOk(cfg, S, done, st, SentTo(s.cOpens, c), SentTo(s.cMsgs, c), For(s.accepts, c));
    if SessionGo(cfg, S, done, st).value.1.EmitOpen? {
      NotYetOpen(cfg, S, done, st, SentTo(s.cOpens, c), SentTo(s.cMsgs, c), For(s.accepts, c));
    }
    OwnSession(cfg, s, s', k);
  }

  lemma SessionOut(cfg: Config, S: Session, done: bool, st: SessionStep)
    requires SessionGo(cfg, S, done, st).Some?
    ensures SessionGo(cfg, S, done, st).value.0.outQ.Sent() == S.outQ.Sent()
  {
  }

  lemma NotYetOpen(cfg: Config, S: Session, done: bool, st: SessionStep,
                   opens: seq<Auth>, ups: seq<Bytes>, accepts: seq<Bytes>)
    requires SessionOk(cfg, S, opens, ups, accepts)
    requires SessionGo(cfg, S, done, st).Some? && SessionGo(cfg, S, done, st).value.1.EmitOpen?
    ensures opens == []
  {
    hide Faced, UpOk, FacingOk, AllBacked, Backed;
  }

  lemma TransportStepOk(cfg: Config, s: State, st: TransportStep, s': State, k: nat)
    requires ClientInv(cfg, s, k) && k in s.ses && TransportDoes(cfg, s, k, st) == Some(s')
    ensures ClientInv(cfg, s', k)
  {
    hide SessionOk, HubOk, RoutersOk, DestsOk, TransportGo, SentTo, GotBy, For;
    var c, S := IdOf(k), s.ses[k];
    TransportStays(cfg, S, st);
    TransportOk(cfg, S, st, SentTo(s.cOpens, c), SentTo(s.cMsgs, c), For(s.accepts, c));
    OwnSession(cfg, s, s', k);
  }

  // ---------------------------------------------------------------- routers

  lemma RouterTakeOk(n: Name, R: Router, st: RouterStep, shutdown: bool, c: Id, k: nat, S: Session, accepts: seq<Bytes>)
    requires RouterOk(n, R, c, k, S, accepts) && RouterTake(R, st, shutdown).Some?
    ensures RouterOk(n, RouterTake(R, st, shutdown).value, c, k, S, accepts)
    ensures SentTo(RouterTake(R, st, shutdown).value.msgs, c) == SentTo(R.msgs, c)
  {
    hide Backed, AllBacked, SentTo, GotBy, For;
    if st.TakeMsg? && R.msgs.queue[0].id == c {
      GotIsPrefix(R.msgs, c);
      HeadOf(R.msgs, c);
    }
    if st.TakeVerdict? && R.verdicts.queue[0].id == c {
      HeadOf(R.verdicts, c);
      OneBacked(SentTo(R.verdicts, c), |GotBy(R.verdicts, c)|, accepts);
    }
  }

  lemma OneBacked(vs: seq<Verdict>, i: nat, accepts: seq<Bytes>)
    requires AllBacked(vs, accepts) && i < |vs|
    ensures Backed(vs[i], accepts)
  {
  }

  lemma RouterStepOk(cfg: Config, s: State, n: Name, st: RouterStep, s': State, k: nat)
    requires ClientInv(cfg, s, k) && n in s.routers && RouterDoes(s, n, st) == Some(s')
    ensures ClientInv(cfg, s', k)
  {
    hide RouterTake, RouterOk, MySession, HubOk, DestsOk, SentTo, GotBy, For;
    RouterTakeOk(n, s.routers[n], st, s.shutdown, IdOf(k), k, Ses(s, k), For(s.accepts, IdOf(k)));
    SameView(cfg, s, s', k);
  }

  lemma DemuxOk(cfg: Config, s: State, n: Name, s': State, k: nat)
    requires ClientInv(cfg, s, k) && n in s.routers && RouterGives(cfg, s, n, s.routers[n]) == Some(s')
    requires LinksWired(s.routers)
    ensures ClientInv(cfg, s', k)
  {
    hide RouterGives, MySession, HubOk, DestsOk, RouterOk, Receive, SentTo, GotBy, For;
    var c, R := IdOf(k), s.routers[n];
    Gives(cfg, s, n, s');
    var id := Holding(R.pc).value;
    LinkTarget(n, R, id, c, k, Ses(s, k), For(s.accepts, c));
    if id != c {
      assert Ses(s', k) == Ses(s, k);
      IdleRouter(n, R, c, k, Ses(s, k), For(s.accepts, c));
      SameView(cfg, s, s', k);
    } else if c in R.links && k in s.ses {
      DeliverOk(cfg, s, n, s', k);
    } else {
      DropKeeps(cfg, s, n, s', k);
    }
  }

  lemma LinkTarget(n: Name, R: Router, id: Id, c: Id, k: nat, S: Session, accepts: seq<Bytes>)
    requires RouterOk(n, R, c, k, S, accepts) && LinksOk(R.links) && c == IdOf(k)
    ensures id in R.links ==> (R.links[id] == k <==> id == c)
  {
  }

  /** The demultiplexer lets go of another client's message. */
  lemma IdleRouter(n: Name, R: Router, c: Id, k: nat, S: Session, accepts: seq<Bytes>)
    requires RouterOk(n, R, c, k, S, accepts) && Holding(R.pc) != Some(c)
    ensures RouterOk(n, R.(pc := RIdle), c, k, S, accepts)
  {
    hide AllBacked, SentTo, GotBy, For;
  }

  lemma DeliverOk(cfg: Config, s: State, n: Name, s': State, k: nat)
    requires ClientInv(cfg, s, k) && n in s.routers && k in s.ses
    requires Holding(s.routers[n].pc) == Some(IdOf(k)) && IdOf(k) in s.routers[n].links
    requires Receive(cfg, s.ses[k], s.routers[n].pc).Some?
    requires s' == s.(ses := s.ses[k := Receive(cfg, s.ses[k], s.routers[n].pc).value],
                      routers := s.routers[n := s.routers[n].(pc := RIdle)])
    ensures ClientInv(cfg, s', k)
  {
    hide Receive, SessionOk, DestOk, AllBacked, Hop, RouterOk, EntryOk, ClientPcOk, DestPcOk, Forwarded, RouteOk,
      SentTo, GotBy, For;
    var c, R, S := IdOf(k), s.routers[n], s.ses[k];
    ReceiveStays(cfg, S, R.pc);
    assert RouterOk(n, R, c, k, S, For(s.accepts, c));
    HeldBacked(n, R, c, k, S, For(s.accepts, c));
    ReceiveOk(cfg, S, R.pc, SentTo(s.cOpens, c), SentTo(s.cMsgs, c), For(s.accepts, c));
    EntrySame(S, s'.ses[k], Get(s.t.clients, c), Get(s.t.routed, c), SentTo(s.cOpens, c));
    forall m | m in s'.routers
      ensures RouterOk(m, s'.routers[m], c, k, Ses(s', k), For(s'.accepts, c))
    {
      assert RouterOk(m, s.routers[m], c, k, S, For(s.accepts, c));
      DeliveredRouter(cfg, m, s.routers[m], s'.routers[m], n, R.pc, c, k, S, For(s.accepts, c));
    }
  }

  lemma HeldBacked(n: Name, R: Router, c: Id, k: nat, S: Session, accepts: seq<Bytes>)
    requires RouterOk(n, R, c, k, S, accepts) && Holding(R.pc) == Some(c)
    ensures R.pc.RVerdict? ==> Backed(R.pc.v.body, accepts)
    ensures c in R.links ==> n == S.owner
    ensures R.pc.RMsg? ==> n == S.owner
  {
  }

  lemma EntrySame(S: Session, S': Session, entry: Option<Meta>, route: Option<Name>, opens: seq<Auth>)
    requires EntryOk(S, entry, route, opens) && S'.owner == S.owner && S'.phase == S.phase
    ensures EntryOk(S', entry, route, opens)
  {
  }

  lemma DeliveredRouter(cfg: Config, m: Name, R: Router, R': Router, n: Name, pc: RouterPc, c: Id, k: nat, S: Session,
                        accepts: seq<Bytes>)
    requires RouterOk(m, R, c, k, S, accepts) && n == S.owner && Holding(pc) == Some(c) && Receive(cfg, S, pc).Some?
    requires if m == n then R.pc == pc && c in R.links && R' == R.(pc := RIdle) else R' == R
    ensures RouterOk(m, R', c, k, Receive(cfg, S, pc).value, accepts)
  {
    hide AllBacked, Receive, SentTo, GotBy, For;
    ReceiveStays(cfg, S, pc);
  }

  /** A message for a client whose link is gone is dropped, and so will be all later ones. */
  lemma DropKeeps(cfg: Config, s: State, n: Name, s': State, k: nat)
    requires ClientInv(cfg, s, k) && n in s.routers && Holding(s.routers[n].pc) == Some(IdOf(k))
    requires !(IdOf(k) in s.routers[n].links && k in s.ses)
    requires s' == s.(routers := s.routers[n := s.routers[n].(pc := RIdle)])
    ensures ClientInv(cfg, s', k)
  {
    hide MySession, HubOk, DestsOk, RouterOk, SentTo, GotBy, For;
    var c, R, S := IdOf(k), s.routers[n], Ses(s, k);
    if R.pc.RMsg? {
      HeldLinked(s, n, k);
    }
    DroppedOk(n, R, c, k, S, For(s.accepts, c));
    forall m | m in s'.routers ensures RouterOk(m, s'.routers[m], c, k, S, For(s.accepts, c)) {
      assert RouterOk(m, s.routers[m], c, k, S, For(s.accepts, c));
    }
    SameView(cfg, s, s', k);
  }

  /** A router holds data only for a client that has been linked. */
  lemma HeldLinked(s: State, n: Name, k: nat)
    requires HubOk(s, k) && RoutersOk(s, k) && n in s.routers && s.routers[n].pc.RMsg?
    requires s.routers[n].pc.m.id == IdOf(k)
    ensures Linked(Ses(s, k).phase) && n == Ses(s, k).owner
  {
    hide AllBacked, Backed, ClientPcOk, DestPcOk, UpHop, Forwarded, SentTo, GotBy, For;
    var c, R := IdOf(k), s.routers[n];
    assert RouterOk(n, R, c, k, Ses(s, k), For(s.accepts, c));
    GotIsPrefix(R.msgs, c);
    GotIsPrefix(s.dMsgs, c);
  }

  lemma DroppedOk(n: Name, R: Router, c: Id, k: nat, S: Session, accepts: seq<Bytes>)
    requires RouterOk(n, R, c, k, S, accepts) && (c !in R.links || !Linked(S.phase))
    requires (R.pc.RMsg? && R.pc.m.id == c ==> Linked(S.phase) && n == S.owner)
    ensures RouterOk(n, R.(pc := RIdle), c, k, S, accepts)
  {
    hide AllBacked, Backed, SentTo, GotBy, For;
  }

  // ---------------------------------------------------------------- all of them

  lemma ClientSideKeeps(cfg: Config, s: State, st: ClientStep, s': State, k: nat)
    requires ValidConfig(cfg) && Wired(cfg, s) && ClientInv(cfg, s, k) && ClientDo(cfg, s, st) == Some(s')
    requires Distinct(s', k) && s.t.allocs <= s'.t.allocs
    ensures ClientInv(cfg, s', k)
  {
    hide MySession, HubOk, RoutersOk, DestsOk, SessionDoes, TransportDoes, RouterDoes, RouterGives, LinkIn, LinkOut,
      Admitted, SessionsWired, DestsWired, LinksWired;
    match st
    case Connection(r) =>
      if k == s.t.allocs + 1 { BornOk(cfg, s, r, k); } else { OtherSession(cfg, s, s', s.t.allocs + 1, k); }
    case Admit(n, time) => if n == k { AdmitOk(cfg, s, time, s', k); } else { OtherAdmit(cfg, s, n, time, s', k); }
    case Link(n) => if n == k { LinkOk(cfg, s, s', k); } else { OtherLinks(cfg, s, n, s', k); }
    case Unlink(n) => if n == k { UnlinkOk(cfg, s, s', k); } else { OtherUnlinks(cfg, s, n, s', k); }
    case BySession(n, x) => if n == k { SessionStepOk(cfg, s, x, s', k); } else { OtherStep(cfg, s, n, x, s', k); }
    case ByTransport(n, x) =>
      if n == k {
        TransportStepOk(cfg, s, x, s', k);
      } else {
        OtherTransport(cfg, s, n, x, s', k);
      }
    case ByRouter(n, x) => RouterStepOk(cfg, s, n, x, s', k);
    case Demux(n) => DemuxOk(cfg, s, n, s', k);
  }

  /** A step of another client's session; what it emits carries another id. */
  lemma OtherSession(cfg: Config, s: State, s': State, n: nat, k: nat)
    requires ClientInv(cfg, s, k) && n != k && Ses(s', k) == Ses(s, k)
    requires s' == s.(t := s.t.(allocs := s'.t.allocs), ses := s'.ses,
                      cMsgs := s'.cMsgs, cOpens := s'.cOpens, cCloses := s'.cCloses)
    requires SentTo(s'.cOpens, IdOf(k)) == SentTo(s.cOpens, IdOf(k))
    requires SentTo(s'.cMsgs, IdOf(k)) == SentTo(s.cMsgs, IdOf(k))
    requires GotBy(s'.cMsgs, IdOf(k)) == GotBy(s.cMsgs, IdOf(k))
    ensures ClientInv(cfg, s', k)
  {
    hide MySession, HubOk, DestsOk, RouterOk, SentTo, GotBy, For;
    SameView(cfg, s, s', k);
  }

  lemma OtherAdmit(cfg: Config, s: State, n: nat, time: int, s': State, k: nat)
    requires ClientInv(cfg, s, k) && n in s.ses && Admitted(cfg, s, n, s.ses[n], time) == Some(s') && n != k
    requires Serials(s.ses, s.t.allocs) && Distinct(s, k)
    ensures ClientInv(cfg, s', k)
  {
    hide MySession, HubOk, DestsOk, RouterOk, Admitted, SentTo, GotBy, For;
    Admits(cfg, s, n, time, s');
    IdsDistinct(n, k);
    SameView(cfg, s, s', k);
  }

  lemma OtherLinks(cfg: Config, s: State, n: nat, s': State, k: nat)
    requires ClientInv(cfg, s, k) && n in s.ses && LinkIn(s, n, s.ses[n]) == Some(s') && n != k
    requires Serials(s.ses, s.t.allocs) && Distinct(s, k)
    ensures ClientInv(cfg, s', k)
  {
    hide MySession, HubOk, DestsOk, RouterOk, LinkIn;
    Links(s, n, s');
    IdsDistinct(n, k);
    if s'.routers == s.routers {
      SameView(cfg, s, s', k);
    } else {
      OtherLink(cfg, s, s', s.ses[n].owner, s'.routers[s.ses[n].owner].links, k);
    }
  }

  lemma OtherUnlinks(cfg: Config, s: State, n: nat, s': State, k: nat)
    requires ClientInv(cfg, s, k) && n in s.ses && LinkOut(s, n, s.ses[n].owner) == Some(s') && n != k
    requires Serials(s.ses, s.t.allocs) && Distinct(s, k)
    ensures ClientInv(cfg, s', k)
  {
    hide MySession, HubOk, DestsOk, RouterOk, SentTo, GotBy, For;
    IdsDistinct(n, k);
    OtherLink(cfg, s, s', s.ses[n].owner, s'.routers[s.ses[n].owner].links, k);
  }

  lemma OtherStep(cfg: Config, s: State, n: nat, st: SessionStep, s': State, k: nat)
    requires ClientInv(cfg, s, k) && n in s.ses && SessionDoes(cfg, s, n, st) == Some(s') && n != k
    requires Serials(s.ses, s.t.allocs) && Distinct(s, k)
    ensures ClientInv(cfg, s', k)
  {
    hide MySession, HubOk, DestsOk, RoutersOk, SessionDoes, SessionGo, SentTo, GotBy, For;
    SessionEmits(cfg, s, n, st, s');
    IdsDistinct(n, k);
    OtherSession(cfg, s, s', n, k);
  }

  lemma OtherTransport(cfg: Config, s: State, n: nat, st: TransportStep, s': State, k: nat)
    requires ClientInv(cfg, s, k) && n in s.ses && TransportDoes(cfg, s, n, st) == Some(s') && n != k
    ensures ClientInv(cfg, s', k)
  {
    hide MySession, HubOk, DestsOk, RoutersOk, TransportGo, SentTo, GotBy, For;
    OtherSession(cfg, s, s', n, k);
  }
}
