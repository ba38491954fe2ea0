/**
 What a goroutine at work can wait for. In every state of every run a goroutine that is not waiting for input has
 a step, unless the one channel it has to send on is full; where that channel cannot be full, it always has one.
 */
module Progress {
  import opened Types
  import opened Channels
  import opened ClientTable
  import opened Machine
  import opened TableSafety
  import opened ClientInvariant
  import opened ClientSideProof
  import opened Runs
  import opened Endings

  // ---------------------------------------------------------------- the hub

  predicate RouterClosesFull(cfg: Config, s: State, n: Name) {
    n in s.routers && |s.routers[n].closes.queue| >= cfg.room.control
  }

  predicate DestClosesFull(cfg: Config, s: State, d: Name) {
    d in s.dests && |s.dests[d].closes.queue| >= cfg.room.control
  }

  /** A kick waits only while it tells a side whose channel is full. */
  predicate KickWaits(cfg: Config, s: State, k: Kick) {
    || (k.TellClient? && k.cn != "" && RouterClosesFull(cfg, s, k.cn))
    || (k.TellDest? && k.dn != "" && DestClosesFull(cfg, s, k.dn))
  }

  predicate ClientLoopWaits(cfg: Config, s: State) {
    match s.t.cpc
    case CSend(_, d) => d in s.dests && |s.dests[d].msgs.queue| >= cfg.room.destData
    case CForward(_, d) => d in s.dests && |s.dests[d].opens.queue| >= cfg.room.control
    case CKick(k) => KickWaits(cfg, s, k)
    case _ => false
  }

  predicate DestLoopWaits(cfg: Config, s: State) {
    match s.t.dpc
    case DSend(_, n) => n in s.routers && |s.routers[n].msgs.queue| >= cfg.room.routerData
    case DTell(_, n) => n in s.routers && |s.routers[n].verdicts.queue| >= cfg.room.control
    case DKick(k) => KickWaits(cfg, s, k)
    case _ => false
  }

  predicate DrainWaits(cfg: Config, s: State) {
    match s.t.zpc
    case ZTellClient(id) => RouterClosesFull(cfg, s, ClientName(s.t.clients, id))
    case ZTellDest(id) => DestClosesFull(cfg, s, DestName(s.t.clients, id))
    case _ => false
  }

  lemma KickGoesOn(cfg: Config, s: State, k: Kick)
    requires ValidConfig(cfg) && Wired(cfg, s)
    ensures Fits(cfg, s, KickStep(cfg, s.t, k).out) <==> !KickWaits(cfg, s, k)
  {
  }

  /** The client-side and the destination-side goroutine at work. */
  lemma HubLoopsGoOn(cfg: Config, r: Run, i: nat)
    requires ValidConfig(cfg) && IsRun(cfg, r) && i < |r.states|
    ensures var s := r.states[i];
      && (!s.t.cpc.CIdle? && !s.t.cpc.CExit? ==>
          (HubDo(cfg, s, ByClientLoop(Go(s.t.now))).Some? <==> !ClientLoopWaits(cfg, s)))
      && (!s.t.dpc.DIdle? && !s.t.dpc.DExit? ==>
          (HubDo(cfg, s, ByDestLoop(Go(s.t.now))).Some? <==> !DestLoopWaits(cfg, s)))
  {
    hide IsRun, KickStep, KickWaits, Books, Times, Ages, RoutesKnown, Names, Sends, Assign, SentTo, GotBy, For;
    var s := r.states[i];
    TableHolds(cfg, r, i);
    if s.t.cpc.CKick? {
      KickGoesOn(cfg, s, s.t.cpc.k);
    }
    if s.t.dpc.DKick? {
      KickGoesOn(cfg, s, s.t.dpc.k);
    }
  }

  /** Some order in which a listing can visit the table. */
  lemma {:induction false} SomeOrder(m: Clients) returns (ids: seq<Id>)
    ensures ListsAll(ids, m)
    decreases |m|
  {
    if m == map[] {
      ids := [];
    } else {
      var id: Id :| id in m;
      ids := SomeOrder(m - {id});
      ids := ids + [id];
    }
  }

  /** The timeout goroutine: it can always list the table, and waits only for room for a close. */
  lemma TickerGoesOn(cfg: Config, r: Run, i: nat) returns (st: TickStep)
    requires ValidConfig(cfg) && IsRun(cfg, r) && i < |r.states|
    ensures var s := r.states[i];
      !s.t.tpc.TExit? && !(s.t.tpc.TKick? && KickWaits(cfg, s, s.t.tpc.k)) ==> HubDo(cfg, s, ByTicker(st)).Some?
  {
    hide IsRun, KickStep, KickWaits, Books, Times, Ages, RoutesKnown, Names, Sends, ScanOn, SweepOn, DueAt;
    var s := r.states[i];
    TableHolds(cfg, r, i);
    match s.t.tpc
    case TIdle => st := Begin;
    case TList(_, _, _) =>
      var ids := SomeOrder(s.t.clients);
      st := List(s.t.now, s.t.now, s.t.now, ids);
    case TKick(_, _, _, k) =>
      st := Advance;
      KickGoesOn(cfg, s, k);
    case _ => st := Advance;
  }

  /** The drain: once the three goroutines have ended it goes on to its end, waiting only for room for a close. */
  lemma DrainProceeds(cfg: Config, r: Run, i: nat) returns (pick: Id)
    requires ValidConfig(cfg) && IsRun(cfg, r) && i < |r.states|
    requires var t := r.states[i].t; !t.zpc.ZDone? && t.cpc.CExit? && t.dpc.DExit? && t.tpc.TExit?
    ensures HubDo(cfg, r.states[i], ByDrain(pick)).Some? <==> !DrainWaits(cfg, r.states[i])
  {
    hide IsRun, Books, Times, Ages, RoutesKnown, PcsOk, Sends, SentTo, GotBy, For, ClientGo, DestGo, TickGo, Drop;
    var s := r.states[i];
    TableHolds(cfg, r, i);
    pick := 0;
    if s.t.clients != map[] {
      pick :| pick in s.t.clients;
    }
  }

  // ---------------------------------------------------------------- routers, sessions and destinations

  /** A router waits only while the queue of the linked client it has something for is full. */
  lemma RouterGoesOn(cfg: Config, s: State, n: Name)
    requires n in s.routers && Holding(s.routers[n].pc).Some?
    ensures var R, id := s.routers[n], Holding(s.routers[n].pc).value;
      ClientDo(cfg, s, Demux(n)).None? <==>
        && id in R.links && R.links[id] in s.ses
        && var S := s.ses[R.links[id]];
           if R.pc.RMsg? then |S.outQ.queue| >= cfg.room.outbox
           else if R.pc.RVerdict? then S.verdictQ.queue != [] else S.closeReq.queue != []
  {
  }

  /** A session's signal to its transport never waits, nor does its verdict if the client's channel has a place. */
  lemma SessionGoesOn(cfg: Config, r: Run, i: nat, k: nat)
    requires ValidConfig(cfg) && IsRun(cfg, r) && i < |r.states| && Distinct(r.states[i], k)
    ensures var s, S := r.states[i], Ses(r.states[i], k); var done := S.cancelled || s.shutdown;
      && (S.phase.Signalling? ==> SessionGo(cfg, S, done, Proceed).Some?)
      && (S.phase.Telling? && cfg.room.outbox > 0 ==> SessionGo(cfg, S, done, Proceed).Some?)
      && (S.phase.Relaying? && S.phase.out.OutSignal? ==> SessionGo(cfg, S, done, OutTell).Some?)
      && (S.phase.Relaying? && S.phase.out.OutHeld? ==>
          (SessionGo(cfg, S, done, OutSend).Some? <==> |S.packets.queue| < cfg.room.outbox))
  {
    hide IsRun, SentTo, Refusing, EndedLate;
    EndHolds(cfg, r, i, k);
  }

  /** What a session has for the hub waits only for room on the hub's own channel. */
  lemma AskingGoesOn(cfg: Config, s: State, n: nat)
    requires n in s.ses
    ensures var S := s.ses[n];
      && (S.phase.Asking? ==>
          (ClientDo(cfg, s, BySession(n, Proceed)).Some? <==> |s.cCloses.queue| < cfg.room.clientIn))
      && (S.phase.Opening? ==>
          (ClientDo(cfg, s, BySession(n, Proceed)).Some? <==> |s.cOpens.queue| < cfg.room.clientIn))
      && (S.phase.Relaying? && S.phase.inn.InHeld? ==>
          (ClientDo(cfg, s, BySession(n, InSend)).Some? <==> |s.cMsgs.queue| < cfg.room.clientIn))
      && (S.phase.Relaying? && S.phase.inn.InAsk? ==>
          (ClientDo(cfg, s, BySession(n, InTell)).Some? <==> |s.cCloses.queue| < cfg.room.clientIn))
  {
    hide SentTo, GotBy, For;
  }

  /** A destination's command goroutine waits only for room for its datagram, or for its refusal. */
  lemma UdpGoesOn(cfg: Config, s: State, d: Name)
    requires d in s.dests && d in cfg.udp && !s.dests[d].pc.UIdle? && !s.dests[d].pc.UExit?
    ensures var D := s.dests[d];
      if D.pc.URefuse? then DestDo(cfg, s, UdpRefuse(d)).Some? <==> |s.dVerdicts.queue| < cfg.room.destIn
      else DestDo(cfg, s, ByUdp(d, Act)).None? <==>
        (D.pc.USend? || D.pc.USendClose?) && |D.out.queue| >= cfg.room.datagrams
  {
    hide SentTo, GotBy, For, Register;
  }
}
