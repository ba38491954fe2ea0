/**
 The two forms of the hub agree: a goroutine of `Machine` that is not interfered with does, step by step,
 what the method of `Proxies.Proxy` is specified to do.
 */
module Agreement {
  import opened Types
  import opened Channels
  import opened ClientTable
  import opened Machine
  import opened Frames
  import opened Proxies

  /** The machine's configuration names the handlers that are registered with the hub object. */
  ghost predicate Describes(cfg: Config, h: Hub, handlers: seq<DestinationHandler>) {
    && cfg.clients == h.toClients.Keys && (forall d :: d in cfg.dests <==> d in h.toDests)
    && |cfg.dests| == |handlers|
    && (forall i :: 0 <= i < |handlers| ==> Same(cfg, handlers[i], cfg.dests[i]))
    && "" !in cfg.clients && "" !in cfg.dests
  }

  ghost predicate Same(cfg: Config, x: DestinationHandler, d: Name) {
    x.name == d && forall conn :: x.matches(conn) == cfg.matches(d, conn)
  }

  /** The hub after a step that left table `t` and sent `o`. */
  function Then(h: Hub, t: Table, o: Out): Hub {
    Deliver(h, o).(clients := t.clients)
  }

  /** Up to `n` steps of one goroutine and their effect on the hub. */
  function ClientRuns(cfg: Config, t: Table, h: Hub, time: int, n: nat): (Table, Hub)
    decreases n
  {
    if n == 0 then (t, h) else
      match ClientGo(cfg, t, time)
      case None => (t, h)
      case Some(r) => ClientRuns(cfg, r.0, Then(h, r.0, r.1), time, n - 1)
  }

  function DestRuns(cfg: Config, t: Table, h: Hub, time: int, n: nat): (Table, Hub)
    decreases n
  {
    if n == 0 then (t, h) else
      match DestGo(cfg, t, time)
      case None => (t, h)
      case Some(r) => DestRuns(cfg, r.0, Then(h, r.0, r.1), time, n - 1)
  }

  function TickRuns(cfg: Config, t: Table, h: Hub, n: nat): (Table, Hub)
    decreases n
  {
    if n == 0 then (t, h) else
      match TickGo(cfg, t, Advance)
      case None => (t, h)
      case Some(r) => TickRuns(cfg, r.0, Then(h, r.0, r.1), n - 1)
  }

  // ---------------------------------------------------------------- channels

  /** The object's queues are the machine's channels, seen from the sending end. */
  ghost predicate MirrorsRouter(ch: ClientChannels, R: Router) {
    ch.verdicts == R.verdicts.queue && ch.messages == R.msgs.queue && ch.closes == IdsIn(R.closes.queue)
  }

  ghost predicate MirrorsDest(ch: DestChannels, D: Dest) {
    ch.opens == D.opens.queue && ch.messages == D.msgs.queue && ch.closes == IdsIn(D.closes.queue)
  }

  ghost predicate Mirrors(h: Hub, s: State) {
    && h.clients == s.t.clients && h.toClients.Keys == s.routers.Keys && h.toDests.Keys == s.dests.Keys
    && (forall n :: n in s.routers ==> MirrorsRouter(h.toClients[n], s.routers[n]))
    && (forall d :: d in s.dests ==> MirrorsDest(h.toDests[d], s.dests[d]))
  }

  lemma RouterMirrors(ch: ClientChannels, R: Router, o: Out)
    requires MirrorsRouter(ch, R)
    ensures MirrorsRouter(OnClient(ch, o), ToRouter(R, o))
  {
    hide IdsIn;
    if o.CloseDown? {
      MoreIds(R.closes.queue, o.id);
    }
  }

  lemma DestMirrors(ch: DestChannels, D: Dest, o: Out)
    requires MirrorsDest(ch, D)
    ensures MirrorsDest(OnDest(ch, o), ToDest(D, o))
  {
    hide IdsIn;
    if o.CloseUp? {
      MoreIds(D.closes.queue, o.id);
    }
  }

  /** Delivering to the object's queues is sending on the machine's channels: the object keeps mirroring the machine. */
  lemma DeliverIsSend(cfg: Config, h: Hub, s: State, t: Table, o: Out)
    requires Mirrors(h, s) && Fits(cfg, s, o)
    ensures Mirrors(Then(h, t, o), Sends(s, t, o))
  {
    hide MirrorsRouter, MirrorsDest, OnClient, OnDest, ToRouter, ToDest, Fits;
    FitsKnown(cfg, s, o);
    if o.DataUp? || o.OpenUp? || o.CloseUp? {
      DestMirrors(h.toDests[o.dest], s.dests[o.dest], o);
    } else if !o.Nothing? {
      RouterMirrors(h.toClients[o.router], s.routers[o.router], o);
    }
  }

  // ---------------------------------------------------------------- kicks

  /** What the two closes of a kick amount to. */
  lemma ClosesAgree(cfg: Config, t: Table, h: Hub, handlers: seq<DestinationHandler>, id: Id)
    requires Describes(cfg, h, handlers) && h.clients == t.clients
    ensures var cn, dn := ClientName(t.clients, id), DestName(t.clients, id);
      AfterKick(h, id) ==
        Then(Then(Then(h, t, CloseForClient(cfg, id, cn)), t, CloseForDest(cfg, id, dn)), Drop(t, id), Nothing)
  {
    var cn, dn := ClientName(t.clients, id), DestName(t.clients, id);
    var h1 := Then(h, t, CloseForClient(cfg, id, cn));
    assert h1 == CloseAtClient(h, cn, id);
    assert Then(h1, t, CloseForDest(cfg, id, dn)) == CloseAtDest(h1, dn, id);
  }

  /** A kick does not look at where the goroutines are. */
  lemma KickSame(cfg: Config, t: Table, k: Kick)
    ensures forall p :: KickStep(cfg, t.(cpc := p), k) == KickStep(cfg, t, k).(t := KickStep(cfg, t, k).t.(cpc := p))
    ensures forall p :: KickStep(cfg, t.(dpc := p), k) == KickStep(cfg, t, k).(t := KickStep(cfg, t, k).t.(dpc := p))
  {
  }

  /** One step of a kick of the client-side goroutine. */
  lemma ClientKickOne(cfg: Config, t: Table, h: Hub, k: Kick, time: int, n: nat)
    ensures var r := KickStep(cfg, t, k);
      ClientRuns(cfg, t.(cpc := CKick(k)), h, time, n + 1) ==
      ClientRuns(cfg, r.t.(cpc := if r.k.Some? then CKick(r.k.value) else CIdle), Then(h, r.t, r.out), time, n)
  {
    hide KickStep, Deliver, Assign, StampClient;
    KickStays(cfg, t, k);
    KickSame(cfg, t, k);
    assert KickStep(cfg, t.(cpc := CKick(k)), k) ==
      KickStep(cfg, t, k).(t := KickStep(cfg, t, k).t.(cpc := CKick(k)));
  }

  lemma ClientKickAgrees(cfg: Config, t: Table, h: Hub, handlers: seq<DestinationHandler>, id: Id, time: int)
    requires Describes(cfg, h, handlers) && h.clients == t.clients && t.cpc == CKick(LookClient(id))
    ensures ClientRuns(cfg, t, h, time, 5) == (Drop(t, id).(cpc := CIdle), AfterKick(h, id))
  {
    hide Deliver, AfterKick, CloseForClient, CloseForDest, ClientRuns, Describes;
    var cn, dn := ClientName(t.clients, id), DestName(t.clients, id);
    ClosesAgree(cfg, t, h, handlers, id);
    var h1 := Then(h, t, CloseForClient(cfg, id, cn));
    var h2 := Then(h1, t, CloseForDest(cfg, id, dn));
    Quietly(h, t);
    ClientKickOne(cfg, t, h, LookClient(id), time, 4);
    ClientKickOne(cfg, t, h, LookDest(id, cn), time, 3);
    ClientKickOne(cfg, t, h, TellClient(id, cn, dn), time, 2);
    ClientKickOne(cfg, t, h1, TellDest(id, dn), time, 1);
    ClientKickOne(cfg, t, h2, Forget(id), time, 0);
    ClientRests(cfg, Drop(t, id).(cpc := CIdle), AfterKick(h, id), time);
  }

  lemma ClientRests(cfg: Config, t: Table, h: Hub, time: int)
    ensures ClientRuns(cfg, t, h, time, 0) == (t, h)
  {
  }

  lemma Quietly(h: Hub, t: Table)
    requires h.clients == t.clients
    ensures Then(h, t, Nothing) == h
  {
  }

  /** One step of a kick of the destination-side goroutine. */
  lemma DestKickOne(cfg: Config, t: Table, h: Hub, k: Kick, time: int, n: nat)
    ensures var r := KickStep(cfg, t, k);
      DestRuns(cfg, t.(dpc := DKick(k)), h, time, n + 1) ==
      DestRuns(cfg, r.t.(dpc := if r.k.Some? then DKick(r.k.value) else DIdle), Then(h, r.t, r.out), time, n)
  {
    hide KickStep, Deliver, Connect, StampDest;
    KickStays(cfg, t, k);
    KickSame(cfg, t, k);
    assert KickStep(cfg, t.(dpc := DKick(k)), k) ==
      KickStep(cfg, t, k).(t := KickStep(cfg, t, k).t.(dpc := DKick(k)));
  }

  lemma DestKickAgrees(cfg: Config, t: Table, h: Hub, handlers: seq<DestinationHandler>, id: Id, time: int)
    requires Describes(cfg, h, handlers) && h.clients == t.clients && t.dpc == DKick(LookClient(id))
    ensures DestRuns(cfg, t, h, time, 5) == (Drop(t, id).(dpc := DIdle), AfterKick(h, id))
  {
    hide Deliver, AfterKick, CloseForClient, CloseForDest, DestRuns, Describes;
    var cn, dn := ClientName(t.clients, id), DestName(t.clients, id);
    ClosesAgree(cfg, t, h, handlers, id);
    var h1 := Then(h, t, CloseForClient(cfg, id, cn));
    var h2 := Then(h1, t, CloseForDest(cfg, id, dn));
    Quietly(h, t);
    DestKickOne(cfg, t, h, LookClient(id), time, 4);
    DestKickOne(cfg, t, h, LookDest(id, cn), time, 3);
    DestKickOne(cfg, t, h, TellClient(id, cn, dn), time, 2);
    DestKickOne(cfg, t, h1, TellDest(id, dn), time, 1);
    DestKickOne(cfg, t, h2, Forget(id), time, 0);
    DestRests(cfg, Drop(t, id).(dpc := DIdle), AfterKick(h, id), time);
  }

  lemma DestRests(cfg: Config, t: Table, h: Hub, time: int)
    ensures DestRuns(cfg, t, h, time, 0) == (t, h)
  {
  }

  lemma TickOne(cfg: Config, t: Table, h: Hub, n: nat)
    requires TickGo(cfg, t, Advance).Some?
    ensures var r := TickGo(cfg, t, Advance).value;
      TickRuns(cfg, t, h, n + 1) == TickRuns(cfg, r.0, Then(h, r.0, r.1), n)
  {
    hide TickGo;
  }

  /** One step of the sweep's kick `k`. */
  lemma TickKickOne(cfg: Config, t: Table, h: Hub, start: int, auth: bool, todo: seq<Id>, k: Kick, n: nat)
    ensures var r := KickStep(cfg, t, k);
      var next := if r.k.Some? then TKick(start, auth, todo, r.k.value) else TSweep(start, auth, todo);
      TickRuns(cfg, t.(tpc := TKick(start, auth, todo, k)), h, n + 1) ==
      TickRuns(cfg, r.t.(tpc := next), Then(h, r.t, r.out), n)
  {
    hide TickRuns, Deliver;
    TickOne(cfg, t.(tpc := TKick(start, auth, todo, k)), h, n);
  }

  /** One client of a sweep: its kick begins, and goes through. */
  lemma TickKickAgrees(cfg: Config, t: Table, h: Hub, handlers: seq<DestinationHandler>, n: nat)
    requires Describes(cfg, h, handlers) && h.clients == t.clients && t.tpc.TSweep? && t.tpc.todo != []
    ensures var p := t.tpc;
      TickRuns(cfg, t, h, n + 6) ==
      TickRuns(cfg, Drop(t, p.todo[0]).(tpc := TSweep(p.start, p.auth, p.todo[1..])), AfterKick(h, p.todo[0]), n)
  {
    hide Deliver, AfterKick, CloseForClient, CloseForDest, TickRuns;
    var id, todo, start, auth := t.tpc.todo[0], t.tpc.todo[1..], t.tpc.start, t.tpc.auth;
    var cn, dn := ClientName(t.clients, id), DestName(t.clients, id);
    ClosesAgree(cfg, t, h, handlers, id);
    var h1 := Then(h, t, CloseForClient(cfg, id, cn));
    var h2 := Then(h1, t, CloseForDest(cfg, id, dn));
    Quietly(h, t);
    TickOne(cfg, t, h, n + 5);
    TickKickOne(cfg, t, h, start, auth, todo, LookClient(id), n + 4);
    TickKickOne(cfg, t, h, start, auth, todo, LookDest(id, cn), n + 3);
    TickKickOne(cfg, t, h, start, auth, todo, TellClient(id, cn, dn), n + 2);
    TickKickOne(cfg, t, h1, start, auth, todo, TellDest(id, dn), n + 1);
    TickKickOne(cfg, t, h2, start, auth, todo, Forget(id), n);
  }

  /** A whole sweep kicks the clients it listed, one after the other. */
  lemma {:induction false} SweepAgrees(cfg: Config, t: Table, h: Hub, handlers: seq<DestinationHandler>)
    requires Describes(cfg, h, handlers) && h.clients == t.clients && t.tpc.TSweep?
    ensures var r := TickRuns(cfg, t, h, 6 * |t.tpc.todo|);
      r.1 == AfterKicks(h, t.tpc.todo) && r.0.clients == r.1.clients && r.0.tpc == TSweep(t.tpc.start, t.tpc.auth, [])
    decreases |t.tpc.todo|
  {
    hide AfterKick, Describes, TickRuns;
    var todo := t.tpc.todo;
    if todo == [] {
      TickRests(cfg, t, h);
    } else {
      var t' := Drop(t, todo[0]).(tpc := TSweep(t.tpc.start, t.tpc.auth, todo[1..]));
      TickKickAgrees(cfg, t, h, handlers, 6 * |todo[1..]|);
      KickFacts(h, todo[0]);
      StillDescribes(cfg, h, handlers, todo[0]);
      SweepAgrees(cfg, t', AfterKick(h, todo[0]), handlers);
      KicksFirst(h, todo);
    }
  }

  lemma TickRests(cfg: Config, t: Table, h: Hub)
    ensures TickRuns(cfg, t, h, 0) == (t, h)
  {
  }

  lemma KickFacts(h: Hub, id: Id)
    ensures AfterKick(h, id).clients == Remove(h.clients, id)
    ensures AfterKick(h, id).toClients.Keys == h.toClients.Keys && AfterKick(h, id).toDests.Keys == h.toDests.Keys
  {
  }

  lemma StillDescribes(cfg: Config, h: Hub, handlers: seq<DestinationHandler>, id: Id)
    requires Describes(cfg, h, handlers)
    ensures Describes(cfg, AfterKick(h, id), handlers)
  {
    hide AfterKick;
    KickFacts(h, id);
  }

  /** The first kick of a list can be made first. */
  lemma {:induction false} KicksFirst(h: Hub, ids: seq<Id>)
    requires ids != []
    ensures AfterKicks(h, ids) == AfterKicks(AfterKick(h, ids[0]), ids[1..])
    decreases |ids|
  {
    hide AfterKick;
    if |ids| == 1 {
      assert AfterKicks(h, ids) == AfterKick(AfterKicks(h, ids[..0]), ids[0]);
    } else {
      var some, last := ids[..|ids| - 1], ids[|ids| - 1];
      KicksFirst(h, some);
      assert ids[1..][..|ids[1..]| - 1] == some[1..];
    }
  }

  // ---------------------------------------------------------------- listings

  /** Those of `ids` that a listing keeps, if the table does not change meanwhile. */
  function Hits(ids: seq<Id>, m: Clients, auth: bool, due: Deadlines): seq<Id> {
    if ids == [] then []
    else (if ids[0] in m && Due(m[ids[0]], auth, due) then [ids[0]] else []) + Hits(ids[1..], m, auth, due)
  }

  lemma {:induction false} HitsAre(ids: seq<Id>, m: Clients, auth: bool, due: Deadlines)
    requires NoDuplicates(ids)
    ensures NoDuplicates(Hits(ids, m, auth, due))
    ensures forall id :: id in Hits(ids, m, auth, due) <==> id in ids && id in m && Due(m[id], auth, due)
  {
    hide Due;
    if ids != [] {
      HitsAre(ids[1..], m, auth, due);
      assert ids[0] !in ids[1..] && ids == [ids[0]] + ids[1..];
    }
  }

  lemma ScanOne(cfg: Config, t: Table, h: Hub, n: nat)
    requires t.tpc.TScan? && h.clients == t.clients
    ensures var p := t.tpc;
      TickRuns(cfg, t, h, n + 1) == TickRuns(cfg, ScanOn(t, p.start, p.auth, p.due, p.rest, p.todo), h, n)
  {
    hide TickRuns, Due, Deliver, KickStep;
    var p := t.tpc;
    var t' := ScanOn(t, p.start, p.auth, p.due, p.rest, p.todo);
    assert t'.clients == t.clients;
    Quietly(h, t');
    TickOne(cfg, t, h, n);
  }

  /** One visit moves one entry's hit, if it is one, to the list. */
  lemma VisitMovesHit(t: Table)
    requires t.tpc.TScan? && t.tpc.rest != []
    ensures var p := t.tpc; var t' := ScanOn(t, p.start, p.auth, p.due, p.rest, p.todo);
      && t'.tpc.TScan? && t' == t.(tpc := TScan(p.start, p.auth, p.due, p.rest[1..], t'.tpc.todo))
      && t'.tpc.todo + Hits(p.rest[1..], t.clients, p.auth, p.due) ==
         p.todo + Hits(p.rest, t.clients, p.auth, p.due)
  {
    hide Due;
  }

  lemma {:induction false} ScanRuns(cfg: Config, t: Table, h: Hub)
    requires t.tpc.TScan? && h.clients == t.clients
    ensures var p := t.tpc;
      TickRuns(cfg, t, h, |p.rest| + 1) ==
      (t.(tpc := TSweep(p.start, p.auth, p.todo + Hits(p.rest, t.clients, p.auth, p.due))), h)
    decreases |t.tpc.rest|
  {
    hide TickRuns, Due, KickStep, Deliver;
    var p := t.tpc;
    var t' := ScanOn(t, p.start, p.auth, p.due, p.rest, p.todo);
    ScanOne(cfg, t, h, |p.rest|);
    if p.rest == [] {
      TickRests(cfg, t', h);
      assert p.todo + [] == p.todo;
    } else {
      hide Hits, ScanOn;
      VisitMovesHit(t);
      ScanRuns(cfg, t', h);
    }
  }

  /** The visits of a listing that is not interfered with find exactly the clients that are due, once each. */
  lemma VisitsAgree(cfg: Config, t: Table, h: Hub)
    requires t.tpc.TScan? && t.tpc.todo == [] && ListsAll(t.tpc.rest, t.clients) && h.clients == t.clients
    ensures var p, r := t.tpc, TickRuns(cfg, t, h, |t.tpc.rest| + 1);
      && r.1 == h && r.0.tpc.TSweep? && r.0 == t.(tpc := TSweep(p.start, p.auth, r.0.tpc.todo))
      && (if p.auth then ListsUnanswered(r.0.tpc.todo, t.clients, p.due.connection)
          else ListsExpired(r.0.tpc.todo, t.clients, p.due))
  {
    hide TickRuns;
    var p := t.tpc;
    ScanRuns(cfg, t, h);
    HitsAre(p.rest, t.clients, p.auth, p.due);
    assert p.todo + Hits(p.rest, t.clients, p.auth, p.due) == Hits(p.rest, t.clients, p.auth, p.due);
  }

  /**
   A listing, from its clock readings to its list, takes the deadlines of `KickOldClients` or of
   `CheckForAuthTimeouts` and lists what they list.
   */
  lemma ListAgrees(cfg: Config, t: Table, st: TickStep, h: Hub)
    requires t.tpc.TList? && st.List? && TickGo(cfg, t, st).Some? && h.clients == t.clients
    ensures var r := TickRuns(cfg, TickGo(cfg, t, st).value.0, h, |st.ids| + 1);
      && r.1 == h && r.0.tpc.TSweep? && r.0 == t.(tpc := TSweep(t.tpc.start, t.tpc.auth, r.0.tpc.todo))
      && (if t.tpc.auth then ListsUnanswered(r.0.tpc.todo, t.clients, st.t1 - cfg.authTimeout)
          else ListsExpired(r.0.tpc.todo, t.clients,
                            Deadlines(st.t1 - cfg.clientTimeout, st.t2 - cfg.destTimeout, st.t3 - cfg.maxLength)))
  {
    hide TickRuns, ListsUnanswered, ListsExpired, ListsAll;
    VisitsAgree(cfg, TickGo(cfg, t, st).value.0, h);
  }

  /**
   A connection enters the table exactly when its id is free and there is room, with every clock at the time read
   and nothing known about it yet; otherwise the table stays and the connection is given up.
   */
  lemma AdmitAgrees(cfg: Config, s: State, n: nat, time: int)
    requires n in s.ses && s.ses[n].phase.Allocated? && s.ses[n].phase.since <= time <= s.t.now && !Draining(s.t)
    ensures var r, id, S := ClientDo(cfg, s, Admit(n, time)), IdOf(n), s.ses[n];
      && r.Some? && n in r.value.ses && r.value.routers == s.routers && r.value.dests == s.dests
      && (if id !in s.t.clients && |s.t.clients| < cfg.max
          then r.value.t.clients == s.t.clients[id := Meta(false, S.owner, "", time, time, time)] &&
            r.value.ses == s.ses[n := S.(phase := Created)]
          else r.value.t == s.t && r.value.ses == s.ses[n := S.(phase := Rejected)])
  {
  }

  // ---------------------------------------------------------------- opens, data and verdicts

  lemma {:induction false} FirstAgrees(cfg: Config, dests: seq<Name>, handlers: seq<DestinationHandler>, conn: string)
    requires |dests| == |handlers| && forall i :: 0 <= i < |handlers| ==> Same(cfg, handlers[i], dests[i])
    ensures FirstMatch(dests, cfg.matches, conn) == FirstHandler(handlers, conn)
  {
    if dests != [] {
      assert Same(cfg, handlers[0], dests[0]);
      FirstAgrees(cfg, dests[1..], handlers[1..], conn);
    }
  }

  /** An open request, from its receipt to the open command, the kick, or nothing. */
  lemma OpenAgrees(cfg: Config, t: Table, h: Hub, handlers: seq<DestinationHandler>, o: Env<Auth>, time: int)
    requires Describes(cfg, h, handlers) && h.clients == t.clients && t.cpc == COpen(o)
    ensures var r := ClientRuns(cfg, t, h, time, 7);
      r.1 == AfterOpen(h, handlers, o) && r.0.clients == r.1.clients && r.0.cpc.CIdle?
  {
    hide Deliver, AfterKick, FirstMatch, FirstHandler, KickStep;
    FirstAgrees(cfg, cfg.dests, handlers, o.body.conn);
    Quietly(h, t);
    if o.id in t.clients && DestName(t.clients, o.id) == "" {
      var t1 := t.(cpc := CAssign(o));
      assert ClientRuns(cfg, t, h, time, 7) == ClientRuns(cfg, t1, h, time, 6);
      var t2 := Assign(cfg, t1, o);
      assert ClientRuns(cfg, t1, h, time, 6) == ClientRuns(cfg, t2, Then(h, t2, Nothing), time, 5);
      if FirstMatch(cfg.dests, cfg.matches, o.body.conn).None? {
        hide ClientRuns;
        ClientKickAgrees(cfg, t2, h, handlers, o.id, time);
        KickFacts(h, o.id);
      } else {
        ForwardAgrees(cfg, t2, Then(h, t2, Nothing), time);
        Delivers(h, t2, OpenUp(t2.cpc.dn, o));
      }
    } else {
      assert ClientRuns(cfg, t, h, time, 7) == ClientRuns(cfg, t.(cpc := CIdle), h, time, 6);
    }
  }

  lemma ForwardAgrees(cfg: Config, t: Table, h: Hub, time: int)
    requires t.cpc.CForward? && h.clients == t.clients
    ensures ClientRuns(cfg, t, h, time, 5) == (t.(cpc := CIdle), Then(h, t, OpenUp(t.cpc.dn, t.cpc.o)))
  {
    hide Deliver, KickStep;
    assert ClientRuns(cfg, t, h, time, 5) ==
      ClientRuns(cfg, t.(cpc := CIdle), Then(h, t, OpenUp(t.cpc.dn, t.cpc.o)), time, 4);
  }

  lemma Delivers(h: Hub, t: Table, o: Out)
    ensures Then(Then(h, t, Nothing), t, o) == Deliver(h.(clients := t.clients), o)
  {
  }

  /** A packet from a client: forwarded and stamped if its destination is known. */
  lemma ClientMessageAgrees(cfg: Config, t: Table, h: Hub, handlers: seq<DestinationHandler>, m: Env<Bytes>)
    requires Describes(cfg, h, handlers) && h.clients == t.clients && t.cpc == CMsg(m)
    ensures var r := ClientRuns(cfg, t, h, t.now, 3);
      && r.0.cpc.CIdle?
      && r.1 == if Reaches(h, m.id)
        then Deliver(h, DataUp(DestName(h.clients, m.id), m)).(clients := StampClient(h.clients, m.id, t.now)) else h
  {
    hide KickStep, FirstMatch;
    var dn := DestName(t.clients, m.id);
    if Reaches(h, m.id) {
      var h1 := Deliver(h, DataUp(dn, m));
      assert ClientRuns(cfg, t, h, t.now, 3) == ClientRuns(cfg, t.(cpc := CSend(m, dn)), h, t.now, 2);
      assert ClientRuns(cfg, t.(cpc := CSend(m, dn)), h, t.now, 2) ==
        ClientRuns(cfg, t.(cpc := CStamp(m.id, t.now)), h1, t.now, 1);
    } else {
      assert ClientRuns(cfg, t, h, t.now, 3) == ClientRuns(cfg, t.(cpc := CIdle), h, t.now, 2);
    }
  }

  /** A payload from a destination: forwarded and stamped if the client's handler is known. */
  lemma DestinationMessageAgrees(cfg: Config, t: Table, h: Hub, handlers: seq<DestinationHandler>, m: Env<Bytes>)
    requires Describes(cfg, h, handlers) && h.clients == t.clients && t.dpc == DMsg(m)
    ensures var r := DestRuns(cfg, t, h, t.now, 3);
      && r.0.dpc.DIdle?
      && r.1 == if Answers(h, m.id)
        then Deliver(h, DataDown(ClientName(h.clients, m.id), m)).(clients := StampDest(h.clients, m.id, t.now)) else h
  {
    hide KickStep;
    var cn := ClientName(t.clients, m.id);
    if Answers(h, m.id) {
      var h1 := Deliver(h, DataDown(cn, m));
      assert DestRuns(cfg, t, h, t.now, 3) == DestRuns(cfg, t.(dpc := DSend(m, cn)), h, t.now, 2);
      assert DestRuns(cfg, t.(dpc := DSend(m, cn)), h, t.now, 2) ==
        DestRuns(cfg, t.(dpc := DStamp(m.id, t.now)), h1, t.now, 1);
    } else {
      assert DestRuns(cfg, t, h, t.now, 3) == DestRuns(cfg, t.(dpc := DIdle), h, t.now, 2);
    }
  }

  /** A verdict: the client is marked as answered, and told. */
  lemma VerdictAgrees(cfg: Config, t: Table, h: Hub, handlers: seq<DestinationHandler>, v: Env<Verdict>, time: int)
    requires Describes(cfg, h, handlers) && h.clients == t.clients && t.dpc == DVerdict(v)
    ensures var r := DestRuns(cfg, t, h, time, 3);
      && r.0.dpc.DIdle?
      && r.1 == if Answers(h, v.id)
        then Deliver(h.(clients := Connect(h.clients, v.id)), VerdictDown(ClientName(h.clients, v.id), v)) else h
  {
    hide KickStep;
    var cn := ClientName(t.clients, v.id);
    if Answers(h, v.id) {
      var t1 := t.(clients := Connect(t.clients, v.id), dpc := DTell(v, cn));
      assert DestRuns(cfg, t, h, time, 3) == DestRuns(cfg, t.(dpc := DConnect(v, cn)), h, time, 2);
      assert DestRuns(cfg, t.(dpc := DConnect(v, cn)), h, time, 2) ==
        DestRuns(cfg, t1, h.(clients := t1.clients), time, 1);
    } else {
      assert DestRuns(cfg, t, h, time, 3) == DestRuns(cfg, t.(dpc := DIdle), h, time, 2);
    }
  }
}
