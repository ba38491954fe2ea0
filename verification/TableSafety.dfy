/**
 What every run keeps about the client table, whatever happens to ids: its size, its books, the
 handler names in it, and how long an entry can stay. Nothing here limits the number of clients a
 run admits, so these facts survive the wrap-around of the id counter.
 */
module TableSafety {
  import opened Types
  import opened ClientTable
  import opened Machine
  import opened Frames

  /** Handlers are registered before the hub starts and stay; a session belongs to one of them. */
  ghost predicate Wired(cfg: Config, s: State) {
    && RoutersWired(cfg, s.routers)
    && DestsWired(cfg, s.dests)
    && SessionsWired(cfg, s.ses, s.t.now)
    && Serials(s.ses, s.t.allocs)
    && LinksWired(s.routers)
  }

  ghost predicate RoutersWired(cfg: Config, routers: map<Name, Router>) {
    routers.Keys == cfg.clients
  }

  ghost predicate DestsWired(cfg: Config, dests: map<Name, Dest>) {
    forall d :: d in dests <==> d in cfg.dests
  }

  ghost predicate SessionsWired(cfg: Config, ses: map<nat, Session>, now: int) {
    forall n :: n in ses ==> SessionWired(cfg, ses[n], now)
  }

  /** A router's map sends an id to a session with that id. */
  ghost predicate LinksWired(routers: map<Name, Router>) {
    forall n :: n in routers ==> LinksOk(routers[n].links)
  }

  ghost predicate LinksOk(links: map<Id, nat>) {
    forall id :: id in links ==> IdOf(links[id]) == id
  }

  /** Sessions are numbered by allocation. */
  ghost predicate Serials(ses: map<nat, Session>, allocs: nat) {
    forall n: nat :: n in ses <==> 1 <= n <= allocs
  }

  ghost predicate SessionWired(cfg: Config, S: Session, now: int) {
    S.owner in cfg.clients && (S.phase.Allocated? ==> S.phase.since <= now)
  }

  /** Capacity, and conservation of clients. */
  ghost predicate Books(cfg: Config, clients: Clients, made: nat, dropped: nat) {
    |clients| <= cfg.max && made == dropped + |clients|
  }

  /** Every name the hub will route by is registered. */
  ghost predicate Names(cfg: Config, clients: Clients) {
    forall id :: id in clients ==> NamesOf(cfg, clients[id])
  }

  ghost predicate NamesOf(cfg: Config, e: Meta) {
    e.client in cfg.clients && (e.dest == "" || e.dest in cfg.dests)
  }

  ghost predicate RoutesKnown(cfg: Config, routed: map<Id, Name>) {
    forall id :: id in routed ==> routed[id] in cfg.dests
  }

  /** The clock only moves forward, so no recorded time lies ahead of it. */
  ghost predicate Times(clients: Clients, inserted: map<Id, int>, now: int) {
    forall id :: id in clients ==> id in inserted && TimesOf(clients[id], inserted[id], now)
  }

  ghost predicate TimesOf(e: Meta, inserted: int, now: int) {
    e.created <= inserted <= now && e.lastClient <= now && e.lastDest <= now
  }

  /** The deadlines of a sweep were taken after its tick began. */
  predicate NotBefore(cfg: Config, start: int, auth: bool, due: Deadlines) {
    if auth then due.connection >= start - cfg.authTimeout
    else
      && due.client >= start - cfg.clientTimeout && due.dest >= start - cfg.destTimeout
      && due.connection >= start - cfg.maxLength
  }

  /** And not ahead of the clock. */
  predicate NotAfter(cfg: Config, now: int, auth: bool, due: Deadlines) {
    if auth then due.connection <= now - cfg.authTimeout
    else
      && due.client <= now - cfg.clientTimeout && due.dest <= now - cfg.destTimeout
      && due.connection <= now - cfg.maxLength
  }

  /** The names and clock readings the hub goroutines hold. */
  ghost predicate PcsOk(cfg: Config, t: Table) {
    && (t.cpc.CSend? || t.cpc.CForward? ==> t.cpc.dn in cfg.dests)
    && (t.dpc.DSend? || t.dpc.DConnect? || t.dpc.DTell? ==> t.dpc.cn in cfg.clients)
    && (t.cpc.CStamp? ==> t.cpc.since <= t.now)
    && (t.dpc.DStamp? ==> t.dpc.since <= t.now)
    && t.swept <= t.now
    && (t.tpc.TList? ==> t.swept <= t.tpc.start <= t.tpc.since <= t.now)
    && (HasListed(t.tpc) ==> t.swept <= t.tpc.start <= t.now)
    && (t.tpc.TScan? ==> NotBefore(cfg, t.tpc.start, t.tpc.auth, t.tpc.due))
    && (t.tpc.TScan? ==> NotAfter(cfg, t.now, t.tpc.auth, t.tpc.due))
  }

  // ---------------------------------------------------------------- age

  /** A client the age sweep of a tick begun at `start` has to kick. */
  predicate Old(cfg: Config, e: Meta, start: int) {
    e.created < start - cfg.maxLength
  }

  /** A client without a verdict that the second sweep of that tick has to kick. */
  predicate Shy(cfg: Config, e: Meta, start: int) {
    Unanswered(e, start - cfg.authTimeout)
  }

  /** The ids a sweep has still to look at, or has listed and not yet removed. */
  function Pending(p: TickPc): seq<Id> {
    match p
    case TScan(_, _, _, rest, todo) => rest + todo
    case TSweep(_, _, todo) => todo
    case TKick(_, _, todo, k) => [k.id] + todo
    case _ => []
  }

  /** The second sweep of the current tick has been reached. */
  predicate InAuth(p: TickPc) {
    (p.TList? || p.TScan? || p.TSweep? || p.TKick?) && p.auth
  }

  /** The current sweep has begun to list the table. */
  predicate HasListed(p: TickPc) {
    p.TScan? || p.TSweep? || p.TKick?
  }

  /** What the sweeps of the current and of the last complete tick guarantee about one entry. */
  ghost predicate AgeOk(cfg: Config, id: Id, e: Meta, inserted: int, p: TickPc, swept: int) {
    && (inserted >= swept || (!Old(cfg, e, swept) && !Shy(cfg, e, swept)))
    && (InAuth(p) ==> inserted >= p.start || !Old(cfg, e, p.start))
    && (HasListed(p) && !p.auth ==> inserted >= p.start || !Old(cfg, e, p.start) || id in Pending(p))
    && (HasListed(p) && p.auth ==> inserted >= p.start || !Shy(cfg, e, p.start) || id in Pending(p))
  }

  ghost predicate Ages(cfg: Config, clients: Clients, inserted: map<Id, int>, p: TickPc, swept: int) {
    forall id :: id in clients ==> id in inserted && AgeOk(cfg, id, clients[id], inserted[id], p, swept)
  }

  ghost predicate TableOk(cfg: Config, t: Table) {
    && Books(cfg, t.clients, t.made, t.dropped)
    && Names(cfg, t.clients)
    && Times(t.clients, t.inserted, t.now)
    && Ages(cfg, t.clients, t.inserted, t.tpc, t.swept)
    && RoutesKnown(cfg, t.routed)
    && PcsOk(cfg, t)
  }

  ghost predicate TableInv(cfg: Config, s: State) {
    Wired(cfg, s) && TableOk(cfg, s.t)
  }

  // ---------------------------------------------------------------- changes to the table

  /** An entry may be stamped, connected or routed; its age never changes. */
  lemma TouchOk(cfg: Config, t: Table, id: Id, e: Meta, t': Table)
    requires TableOk(cfg, t) && id in t.clients && t'.clients == t.clients[id := e]
    requires t' == t.(clients := t'.clients, cpc := t'.cpc, dpc := t'.dpc, routed := t'.routed) && PcsOk(cfg, t')
    requires e.created == t.clients[id].created && (t.clients[id].connected ==> e.connected)
    requires NamesOf(cfg, e) && e.lastClient <= t.now && e.lastDest <= t.now && RoutesKnown(cfg, t'.routed)
    ensures TableOk(cfg, t')
  {
  }

  lemma DropOk(cfg: Config, t: Table, id: Id)
    requires TableOk(cfg, t)
    ensures TableOk(cfg, Drop(t, id))
  {
    if id in t.clients {
      assert t.clients.Keys == Remove(t.clients, id).Keys + {id};
    } else {
      assert Remove(t.clients, id) == t.clients;
    }
  }

  lemma EnteredOk(cfg: Config, t: Table, c: Id, owner: Name, time: int)
    requires TableOk(cfg, t) && CanCreate(t.clients, cfg.max, c) && owner in cfg.clients && time <= t.now
    ensures TableOk(cfg, Entered(t, c, owner, time))
  {
  }

  lemma WaitOk(cfg: Config, t: Table, duration: nat)
    requires TableOk(cfg, t)
    ensures TableOk(cfg, t.(now := t.now + duration))
  {
  }

  lemma KickOk(cfg: Config, t: Table, k: Kick)
    requires TableOk(cfg, t)
    ensures TableOk(cfg, KickStep(cfg, t, k).t)
    ensures KickStep(cfg, t, k).t ==
      t.(clients := KickStep(cfg, t, k).t.clients, dropped := KickStep(cfg, t, k).t.dropped)
    ensures KickStep(cfg, t, k).k.Some? ==> KickStep(cfg, t, k).k.value.id == k.id
    ensures KickStep(cfg, t, k).k.None? ==> k.id !in KickStep(cfg, t, k).t.clients
  {
    if k.Forget? {
      DropOk(cfg, t, k.id);
    }
  }

  // ---------------------------------------------------------------- the hub goroutines

  lemma ClientGoOk(cfg: Config, t: Table, time: int)
    requires ValidConfig(cfg) && TableOk(cfg, t) && ClientGo(cfg, t, time).Some?
    ensures TableOk(cfg, ClientGo(cfg, t, time).value.0)
  {
    hide Books, Times, Ages, RoutesKnown, KickStep, Names, ValidConfig, DestName, StampClient, Assign, HasListed,
      NotBefore, NotAfter;
    var t' := ClientGo(cfg, t, time).value.0;
    match t.cpc
    case CStamp(id, since) => StampClientOk(cfg, t, id, time, t');
    case CAssign(o) => AssignOk(cfg, t, o);
    case CKick(k) => KickOk(cfg, t, k);
    case _ =>
  }

  /** Stamping a client's entry, for either side. */
  lemma StampOk(cfg: Config, t: Table, id: Id, e: Meta, t': Table)
    requires TableOk(cfg, t) && id in t.clients && t'.clients == t.clients[id := e]
    requires t' == t.(clients := t'.clients, cpc := t'.cpc, dpc := t'.dpc) && PcsOk(cfg, t')
    requires e == t.clients[id].(lastClient := e.lastClient, lastDest := e.lastDest)
    requires e.lastClient <= t.now || e.lastClient == t.clients[id].lastClient
    requires e.lastDest <= t.now || e.lastDest == t.clients[id].lastDest
    ensures TableOk(cfg, t')
  {
    TouchOk(cfg, t, id, e, t');
  }

  lemma StampClientOk(cfg: Config, t: Table, id: Id, time: int, t': Table)
    requires TableOk(cfg, t) && time <= t.now
    requires t' == t.(clients := StampClient(t.clients, id, time), cpc := t'.cpc) && PcsOk(cfg, t')
    ensures TableOk(cfg, t')
  {
    hide Books, Times, Ages, RoutesKnown, Names, PcsOk;
    if id in t.clients {
      StampOk(cfg, t, id, t.clients[id].(lastClient := time), t');
    }
  }

  lemma StampDestOk(cfg: Config, t: Table, id: Id, time: int, t': Table)
    requires TableOk(cfg, t) && time <= t.now && t' == t.(clients := StampDest(t.clients, id, time), dpc := t'.dpc)
    requires PcsOk(cfg, t')
    ensures TableOk(cfg, t')
  {
    hide Books, Times, Ages, RoutesKnown, Names, PcsOk;
    if id in t.clients {
      StampOk(cfg, t, id, t.clients[id].(lastDest := time), t');
    }
  }

  lemma AssignOk(cfg: Config, t: Table, o: Env<Auth>)
    requires TableOk(cfg, t)
    ensures TableOk(cfg, Assign(cfg, t, o))
  {
    FirstMatchIn(cfg.dests, cfg.matches, o.body.conn);
    var m := FirstMatch(cfg.dests, cfg.matches, o.body.conn);
    if m.Some? && o.id in t.clients {
      TouchOk(cfg, t, o.id, t.clients[o.id].(dest := m.value), Assign(cfg, t, o));
    }
  }

  lemma FirstMatchIn(dests: seq<Name>, matches: (Name, string) -> bool, conn: string)
    ensures FirstMatch(dests, matches, conn).Some? ==> FirstMatch(dests, matches, conn).value in dests
  {
  }

  /** What the table invariant asks of the destination-side goroutine alone. */
  predicate DestPcFine(cfg: Config, p: DestPc, now: int) {
    && (p.DSend? || p.DConnect? || p.DTell? ==> p.cn in cfg.clients)
    && (p.DStamp? ==> p.since <= now)
  }

  lemma DestPcMoves(cfg: Config, t: Table, p: DestPc)
    requires TableOk(cfg, t) && DestPcFine(cfg, p, t.now)
    ensures TableOk(cfg, t.(dpc := p)) && DestPcFine(cfg, t.dpc, t.now)
  {
    hide Books, Names, Times, Ages, RoutesKnown, HasListed, NotBefore, NotAfter;
  }

  /** The table after a step of the destination-side goroutine, before the goroutine has moved on. */
  lemma DestTableOk(cfg: Config, t: Table, time: int)
    requires TableOk(cfg, t) && (t.dpc.DStamp? ==> time <= t.now)
    ensures t.dpc.DStamp? ==> TableOk(cfg, t.(clients := StampDest(t.clients, t.dpc.id, time)))
    ensures t.dpc.DConnect? ==> TableOk(cfg, t.(clients := Connect(t.clients, t.dpc.v.id)))
  {
    hide Books, Names, Times, Ages, RoutesKnown, HasListed, NotBefore, NotAfter, StampDest, Connect;
    if t.dpc.DStamp? {
      StampDestOk(cfg, t, t.dpc.id, time, t.(clients := StampDest(t.clients, t.dpc.id, time)));
    } else if t.dpc.DConnect? {
      ConnectOk(cfg, t, t.dpc.v.id, t.(clients := Connect(t.clients, t.dpc.v.id)));
    }
  }

  lemma DestGoOk(cfg: Config, t: Table, time: int)
    requires ValidConfig(cfg) && TableOk(cfg, t) && DestGo(cfg, t, time).Some?
    ensures TableOk(cfg, DestGo(cfg, t, time).value.0)
  {
    hide TableOk, ValidConfig, KickStep, ClientName, StampDest, Connect;
    var p := DestGo(cfg, t, time).value.0.dpc;
    DestPcMoves(cfg, t, DIdle);
    DestTableOk(cfg, t, time);
    match t.dpc
    case DStamp(id, since) => DestPcMoves(cfg, t.(clients := StampDest(t.clients, id, time)), p);
    case DConnect(v, cn) => DestPcMoves(cfg, t.(clients := Connect(t.clients, v.id)), p);
    case DKick(k) => KickOk(cfg, t, k); DestPcMoves(cfg, KickStep(cfg, t, k).t, p);
    case _ => DestPcMoves(cfg, t, p);
  }

  lemma ConnectOk(cfg: Config, t: Table, id: Id, t': Table)
    requires TableOk(cfg, t) && t' == t.(clients := Connect(t.clients, id), dpc := t'.dpc) && PcsOk(cfg, t')
    ensures TableOk(cfg, t')
  {
    if id in t.clients {
      TouchOk(cfg, t, id, t.clients[id].(connected := true), t');
    }
  }

  lemma TickGoOk(cfg: Config, t: Table, st: TickStep)
    requires ValidConfig(cfg) && TableOk(cfg, t) && TickGo(cfg, t, st).Some?
    ensures TableOk(cfg, TickGo(cfg, t, st).value.0)
  {
    hide Books, Names, Times, RoutesKnown, KickStep;
    match t.tpc
    case TList(start, auth, since) => ListOk(cfg, t, st);
    case TScan(start, auth, due, rest, todo) => ScanOk(cfg, t);
    case TSweep(start, auth, todo) => SweepOk(cfg, t);
    case TKick(start, auth, todo, k) => KickOk(cfg, t, k);
    case _ =>
  }

  /** A listing sets out to visit every client. */
  lemma ListOk(cfg: Config, t: Table, st: TickStep)
    requires TableOk(cfg, t) && t.tpc.TList? && st.List?
    requires t.tpc.since <= st.t1 <= st.t2 <= st.t3 <= t.now && ListsAll(st.ids, t.clients)
    ensures TableOk(cfg, t.(tpc := TScan(t.tpc.start, t.tpc.auth, DueAt(cfg, t.tpc.auth, st), st.ids, [])))
  {
    hide Books, Names, Times, RoutesKnown, NoDuplicates;
  }

  /** It lists those that are past their deadline when it visits them, and what it passes over is in time for good. */
  lemma ScanOk(cfg: Config, t: Table)
    requires TableOk(cfg, t) && t.tpc.TScan?
    ensures TableOk(cfg, ScanOn(t, t.tpc.start, t.tpc.auth, t.tpc.due, t.tpc.rest, t.tpc.todo))
  {
    hide Books, Names, Times, RoutesKnown;
  }

  lemma SweepOk(cfg: Config, t: Table)
    requires TableOk(cfg, t) && t.tpc.TSweep?
    ensures TableOk(cfg, SweepOn(t, t.tpc.start, t.tpc.auth, t.tpc.todo))
  {
    hide Books, Names, Times, RoutesKnown;
  }

  lemma DrainGoOk(cfg: Config, t: Table, pick: Id)
    requires TableOk(cfg, t) && DrainGo(cfg, t, pick).Some?
    ensures TableOk(cfg, DrainGo(cfg, t, pick).value.0)
  {
    hide TableOk, CloseForClient, CloseForDest, Drop;
    var z := DrainGo(cfg, t, pick).value.0.zpc;
    if t.zpc.ZDrop? {
      DropOk(cfg, t, t.zpc.id);
      DrainPcOk(cfg, Drop(t, t.zpc.id), z);
    } else {
      DrainPcOk(cfg, t, z);
    }
  }

  lemma DrainPcOk(cfg: Config, t: Table, z: DrainPc)
    requires TableOk(cfg, t)
    ensures TableOk(cfg, t.(zpc := z))
  {
    hide Books, Names, Times, Ages, RoutesKnown;
  }

  lemma IdleOk(cfg: Config, s: State, st: LoopStep, s': State)
    requires TableOk(cfg, s.t)
    requires (s.t.cpc.CIdle? && ClientIdle(s, st) == Some(s')) || (s.t.dpc.DIdle? && DestIdle(s, st) == Some(s'))
    ensures TableOk(cfg, s'.t)
  {
    hide Books, Names, Times, Ages, RoutesKnown;
  }

  // ---------------------------------------------------------------- all steps

  lemma InitTable(cfg: Config, s: State)
    requires Init(cfg, s)
    ensures TableInv(cfg, s)
  {
  }

  lemma KeepsTable(cfg: Config, s: State, st: Step, s': State)
    requires ValidConfig(cfg) && TableInv(cfg, s) && Do(cfg, s, st) == Some(s')
    ensures TableInv(cfg, s')
  {
    hide RoutersWired, DestsWired, TableOk, HubDo, ClientDo, DestDo;
    match st
    case AtHub(h) => HubKeeps(cfg, s, h, s');
    case AtClient(c) => ClientKeeps(cfg, s, c, s');
    case AtDest(d) => DestKeeps(cfg, s, d, s');
    case Wait(duration) => WaitOk(cfg, s.t, duration);
    case Shutdown =>
  }

  lemma HubKeeps(cfg: Config, s: State, st: HubStep, s': State)
    requires ValidConfig(cfg) && TableInv(cfg, s) && HubDo(cfg, s, st) == Some(s')
    ensures TableInv(cfg, s')
  {
    hide TableOk, Wired, ClientGo, DestGo, TickGo, DrainGo, ClientIdle, DestIdle, Fits, Sends;
    match st
    case ByClientLoop(c) => ClientLoopKeeps(cfg, s, c, s');
    case ByDestLoop(d) => DestLoopKeeps(cfg, s, d, s');
    case ByTicker(x) =>
      TickGoOk(cfg, s.t, x);
      TickGoStays(cfg, s.t, x);
      StaysWired(cfg, s, TickGo(cfg, s.t, x), s');
    case ByDrain(pick) =>
      DrainGoOk(cfg, s.t, pick);
      DrainGoStays(cfg, s.t, pick);
      StaysWired(cfg, s, DrainGo(cfg, s.t, pick), s');
    case Quits => QuitsOk(cfg, s);
  }

  lemma StaysWired(cfg: Config, s: State, r: Option<(Table, Out)>, s': State)
    requires Wired(cfg, s) && HubGo(cfg, s, r) == Some(s')
    requires r.value.0.now == s.t.now && r.value.0.allocs == s.t.allocs
    ensures Wired(cfg, s') && s'.t == r.value.0
  {
    hide Fits, Sends, DestAfter, LinksOk;
    HubSends(cfg, s, r, s');
  }

  lemma ClientLoopKeeps(cfg: Config, s: State, st: LoopStep, s': State)
    requires ValidConfig(cfg) && TableInv(cfg, s) && HubDo(cfg, s, ByClientLoop(st)) == Some(s')
    ensures TableInv(cfg, s')
  {
    hide TableOk, ClientGo, ClientIdle, Fits, Sends;
    if s.t.cpc.CIdle? {
      ClientTakes(s, st, s');
      IdleOk(cfg, s, st, s');
    } else {
      ClientGoOk(cfg, s.t, st.time);
      ClientGoStays(cfg, s.t, st.time);
      StaysWired(cfg, s, ClientGo(cfg, s.t, st.time), s');
    }
  }

  lemma DestLoopKeeps(cfg: Config, s: State, st: LoopStep, s': State)
    requires ValidConfig(cfg) && TableInv(cfg, s) && HubDo(cfg, s, ByDestLoop(st)) == Some(s')
    ensures TableInv(cfg, s')
  {
    hide TableOk, DestGo, DestIdle, Fits, Sends;
    if s.t.dpc.DIdle? {
      DestTakes(s, st, s');
      IdleOk(cfg, s, st, s');
    } else {
      DestGoOk(cfg, s.t, st.time);
      DestGoStays(cfg, s.t, st.time);
      StaysWired(cfg, s, DestGo(cfg, s.t, st.time), s');
    }
  }

  lemma QuitsOk(cfg: Config, s: State)
    requires TableInv(cfg, s) && s.t.tpc.TIdle?
    ensures TableInv(cfg, s.(t := s.t.(tpc := TExit)))
  {
  }

  lemma ClientKeeps(cfg: Config, s: State, st: ClientStep, s': State)
    requires TableInv(cfg, s) && ClientDo(cfg, s, st) == Some(s')
    ensures TableInv(cfg, s')
  {
    hide TableOk, RoutersWired, DestsWired, SessionsWired, Serials, LinksWired, Admitted, LinkIn, SessionDoes,
      SessionGo, TransportGo, RouterTake, RouterGives, Receive, Holding;
    match st
    case Connection(r) => AllocsOk(cfg, s.t, s'.t); NewSession(cfg, s, r);
    case Admit(n, time) =>
      Admits(cfg, s, n, time, s');
      SessionMoves(cfg, s, n, s'.ses[n]);
      if s'.t != s.t { EnteredOk(cfg, s.t, IdOf(n), s.ses[n].owner, time); }
    case Link(n) => LinkWired(cfg, s, n, s');
    case Unlink(n) => RouterMoves(cfg, s, s.ses[n].owner, s'.routers[s.ses[n].owner]);
    case BySession(n, x) =>
      SessionEmits(cfg, s, n, x, s');
      SessionStays(cfg, s.ses[n], s.ses[n].cancelled || s.shutdown, x);
      SessionMoves(cfg, s, n, s'.ses[n]);
    case ByTransport(n, x) => TransportStays(cfg, s.ses[n], x); SessionMoves(cfg, s, n, s'.ses[n]);
    case Demux(n) => DemuxWired(cfg, s, n, s');
    case ByRouter(n, x) => TakeLinks(s.routers[n], x, s.shutdown); RouterMoves(cfg, s, n, s'.routers[n]);
  }

  lemma NewSession(cfg: Config, s: State, r: Name)
    requires SessionsWired(cfg, s.ses, s.t.now) && Serials(s.ses, s.t.allocs) && r in cfg.clients
    ensures var s' := Connected(s, r); SessionsWired(cfg, s'.ses, s'.t.now) && Serials(s'.ses, s'.t.allocs)
  {
  }

  /** A session may change as long as it keeps its owner and its birthday. */
  lemma SessionMoves(cfg: Config, s: State, n: nat, S: Session)
    requires SessionsWired(cfg, s.ses, s.t.now) && Serials(s.ses, s.t.allocs) && n in s.ses && SameSession(s.ses[n], S)
    ensures SessionsWired(cfg, s.ses[n := S], s.t.now) && Serials(s.ses[n := S], s.t.allocs) && S.owner in cfg.clients
  {
    assert SessionWired(cfg, s.ses[n], s.t.now);
  }

  /** A router may change as long as its map stays in order. */
  lemma RouterMoves(cfg: Config, s: State, n: Name, R: Router)
    requires RoutersWired(cfg, s.routers) && LinksWired(s.routers) && n in s.routers
    requires forall id :: id in R.links ==> id in s.routers[n].links && R.links[id] == s.routers[n].links[id]
    ensures RoutersWired(cfg, s.routers[n := R]) && LinksWired(s.routers[n := R])
  {
    assert LinksOk(s.routers[n].links);
  }

  lemma LinkWired(cfg: Config, s: State, n: nat, s': State)
    requires Wired(cfg, s) && n in s.ses && LinkIn(s, n, s.ses[n]) == Some(s')
    ensures Wired(cfg, s') && s'.t == s.t
  {
    hide LinkIn, DestsWired, SessionsWired, Serials;
    Links(s, n, s');
    SessionMoves(cfg, s, n, s'.ses[n]);
    if s'.routers != s.routers {
      assert LinksOk(s.routers[s.ses[n].owner].links);
    }
  }

  lemma TakeLinks(R: Router, st: RouterStep, shutdown: bool)
    requires RouterTake(R, st, shutdown).Some?
    ensures RouterTake(R, st, shutdown).value.links == R.links
  {
  }

  lemma DemuxWired(cfg: Config, s: State, n: Name, s': State)
    requires Wired(cfg, s) && n in s.routers && RouterGives(cfg, s, n, s.routers[n]) == Some(s')
    ensures Wired(cfg, s') && s'.t == s.t
  {
    hide RouterGives, Receive, Holding;
    Gives(cfg, s, n, s');
    if s'.ses != s.ses {
      var id := Holding(s.routers[n].pc).value;
      ReceiveStays(cfg, s.ses[s.routers[n].links[id]], s.routers[n].pc);
    }
  }

  lemma DestKeeps(cfg: Config, s: State, st: DestStep, s': State)
    requires TableInv(cfg, s) && DestDo(cfg, s, st) == Some(s')
    ensures TableInv(cfg, s')
  {
    hide TableOk, RoutersWired, SessionsWired, UdpTake, UdpGo, Hears;
    match st
    case ByListener(d, c, h) => HearsOnly(cfg, s, c, h, s');
    case _ =>
  }

  lemma AllocsOk(cfg: Config, t: Table, t': Table)
    requires TableOk(cfg, t) && t' == t.(allocs := t'.allocs)
    ensures TableOk(cfg, t')
  {
  }
}
