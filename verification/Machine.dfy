/**
 The Spanreed hub as one concurrent machine: the three hub goroutines and the shutdown drain, the
 client routers with one session per client, and the UDP destinations.

 A step is what a goroutine does between two points where another one can interfere: one channel
 receive, one critical section of the client table, of a router's connection map or of a
 destination's registration table, or one send. A send is possible only when the channel has room.
 Where the source reads the clock and then enters a critical section, the step carries any time
 between the earliest moment of the read (`since`) and now.

 Each goroutine is a function of its own state that yields its next state and what it emits; the step
 functions at the end put the emissions on the channels. `None` means the step is not possible.
 */
module Machine {
  import opened Types
  import opened Channels
  import opened ClientTable
  import opened UdpRules

  // ---------------------------------------------------------------- configuration

  datatype Config = Config(
    clients: set<Name>,                       // the registered client handlers
    dests: seq<Name>,                         // the registered destination handlers, oldest first
    matches: (Name, string) -> bool,          // each destination's match predicate
    udp: map<Name, UdpConfig>,
    parse: Bytes -> Option<Auth>,             // the client's first packet
    max: nat,
    clientTimeout: nat,
    destTimeout: nat,
    authTimeout: nat,
    maxLength: nat,
    room: Capacities)

  /** How many messages each kind of channel buffers. */
  datatype Capacities = Capacities(
    clientIn: nat, destIn: nat,               // into the hub
    routerData: nat, destData: nat,           // data out of the hub
    control: nat,                             // opens, verdicts and closes out of the hub
    inbox: nat, outbox: nat,                  // one client's own channels
    datagrams: nat)                           // a destination's outgoing queue

  ghost predicate ValidConfig(cfg: Config) {
    && "" !in cfg.clients
    && "" !in cfg.dests
    && (forall d :: d in cfg.dests ==> d in cfg.udp)
    && (forall i, j :: 0 <= i < j < |cfg.dests| ==> cfg.dests[i] != cfg.dests[j])
    && cfg.max > 0
  }

  /** The first registered destination that claims `conn`. */
  function FirstMatch(dests: seq<Name>, matches: (Name, string) -> bool, conn: string): Option<Name> {
    if dests == [] then None
    else if matches(dests[0], conn) then Some(dests[0])
    else FirstMatch(dests[1..], matches, conn)
  }

  // ---------------------------------------------------------------- hub goroutines

  /** Where a kick is: it reads two names, sends two closes and removes the client, under separate locks. */
  datatype Kick =
    | LookClient(id: Id)
    | LookDest(id: Id, cn: Name)
    | TellClient(id: Id, cn: Name, dn: Name)
    | TellDest(id: Id, dn: Name)
    | Forget(id: Id)

  datatype ClientPc =
    | CIdle
    | CMsg(m: Env<Bytes>)
    | CSend(m: Env<Bytes>, dn: Name)
    | CStamp(id: Id, since: int)
    | COpen(o: Env<Auth>)
    | CAssign(o: Env<Auth>)
    | CForward(o: Env<Auth>, dn: Name)
    | CKick(k: Kick)
    | CExit

  datatype DestPc =
    | DIdle
    | DMsg(m: Env<Bytes>)
    | DSend(m: Env<Bytes>, cn: Name)
    | DStamp(id: Id, since: int)
    | DVerdict(v: Env<Verdict>)
    | DConnect(v: Env<Verdict>, cn: Name)
    | DTell(v: Env<Verdict>, cn: Name)
    | DKick(k: Kick)
    | DExit

  /** `auth` tells the two sweeps of one tick apart; `start` is when the tick began. */
  datatype TickPc =
    | TIdle
    | TList(start: int, auth: bool, since: int)
    | TScan(start: int, auth: bool, due: Deadlines, rest: seq<Id>, todo: seq<Id>)   // lists the table entry by entry
    | TSweep(start: int, auth: bool, todo: seq<Id>)
    | TKick(start: int, auth: bool, todo: seq<Id>, k: Kick)
    | TExit

  /** The drain holds the table's lock from start to end. */
  datatype DrainPc = ZWait | ZPick | ZTellClient(id: Id) | ZTellDest(id: Id) | ZDrop(id: Id) | ZDone

  /** The client table, the clock, and the hub goroutines that work on them. */
  datatype Table = Table(
    clients: Clients,
    allocs: nat,                 // how often the id counter was incremented
    now: int,
    cpc: ClientPc,
    dpc: DestPc,
    tpc: TickPc,
    zpc: DrainPc,
    // history
    routed: map<Id, Name>,     // the destination last assigned to an id
    inserted: map<Id, int>,      // when the last client of an id entered the table
    made: nat,                   // clients created
    dropped: nat,                // clients removed
    swept: int)                  // when the last complete tick began

  // ---------------------------------------------------------------- routers and sessions

  datatype OutPc = OutIdle | OutHeld(x: Bytes) | OutSignal | OutDone

  datatype InPc = InIdle | InHeld(x: Bytes) | InAsk | InDone

  datatype Phase =
    | Unborn
    | Allocated(since: int)        // has an id, not yet in the client table
    | Rejected                     // the table refused the client
    | Created                      // in the table, not yet in the router's map
    | LinkFailed
    | WaitAuth
    | Asking                       // giving up before the handshake: asks the hub for a close
    | Opening(auth: Auth)
    | WaitVerdict
    | Telling(verdict: Verdict)
    | Signalling
    | Stopped
    | Relaying(out: OutPc, inn: InPc)

  /** One client connection: its channels and the goroutines that serve it. */
  datatype Session = Session(
    owner: Name,
    phase: Phase,
    inbox: Chan<Bytes>,            // packets pushed by the transport
    packets: Chan<Packet>,         // packets for the transport
    outQ: Chan<Bytes>,             // hub data routed to this client
    verdictQ: Chan<Verdict>,
    closeReq: Chan<()>,            // the hub's closes routed to this client
    clientClose: Chan<()>,         // the transport's signal that the client left
    proxyClose: Chan<()>,          // the signal to the transport that the hub is done
    cancelled: bool)

  const UNBORN: Session :=
    Session("", Unborn, EmptyChan(), EmptyChan(), EmptyChan(), EmptyChan(), EmptyChan(), EmptyChan(),
            EmptyChan(), false)

  datatype RouterPc =
    | RIdle
    | RMsg(m: Env<Bytes>)
    | RVerdict(v: Env<Verdict>)
    | RClose(id: Id)
    | RExit

  /** A client handler: the hub's channels to it, its connection map, and its demultiplexer. */
  datatype Router = Router(
    msgs: Chan<Env<Bytes>>,
    verdicts: Chan<Env<Verdict>>,
    closes: Chan<Env<()>>,
    links: map<Id, nat>,
    pc: RouterPc)

  // ---------------------------------------------------------------- destinations

  datatype UdpPc =
    | UIdle
    | UOpen(o: Env<Auth>)
    | URefuse(id: Id)
    | UMsg(m: Env<Bytes>)
    | USend(dg: Env<Datagram>)
    | UClose(id: Id)
    | USendClose(id: Id, a: Addr)
    | UDelete(id: Id)
    | UExit

  /** A destination handler: the hub's channels to it, its registrations and its outgoing queue. */
  datatype Dest = Dest(
    opens: Chan<Env<Auth>>,
    msgs: Chan<Env<Bytes>>,
    closes: Chan<Env<()>>,
    reg: map<Id, Addr>,
    ever: map<Id, Addr>,           // history: the address an id was last registered with
    out: Chan<Env<Datagram>>,
    pc: UdpPc)

  datatype State = State(
    t: Table,
    cMsgs: Chan<Env<Bytes>>,
    cOpens: Chan<Env<Auth>>,
    cCloses: Chan<Env<()>>,
    dMsgs: Chan<Env<Bytes>>,
    dVerdicts: Chan<Env<Verdict>>,
    dCloses: Chan<Env<()>>,
    ses: map<nat, Session>,
    routers: map<Name, Router>,
    dests: map<Name, Dest>,
    accepts: seq<Env<Bytes>>,      // history: accepting verdict datagrams heard for a registered client
    shutdown: bool)

  const NEW_ROUTER: Router := Router(EmptyChan(), EmptyChan(), EmptyChan(), map[], RIdle)

  const NEW_DEST: Dest := Dest(EmptyChan(), EmptyChan(), EmptyChan(), map[], map[], EmptyChan(), UIdle)

  ghost predicate Init(cfg: Config, s: State) {
    && s.t == Table(map[], 0, 0, CIdle, DIdle, TIdle, ZWait, map[], map[], 0, 0, 0)
    && s.cMsgs == EmptyChan() && s.cOpens == EmptyChan() && s.cCloses == EmptyChan()
    && s.dMsgs == EmptyChan() && s.dVerdicts == EmptyChan() && s.dCloses == EmptyChan()
    && s.ses == map[]
    && s.routers == (map n | n in cfg.clients :: NEW_ROUTER)
    && s.dests == (map d | d in cfg.dests :: NEW_DEST)
    && s.accepts == []
    && !s.shutdown
  }

  // ---------------------------------------------------------------- hub output

  /** What a hub goroutine sends in one step, and to which handler. */
  datatype Out =
    | Nothing
    | DataUp(dest: Name, up: Env<Bytes>)
    | OpenUp(dest: Name, open: Env<Auth>)
    | CloseUp(dest: Name, id: Id)
    | DataDown(router: Name, down: Env<Bytes>)
    | VerdictDown(router: Name, verdict: Env<Verdict>)
    | CloseDown(router: Name, id: Id)

  predicate Fits(cfg: Config, s: State, o: Out) {
    match o
    case Nothing => true
    case DataUp(d, _) => d in s.dests && s.dests[d].msgs.Room(cfg.room.destData)
    case OpenUp(d, _) => d in s.dests && s.dests[d].opens.Room(cfg.room.control)
    case CloseUp(d, _) => d in s.dests && s.dests[d].closes.Room(cfg.room.control)
    case DataDown(r, _) => r in s.routers && s.routers[r].msgs.Room(cfg.room.routerData)
    case VerdictDown(r, _) => r in s.routers && s.routers[r].verdicts.Room(cfg.room.control)
    case CloseDown(r, _) => r in s.routers && s.routers[r].closes.Room(cfg.room.control)
  }

  function ToDest(D: Dest, o: Out): Dest {
    match o
    case DataUp(_, m) => D.(msgs := Post(D.msgs, m))
    case OpenUp(_, x) => D.(opens := Post(D.opens, x))
    case CloseUp(_, id) => D.(closes := Post(D.closes, Env(id, ())))
    case _ => D
  }

  function ToRouter(R: Router, o: Out): Router {
    match o
    case DataDown(_, m) => R.(msgs := Post(R.msgs, m))
    case VerdictDown(_, v) => R.(verdicts := Post(R.verdicts, v))
    case CloseDown(_, id) => R.(closes := Post(R.closes, Env(id, ())))
    case _ => R
  }

  function Sends(s: State, t: Table, o: Out): State {
    if o.Nothing? then s.(t := t)
    else if o.DataUp? || o.OpenUp? || o.CloseUp? then
      if o.dest in s.dests then s.(t := t, dests := s.dests[o.dest := ToDest(s.dests[o.dest], o)]) else s.(t := t)
    else
      if o.router in s.routers
      then s.(t := t, routers := s.routers[o.router := ToRouter(s.routers[o.router], o)])
      else s.(t := t)
  }

  // ---------------------------------------------------------------- kicking

  /** One step of a kick: the table after it, where the kick goes on (`None`: it is over), and its output. */
  datatype Kicked = Kicked(t: Table, k: Option<Kick>, out: Out)

  function KickStep(cfg: Config, t: Table, k: Kick): Kicked {
    match k
    case LookClient(id) => Kicked(t, Some(LookDest(id, ClientName(t.clients, id))), Nothing)
    case LookDest(id, cn) => Kicked(t, Some(TellClient(id, cn, DestName(t.clients, id))), Nothing)
    case TellClient(id, cn, dn) => Kicked(t, Some(TellDest(id, dn)), CloseForClient(cfg, id, cn))
    case TellDest(id, dn) => Kicked(t, Some(Forget(id)), CloseForDest(cfg, id, dn))
    case Forget(id) => Kicked(Drop(t, id), None, Nothing)
  }

  function CloseForClient(cfg: Config, id: Id, cn: Name): Out {
    if cn == "" || cn !in cfg.clients then Nothing else CloseDown(cn, id)
  }

  function CloseForDest(cfg: Config, id: Id, dn: Name): Out {
    if dn == "" || dn !in cfg.dests then Nothing else CloseUp(dn, id)
  }

  function Drop(t: Table, id: Id): Table {
    t.(clients := Remove(t.clients, id), dropped := t.dropped + if id in t.clients then 1 else 0)
  }

  // ---------------------------------------------------------------- client-side hub goroutine

  /** A hub goroutine at work: the clock reading is used only where it stamps a client. */
  function ClientGo(cfg: Config, t: Table, time: int): Option<(Table, Out)> {
    match t.cpc
    case CMsg(m) =>
      var dn := DestName(t.clients, m.id);
      Some((t.(cpc := if m.id in t.clients && dn in cfg.dests then CSend(m, dn) else CIdle), Nothing))
    case CSend(m, dn) => Some((t.(cpc := CStamp(m.id, t.now)), DataUp(dn, m)))
    case CStamp(id, since) =>
      if since <= time <= t.now
      then Some((t.(clients := StampClient(t.clients, id, time), cpc := CIdle), Nothing))
      else None
    case COpen(o) =>
      Some((t.(cpc := if o.id in t.clients && DestName(t.clients, o.id) == "" then CAssign(o) else CIdle), Nothing))
    case CAssign(o) => Some((Assign(cfg, t, o), Nothing))
    case CForward(o, dn) => Some((t.(cpc := CIdle), OpenUp(dn, o)))
    case CKick(k) =>
      var r := KickStep(cfg, t, k);
      Some((r.t.(cpc := if r.k.Some? then CKick(r.k.value) else CIdle), r.out))
    case _ => None
  }

  /** Choosing a destination: the first match is assigned; no match or a vanished client leads to a kick. */
  function Assign(cfg: Config, t: Table, o: Env<Auth>): Table {
    match FirstMatch(cfg.dests, cfg.matches, o.body.conn)
    case None => t.(cpc := CKick(LookClient(o.id)))
    case Some(dn) =>
      if o.id in t.clients
      then t.(clients := SetDest(t.clients, o.id, dn), routed := t.routed[o.id := dn], cpc := CForward(o, dn))
      else t.(cpc := CKick(LookClient(o.id)))
  }

  // ---------------------------------------------------------------- destination-side hub goroutine

  function DestGo(cfg: Config, t: Table, time: int): Option<(Table, Out)> {
    match t.dpc
    case DMsg(m) =>
      var cn := ClientName(t.clients, m.id);
      Some((t.(dpc := if m.id in t.clients && cn in cfg.clients then DSend(m, cn) else DIdle), Nothing))
    case DSend(m, cn) => Some((t.(dpc := DStamp(m.id, t.now)), DataDown(cn, m)))
    case DStamp(id, since) =>
      if since <= time <= t.now
      then Some((t.(clients := StampDest(t.clients, id, time), dpc := DIdle), Nothing))
      else None
    case DVerdict(v) =>
      var cn := ClientName(t.clients, v.id);
      Some((t.(dpc := if v.id in t.clients && cn in cfg.clients then DConnect(v, cn) else DIdle), Nothing))
    case DConnect(v, cn) => Some((t.(clients := Connect(t.clients, v.id), dpc := DTell(v, cn)), Nothing))
    case DTell(v, cn) => Some((t.(dpc := DIdle), VerdictDown(cn, v)))
    case DKick(k) =>
      var r := KickStep(cfg, t, k);
      Some((r.t.(dpc := if r.k.Some? then DKick(r.k.value) else DIdle), r.out))
    case _ => None
  }

  // ---------------------------------------------------------------- timeout goroutine

  /** `ids` is the order in which the listing happens to visit the clients. */
  datatype TickStep = Begin | List(t1: int, t2: int, t3: int, ids: seq<Id>) | Advance

  function TickGo(cfg: Config, t: Table, st: TickStep): Option<(Table, Out)> {
    match t.tpc
    case TIdle => if st.Begin? then Some((t.(tpc := TList(t.now, false, t.now)), Nothing)) else None
    case TList(start, auth, since) =>
      if st.List? && since <= st.t1 <= st.t2 <= st.t3 <= t.now && ListsAll(st.ids, t.clients)
      then Some((t.(tpc := TScan(start, auth, DueAt(cfg, auth, st), st.ids, [])), Nothing))
      else None
    case TScan(start, auth, due, rest, todo) =>
      if st.Advance? then Some((ScanOn(t, start, auth, due, rest, todo), Nothing)) else None
    case TSweep(start, auth, todo) => if st.Advance? then Some((SweepOn(t, start, auth, todo), Nothing)) else None
    case TKick(start, auth, todo, k) =>
      if !st.Advance? then None else
        var r := KickStep(cfg, t, k);
        Some((r.t.(tpc := if r.k.Some? then TKick(start, auth, todo, r.k.value) else TSweep(start, auth, todo)), r.out))
    case TExit => None
  }

  function SweepOn(t: Table, start: int, auth: bool, todo: seq<Id>): Table {
    if todo != [] then t.(tpc := TKick(start, auth, todo[1..], LookClient(todo[0])))
    else if !auth then t.(tpc := TList(start, true, t.now))
    else t.(tpc := TIdle, swept := start)
  }

  /** The deadlines of a listing; the auth sweep has only one, on the creation time. */
  function DueAt(cfg: Config, auth: bool, st: TickStep): Deadlines
    requires st.List?
  {
    if auth then Deadlines(0, 0, st.t1 - cfg.authTimeout)
    else Deadlines(st.t1 - cfg.clientTimeout, st.t2 - cfg.destTimeout, st.t3 - cfg.maxLength)
  }

  predicate Due(e: Meta, auth: bool, due: Deadlines) {
    if auth then Unanswered(e, due.connection) else Expired(e, due)
  }

  /** The listing reads one entry at a time; stamps, verdicts and routing may move others meanwhile. */
  function ScanOn(t: Table, start: int, auth: bool, due: Deadlines, rest: seq<Id>, todo: seq<Id>): Table {
    if rest == [] then t.(tpc := TSweep(start, auth, todo))
    else
      var hit := rest[0] in t.clients && Due(t.clients[rest[0]], auth, due);
      t.(tpc := TScan(start, auth, due, rest[1..], if hit then todo + [rest[0]] else todo))
  }

  // ---------------------------------------------------------------- shutdown drain

  /** `pick` is the client the map iteration happens to visit next. */
  function DrainGo(cfg: Config, t: Table, pick: Id): Option<(Table, Out)> {
    match t.zpc
    case ZWait => if t.cpc.CExit? && t.dpc.DExit? && t.tpc.TExit? then Some((t.(zpc := ZPick), Nothing)) else None
    case ZPick =>
      if t.clients == map[] then Some((t.(zpc := ZDone), Nothing))
      else if pick in t.clients then Some((t.(zpc := ZTellClient(pick)), Nothing))
      else None
    case ZTellClient(id) => Some((t.(zpc := ZTellDest(id)), CloseForClient(cfg, id, ClientName(t.clients, id))))
    case ZTellDest(id) => Some((t.(zpc := ZDrop(id)), CloseForDest(cfg, id, DestName(t.clients, id))))
    case ZDrop(id) => Some((Drop(t, id).(zpc := ZPick), Nothing))
    case ZDone => None
  }

  predicate Draining(t: Table) {
    !t.zpc.ZWait? && !t.zpc.ZDone?
  }

  // ---------------------------------------------------------------- sessions

  datatype SessionStep =
    | Proceed                      // take the next input the phase waits for, or make the pending send
    | GiveUp                       // the connection's context is done
    | OnClientClose                // the transport signalled a close
    | OnCloseReq                   // the hub's close arrived
    | OutTake | OutSend | OutClose | OutTell
    | InTake | InSend | InCancel | InClose | InTell | InIgnore

  /** What a session sends to the hub in one step. */
  datatype Emit = Quiet | EmitClose | EmitOpen(auth: Auth) | EmitData(data: Bytes)

  /** `done` says that the connection's context is done. */
  function SessionGo(cfg: Config, S: Session, done: bool, st: SessionStep): Option<(Session, Emit)> {
    if S.phase.Relaying? then RelayGo(cfg, S, done, S.phase.out, S.phase.inn, st)
    else if st.Proceed? then HandshakeGo(cfg, S)
    else BreakOff(S, done, st)
  }

  function HandshakeGo(cfg: Config, S: Session): Option<(Session, Emit)> {
    match S.phase
    case WaitAuth =>
      if S.inbox.queue == [] then None else
        var p := cfg.parse(S.inbox.queue[0]);
        Some((S.(inbox := S.inbox.Take(), phase := if p.Some? then Opening(p.value) else Stopped), Quiet))
    case Asking => Some((S.(phase := Stopped), EmitClose))
    case Opening(a) => Some((S.(phase := WaitVerdict), EmitOpen(a)))
    case WaitVerdict =>
      if S.verdictQ.queue == [] then None
      else Some((S.(verdictQ := S.verdictQ.Take(), phase := Telling(S.verdictQ.queue[0])), Quiet))
    case Telling(v) =>
      if !S.packets.Room(cfg.room.outbox) then None
      else Some((S.(packets := S.packets.Put(Told(v)),
                    phase := if v.accepted then Relaying(OutIdle, InIdle) else Signalling), Quiet))
    case Signalling =>
      if !S.proxyClose.Room(1) then None
      else Some((S.(phase := Stopped, proxyClose := S.proxyClose.Put(())), Quiet))
    case _ => None
  }

  /** The handshake ends early: before the auth packet the hub is asked for a close, after it the client is refused. */
  function BreakOff(S: Session, done: bool, st: SessionStep): Option<(Session, Emit)> {
    var early := S.phase.WaitAuth?;
    if !early && !S.phase.WaitVerdict? then None else
      match st
      case GiveUp =>
        if !done then None
        else Some((S.(phase := if early then Asking else Telling(Verdict(false, []))), Quiet))
      case OnClientClose =>
        if S.clientClose.queue == [] then None
        else Some((S.(phase := if early then Asking else Signalling, clientClose := S.clientClose.Take()), Quiet))
      case OnCloseReq =>
        if S.closeReq.queue == [] then None
        else Some((S.(phase := if early then Asking else Telling(Verdict(false, [])),
                      closeReq := S.closeReq.Take()), Quiet))
      case _ => None
  }

  /** The two relay goroutines. They share the session's close-request channel. */
  function RelayGo(cfg: Config, S: Session, done: bool, out: OutPc, inn: InPc, st: SessionStep): Option<(Session,
                   Emit)> {
    if st.OutTake? || st.OutSend? || st.OutClose? || st.OutTell? then OutGo(cfg, S, out, inn, st)
    else InGo(S, done, out, inn, st)
  }

  function OutGo(cfg: Config, S: Session, out: OutPc, inn: InPc, st: SessionStep): Option<(Session, Emit)> {
    match st
    case OutTake =>
      if out.OutIdle? && S.outQ.queue != []
      then Some((S.(outQ := S.outQ.Take(), phase := Relaying(OutHeld(S.outQ.queue[0]), inn)), Quiet)) else None
    case OutSend =>
      if out.OutHeld? && S.packets.Room(cfg.room.outbox)
      then Some((S.(packets := S.packets.Put(Data(out.x)), phase := Relaying(OutIdle, inn)), Quiet)) else None
    case OutClose =>
      if out.OutIdle? && S.closeReq.queue != []
      then Some((S.(closeReq := S.closeReq.Take(), phase := Relaying(OutSignal, inn)), Quiet)) else None
    case OutTell =>
      if out.OutSignal? && S.proxyClose.Room(1)
      then Some((S.(proxyClose := S.proxyClose.Put(()), phase := Relaying(OutDone, inn)), Quiet)) else None
    case _ => None
  }

  function InGo(S: Session, done: bool, out: OutPc, inn: InPc, st: SessionStep): Option<(Session, Emit)> {
    match st
    case InTake =>
      if inn.InIdle? && S.inbox.queue != []
      then Some((S.(inbox := S.inbox.Take(), phase := Relaying(out, InHeld(S.inbox.queue[0]))), Quiet)) else None
    case InSend => if inn.InHeld? then Some((S.(phase := Relaying(out, InIdle)), EmitData(inn.x))) else None
    case InCancel => if inn.InIdle? && done then Some((S.(phase := Relaying(out, InAsk)), Quiet)) else None
    case InClose =>
      if inn.InIdle? && S.closeReq.queue != []
      then Some((S.(closeReq := S.closeReq.Take(), phase := Relaying(out, InAsk)), Quiet)) else None
    case InTell => if inn.InAsk? then Some((S.(phase := Relaying(out, InDone)), EmitClose)) else None
    case InIgnore =>
      if inn.InIdle? && S.clientClose.queue != []
      then Some((S.(clientClose := S.clientClose.Take()), Quiet)) else None
    case _ => None
  }

  /** Whether the connection was handed to its transport. */
  predicate Linked(p: Phase) {
    HasEntry(p) && !p.Created? && !p.LinkFailed?
  }

  /** Whether the client was entered into the client table. */
  predicate HasEntry(p: Phase) {
    !p.Unborn? && !p.Allocated? && !p.Rejected?
  }

  // ---------------------------------------------------------------- transports

  datatype TransportStep =
    | Push(packet: Bytes)          // a packet arrived from the client
    | Fetch                        // a packet goes on to the client
    | HangUp                       // the client left
    | Notice                       // the hub's close signal is read
    | Cancel

  function TransportGo(cfg: Config, S: Session, st: TransportStep): Option<Session> {
    match st
    case Push(p) => if S.inbox.Room(cfg.room.inbox) then Some(S.(inbox := S.inbox.Put(p))) else None
    case Fetch => if S.packets.queue != [] then Some(S.(packets := S.packets.Take())) else None
    case HangUp => if S.clientClose.Room(1) then Some(S.(clientClose := S.clientClose.Put(()))) else None
    case Notice => if S.proxyClose.queue != [] then Some(S.(proxyClose := S.proxyClose.Take())) else None
    case Cancel => Some(S.(cancelled := true))
  }

  // ---------------------------------------------------------------- routers

  datatype RouterStep = TakeMsg | TakeVerdict | TakeClose | Leave

  function RouterTake(R: Router, st: RouterStep, shutdown: bool): Option<Router> {
    if !R.pc.RIdle? then None else
      match st
      case TakeMsg => if R.msgs.queue == [] then None else Some(R.(msgs := Pull(R.msgs), pc := RMsg(R.msgs.queue[0])))
      case TakeVerdict =>
        if R.verdicts.queue == [] then None
        else Some(R.(verdicts := Pull(R.verdicts), pc := RVerdict(R.verdicts.queue[0])))
      case TakeClose =>
        if R.closes.queue == [] then None
        else Some(R.(closes := Pull(R.closes), pc := RClose(R.closes.queue[0].id)))
      case Leave => if shutdown then Some(R.(pc := RExit)) else None
  }

  /** The client whose message the demultiplexer holds. */
  function Holding(pc: RouterPc): Option<Id> {
    match pc
    case RMsg(m) => Some(m.id)
    case RVerdict(v) => Some(v.id)
    case RClose(id) => Some(id)
    case _ => None
  }

  /** The held message put on the client's own channel. */
  function Receive(cfg: Config, S: Session, pc: RouterPc): Option<Session> {
    match pc
    case RMsg(m) => if S.outQ.Room(cfg.room.outbox) then Some(S.(outQ := S.outQ.Put(m.body))) else None
    case RVerdict(v) => if S.verdictQ.Room(1) then Some(S.(verdictQ := S.verdictQ.Put(v.body))) else None
    case RClose(_) => if S.closeReq.Room(1) then Some(S.(closeReq := S.closeReq.Put(()))) else None
    case _ => None
  }

  // ---------------------------------------------------------------- destinations

  datatype UdpStep = TakeOpen | TakeUp | TakeEnd | Act | Depart

  function UdpTake(D: Dest, st: UdpStep, shutdown: bool): Option<Dest> {
    match st
    case TakeOpen =>
      if D.opens.queue == [] then None else Some(D.(opens := Pull(D.opens), pc := UOpen(D.opens.queue[0])))
    case TakeUp => if D.msgs.queue == [] then None else Some(D.(msgs := Pull(D.msgs), pc := UMsg(D.msgs.queue[0])))
    case TakeEnd =>
      if D.closes.queue == [] then None else Some(D.(closes := Pull(D.closes), pc := UClose(D.closes.queue[0].id)))
    case Depart => if shutdown then Some(D.(pc := UExit)) else None
    case Act => None
  }

  /** The goroutine that serves the hub's commands; a refusal is sent from `URefuse` by `UdpRefuse`. */
  function UdpGo(cfg: Config, u: UdpConfig, D: Dest): Option<Dest> {
    match D.pc
    case UOpen(o) => Some(Register(u, D, o))
    case UMsg(m) =>
      Some(D.(pc := if m.id in D.reg then USend(Env(m.id, Datagram(D.reg[m.id], ClientMessage(m.body)))) else UIdle))
    case USend(dg) =>
      if D.out.Room(cfg.room.datagrams) then Some(D.(out := Post(D.out, dg), pc := UIdle)) else None
    case UClose(id) => Some(D.(pc := if id in D.reg then USendClose(id, D.reg[id]) else UIdle))
    case USendClose(id, a) =>
      if D.out.Room(cfg.room.datagrams)
      then Some(D.(out := Post(D.out, Env(id, Datagram(a, CloseConnection))), pc := UDelete(id))) else None
    case UDelete(id) => Some(D.(reg := D.reg - {id}, pc := UIdle))
    case _ => None
  }

  function Register(u: UdpConfig, D: Dest, o: Env<Auth>): Dest {
    match Target(u, o.body.conn)
    case None => D.(pc := URefuse(o.id))
    case Some(a) =>
      D.(reg := D.reg[o.id := a], ever := D.ever[o.id := a],
         pc := USend(Env(o.id, Datagram(a, ConnectionRequest(o.body.app)))))
  }

  /** A datagram from the network, as parsed by the destination's listener. */
  datatype Heard = HVerdict(accepted: bool, app: Bytes) | HData(data: Bytes) | HClose

  // ---------------------------------------------------------------- steps

  /** The choices of a hub loop: which channel an idle loop reads, or going on (with a clock reading). */
  datatype LoopStep = FromMsgs | FromOpens | FromCloses | Quit | Go(time: int)

  datatype HubStep =
    | ByClientLoop(c: LoopStep)
    | ByDestLoop(d: LoopStep)
    | ByTicker(t: TickStep)
    | ByDrain(pick: Id)
    | Quits                                   // the idle timeout goroutine ends at shutdown

  datatype ClientStep =
    | Connection(router: Name)                // a transport takes the next client id
    | Admit(n: nat, time: int)                // the new client enters the client table
    | Link(n: nat)                            // and its router's map
    | Unlink(n: nat)
    | BySession(n: nat, s: SessionStep)
    | ByTransport(n: nat, x: TransportStep)
    | ByRouter(router: Name, r: RouterStep)
    | Demux(router: Name)

  datatype DestStep =
    | ByUdp(dest: Name, u: UdpStep)
    | UdpRefuse(dest: Name)
    | ByListener(dest: Name, id: Id, h: Heard)
    | Transmit(dest: Name)                    // the next outgoing datagram goes onto the wire
    | Wipe(dest: Name)                        // a destination forgets every client at shutdown

  datatype Step =
    | AtHub(hub: HubStep)
    | AtClient(client: ClientStep)
    | AtDest(dest: DestStep)
    | Wait(duration: nat)
    | Shutdown

  function Do(cfg: Config, s: State, st: Step): Option<State> {
    match st
    case AtHub(h) => HubDo(cfg, s, h)
    case AtClient(c) => ClientDo(cfg, s, c)
    case AtDest(d) => DestDo(cfg, s, d)
    case Wait(duration) => Some(s.(t := s.t.(now := s.t.now + duration)))
    case Shutdown => Some(s.(shutdown := true))
  }

  function HubDo(cfg: Config, s: State, st: HubStep): Option<State> {
    match st
    case ByClientLoop(c) =>
      if s.t.cpc.CIdle? then ClientIdle(s, c) else if c.Go? then HubGo(cfg, s, ClientGo(cfg, s.t, c.time)) else None
    case ByDestLoop(d) =>
      if s.t.dpc.DIdle? then DestIdle(s, d) else if d.Go? then HubGo(cfg, s, DestGo(cfg, s.t, d.time)) else None
    case ByTicker(t) => HubGo(cfg, s, TickGo(cfg, s.t, t))
    case ByDrain(pick) => HubGo(cfg, s, DrainGo(cfg, s.t, pick))
    case Quits => if s.t.tpc.TIdle? && s.shutdown then Some(s.(t := s.t.(tpc := TExit))) else None
  }

  function ClientDo(cfg: Config, s: State, st: ClientStep): Option<State> {
    match st
    case Connection(r) => if r in cfg.clients then Some(Connected(s, r)) else None
    case Admit(n, time) => if n in s.ses then Admitted(cfg, s, n, s.ses[n], time) else None
    case Link(n) => if n in s.ses then LinkIn(s, n, s.ses[n]) else None
    case Unlink(n) => if n in s.ses && Linked(s.ses[n].phase) then LinkOut(s, n, s.ses[n].owner) else None
    case BySession(n, x) => if n in s.ses then SessionDoes(cfg, s, n, x) else None
    case ByTransport(n, x) => if n in s.ses && Linked(s.ses[n].phase) then TransportDoes(cfg, s, n, x) else None
    case ByRouter(n, r) => if n in s.routers then RouterDoes(s, n, r) else None
    case Demux(n) => if n in s.routers then RouterGives(cfg, s, n, s.routers[n]) else None
  }

  function DestDo(cfg: Config, s: State, st: DestStep): Option<State> {
    match st
    case ByUdp(d, u) => if d in s.dests && d in cfg.udp then UdpDoes(cfg, s, d, u) else None
    case UdpRefuse(d) => if d in s.dests then Refuses(cfg, s, d, s.dests[d]) else None
    case ByListener(d, c, h) => if d in s.dests && c in s.dests[d].reg then Hears(cfg, s, c, h) else None
    case Transmit(d) =>
      if d in s.dests && s.dests[d].out.queue != []
      then Some(s.(dests := s.dests[d := s.dests[d].(out := Pull(s.dests[d].out))])) else None
    case Wipe(d) =>
      if d in s.dests && s.shutdown then Some(s.(dests := s.dests[d := s.dests[d].(reg := map[])])) else None
  }

  function HubGo(cfg: Config, s: State, r: Option<(Table, Out)>): Option<State> {
    if r.Some? && Fits(cfg, s, r.value.1) then Some(Sends(s, r.value.0, r.value.1)) else None
  }

  function ClientIdle(s: State, st: LoopStep): Option<State> {
    match st
    case FromMsgs =>
      if s.cMsgs.queue == [] then None
      else Some(s.(cMsgs := Pull(s.cMsgs), t := s.t.(cpc := CMsg(s.cMsgs.queue[0]))))
    case FromOpens =>
      if s.cOpens.queue == [] then None
      else Some(s.(cOpens := Pull(s.cOpens), t := s.t.(cpc := COpen(s.cOpens.queue[0]))))
    case FromCloses =>
      if s.cCloses.queue == [] then None
      else Some(s.(cCloses := Pull(s.cCloses), t := s.t.(cpc := CKick(LookClient(s.cCloses.queue[0].id)))))
    case Quit => if s.shutdown then Some(s.(t := s.t.(cpc := CExit))) else None
    case Go(_) => None
  }

  /** Here `FromOpens` reads the verdicts, the destination's answers to opens. */
  function DestIdle(s: State, st: LoopStep): Option<State> {
    match st
    case FromMsgs =>
      if s.dMsgs.queue == [] then None
      else Some(s.(dMsgs := Pull(s.dMsgs), t := s.t.(dpc := DMsg(s.dMsgs.queue[0]))))
    case FromOpens =>
      if s.dVerdicts.queue == [] then None
      else Some(s.(dVerdicts := Pull(s.dVerdicts), t := s.t.(dpc := DVerdict(s.dVerdicts.queue[0]))))
    case FromCloses =>
      if s.dCloses.queue == [] then None
      else Some(s.(dCloses := Pull(s.dCloses), t := s.t.(dpc := DKick(LookClient(s.dCloses.queue[0].id)))))
    case Quit => if s.shutdown then Some(s.(t := s.t.(dpc := DExit))) else None
    case Go(_) => None
  }

  function Connected(s: State, r: Name): State {
    s.(ses := s.ses[s.t.allocs + 1 := UNBORN.(owner := r, phase := Allocated(s.t.now))],
       t := s.t.(allocs := s.t.allocs + 1))
  }

  function Admitted(cfg: Config, s: State, n: nat, S: Session, time: int): Option<State> {
    var c := IdOf(n);
    if !S.phase.Allocated? || Draining(s.t) || !(S.phase.since <= time <= s.t.now) then None
    else if CanCreate(s.t.clients, cfg.max, c) then
      Some(s.(ses := s.ses[n := S.(phase := Created)], t := Entered(s.t, c, S.owner, time)))
    else Some(s.(ses := s.ses[n := S.(phase := Rejected)]))
  }

  function Entered(t: Table, c: Id, owner: Name, time: int): Table {
    t.(clients := Create(t.clients, c, owner, time), inserted := t.inserted[c := t.now], made := t.made + 1)
  }

  function LinkIn(s: State, n: nat, S: Session): Option<State> {
    if !S.phase.Created? || S.owner !in s.routers then None
    else
      var R := s.routers[S.owner];
      if IdOf(n) in R.links then Some(s.(ses := s.ses[n := S.(phase := LinkFailed)]))
      else Some(s.(ses := s.ses[n := S.(phase := WaitAuth)],
                   routers := s.routers[S.owner := R.(links := R.links[IdOf(n) := n])]))
  }

  function LinkOut(s: State, n: nat, owner: Name): Option<State> {
    if owner !in s.routers then None
    else Some(s.(routers := s.routers[owner := s.routers[owner].(links := s.routers[owner].links - {IdOf(n)})]))
  }

  function SessionDoes(cfg: Config, s: State, n: nat, st: SessionStep): Option<State>
    requires n in s.ses
  {
    var r := SessionGo(cfg, s.ses[n], s.ses[n].cancelled || s.shutdown, st);
    if r.Some? then Emits(cfg, s, n, r.value.0, r.value.1) else None
  }

  function Emits(cfg: Config, s: State, n: nat, S: Session, e: Emit): Option<State> {
    var c := IdOf(n);
    match e
    case Quiet => Some(s.(ses := s.ses[n := S]))
    case EmitClose =>
      if s.cCloses.Room(cfg.room.clientIn)
      then Some(s.(ses := s.ses[n := S], cCloses := Post(s.cCloses, Env(c, ())))) else None
    case EmitOpen(a) =>
      if s.cOpens.Room(cfg.room.clientIn)
      then Some(s.(ses := s.ses[n := S], cOpens := Post(s.cOpens, Env(c, a)))) else None
    case EmitData(x) =>
      if s.cMsgs.Room(cfg.room.clientIn)
      then Some(s.(ses := s.ses[n := S], cMsgs := Post(s.cMsgs, Env(c, x)))) else None
  }

  function TransportDoes(cfg: Config, s: State, n: nat, st: TransportStep): Option<State>
    requires n in s.ses
  {
    var r := TransportGo(cfg, s.ses[n], st);
    if r.Some? then Some(s.(ses := s.ses[n := r.value])) else None
  }

  function RouterDoes(s: State, n: Name, st: RouterStep): Option<State>
    requires n in s.routers
  {
    var r := RouterTake(s.routers[n], st, s.shutdown);
    if r.Some? then Some(s.(routers := s.routers[n := r.value])) else None
  }

  /** Hand the message held by the demultiplexer to the client's own channel, or drop it. */
  function RouterGives(cfg: Config, s: State, n: Name, R: Router): Option<State> {
    var held := Holding(R.pc);
    var routers := s.routers[n := R.(pc := RIdle)];
    if held.None? then None
    else if held.value !in R.links || R.links[held.value] !in s.ses then Some(s.(routers := routers))
    else
      var r := Receive(cfg, s.ses[R.links[held.value]], R.pc);
      if r.Some? then Some(s.(routers := routers, ses := s.ses[R.links[held.value] := r.value])) else None
  }

  function UdpDoes(cfg: Config, s: State, d: Name, st: UdpStep): Option<State>
    requires d in s.dests && d in cfg.udp
  {
    var r := if s.dests[d].pc.UIdle? then UdpTake(s.dests[d], st, s.shutdown)
             else if st.Act? then UdpGo(cfg, cfg.udp[d], s.dests[d]) else None;
    if r.Some? then Some(s.(dests := s.dests[d := r.value])) else None
  }

  function Refuses(cfg: Config, s: State, d: Name, D: Dest): Option<State> {
    if D.pc.URefuse? && s.dVerdicts.Room(cfg.room.destIn)
    then Some(s.(dests := s.dests[d := D.(pc := UIdle)],
                 dVerdicts := Post(s.dVerdicts, Env(D.pc.id, Verdict(false, [])))))
    else None
  }

  /** Datagrams that name an unregistered client are ignored; the check and the send share one lock. */
  function Hears(cfg: Config, s: State, c: Id, h: Heard): Option<State> {
    match h
    case HVerdict(accepted, app) =>
      if !s.dVerdicts.Room(cfg.room.destIn) then None
      else Some(s.(dVerdicts := Post(s.dVerdicts, Env(c, Verdict(accepted, app))),
                   accepts := if accepted then s.accepts + [Env(c, app)] else s.accepts))
    case HData(data) =>
      if !s.dMsgs.Room(cfg.room.destIn) then None else Some(s.(dMsgs := Post(s.dMsgs, Env(c, data))))
    case HClose =>
      if !s.dCloses.Room(cfg.room.destIn) then None else Some(s.(dCloses := Post(s.dCloses, Env(c, ()))))
  }

  // ---------------------------------------------------------------- runs

  /** A run: the states visited from an initial one, and the step taken out of each. */
  datatype Run = Run(states: seq<State>, steps: seq<Step>)

  ghost predicate IsRun(cfg: Config, r: Run) {
    && |r.states| == |r.steps| + 1
    && Init(cfg, r.states[0])
    && forall i :: 0 <= i < |r.steps| ==> Do(cfg, r.states[i], r.steps[i]) == Some(r.states[i + 1])
  }
}
