/**
 What kicking sends. A kick reads two names, sends two closes and removes the client under separate
 locks, and any hub goroutine may kick any client at any time. In every run a client that has left the
 table was sent a close. `Accounts` counts how many.
 */
module Kicks {
  import opened Types
  import opened ClientTable
  import opened Machine
  import opened TableSafety
  import opened ClientInvariant

  /** The kick a goroutine is carrying out. */
  function ClientKick(p: ClientPc): Option<Kick> {
    if p.CKick? then Some(p.k) else None
  }

  function DestKick(p: DestPc): Option<Kick> {
    if p.DKick? then Some(p.k) else None
  }

  function TickKick(p: TickPc): Option<Kick> {
    if p.TKick? then Some(p.k) else None
  }

  /** What the proofs need to know about a client: it is admitted, who owns it, where it was routed. */
  ghost predicate Known(cfg: Config, t: Table, c: Id, owner: Name, present: bool) {
    && "" !in cfg.clients && "" !in cfg.dests
    && (present ==> owner in cfg.clients)
    && (c in t.clients ==> present && t.clients[c].client == owner && t.clients[c].dest == RouteName(t, c))
    && (c in t.routed ==> t.routed[c] in cfg.dests)
    && ((t.cpc.COpen? || t.cpc.CAssign?) && t.cpc.o.id == c ==> present)
    && (t.cpc.CAssign? && t.cpc.o.id == c ==> c !in t.routed)
  }

  function RouteName(t: Table, c: Id): Name {
    if c in t.routed then t.routed[c] else ""
  }

  // ---------------------------------------------------------------- at least one close

  /** A kick of a client that is in the table has read its names and told it before it forgets it. */
  ghost predicate KickRef(k: Option<Kick>, c: Id, owner: Name, present: bool, live: bool, closed: bool) {
    k.Some? && k.value.id == c ==>
      && present
      && (k.value.LookDest? || k.value.TellClient? ==> if k.value.cn == "" then !live else k.value.cn == owner)
      && (k.value.TellDest? || k.value.Forget? ==> !live || closed)
  }

  ghost predicate ClosedOk(t: Table, c: Id, owner: Name, present: bool, closed: bool) {
    && KickRef(ClientKick(t.cpc), c, owner, present, c in t.clients, closed)
    && KickRef(DestKick(t.dpc), c, owner, present, c in t.clients, closed)
    && KickRef(TickKick(t.tpc), c, owner, present, c in t.clients, closed)
    && (c in Pending(t.tpc) ==> present)
    && (t.zpc.ZTellClient? && t.zpc.id == c ==> c in t.clients)
    && ((t.zpc.ZTellDest? || t.zpc.ZDrop?) && t.zpc.id == c ==> closed)
    && (present && c !in t.clients ==> closed)
  }

  /** A close for the client goes to its own router. */
  predicate OwnClose(o: Out, owner: Name, c: Id) {
    o.CloseDown? && o.id == c ==> o.router == owner
  }

  function ToldNow(o: Out, owner: Name, c: Id): bool {
    o == CloseDown(owner, c)
  }

  lemma KickCloses(cfg: Config, t: Table, k: Kick, c: Id, owner: Name, present: bool, closed: bool)
    requires Known(cfg, t, c, owner, present) && ClosedOk(t, c, owner, present, closed)
    requires KickRef(Some(k), c, owner, present, c in t.clients, closed)
    ensures var r := KickStep(cfg, t, k);
      && KickRef(r.k, c, owner, present, c in r.t.clients, closed || ToldNow(r.out, owner, c))
      && (present && c !in r.t.clients ==> closed || ToldNow(r.out, owner, c))
      && (c in r.t.clients ==> c in t.clients) && r.t == t.(clients := r.t.clients, dropped := r.t.dropped)
      && (r.k.Some? ==> r.t.clients == t.clients)
      && OwnClose(r.out, owner, c)
  {
  }

  /** The other goroutines' kicks lose nothing when a client leaves or is told. */
  lemma RefStays(k: Option<Kick>, c: Id, owner: Name, present: bool, live: bool, live': bool, closed: bool,
                 closed': bool)
    requires KickRef(k, c, owner, present, live, closed) && (live' ==> live) && (closed ==> closed')
    ensures KickRef(k, c, owner, present, live', closed')
  {
  }

  /** One goroutine goes on, and entries can only leave. */
  lemma OthersStay(t: Table, t': Table, c: Id, owner: Name, present: bool, closed: bool, closed': bool)
    requires ClosedOk(t, c, owner, present, closed) && (closed ==> closed') && t.zpc.ZWait? && t'.zpc.ZWait?
    requires c in t'.clients ==> c in t.clients
    requires present && c !in t'.clients ==> closed'
    requires t'.cpc == t.cpc || KickRef(ClientKick(t'.cpc), c, owner, present, c in t'.clients, closed')
    requires t'.dpc == t.dpc || KickRef(DestKick(t'.dpc), c, owner, present, c in t'.clients, closed')
    requires t'.tpc == t.tpc || KickRef(TickKick(t'.tpc), c, owner, present, c in t'.clients, closed')
    requires c in Pending(t'.tpc) ==> present
    ensures ClosedOk(t', c, owner, present, closed')
  {
    hide KickRef, Pending, ClientKick, DestKick, TickKick;
    RefStays(ClientKick(t.cpc), c, owner, present, c in t.clients, c in t'.clients, closed, closed');
    RefStays(DestKick(t.dpc), c, owner, present, c in t.clients, c in t'.clients, closed, closed');
    RefStays(TickKick(t.tpc), c, owner, present, c in t.clients, c in t'.clients, closed, closed');
  }

  /** What `ClosedOk` says about the goroutines' own kicks. */
  lemma KicksKnown(t: Table, c: Id, owner: Name, present: bool, closed: bool)
    requires ClosedOk(t, c, owner, present, closed)
    ensures KickRef(ClientKick(t.cpc), c, owner, present, c in t.clients, closed)
    ensures KickRef(DestKick(t.dpc), c, owner, present, c in t.clients, closed)
    ensures KickRef(TickKick(t.tpc), c, owner, present, c in t.clients, closed)
    ensures (c in Pending(t.tpc) ==> present) && (present && c !in t.clients ==> closed)
  {
  }

  lemma ClientGoCloses(cfg: Config, t: Table, time: int, c: Id, owner: Name, present: bool, closed: bool)
    requires Known(cfg, t, c, owner, present) && ClosedOk(t, c, owner, present, closed) && ClientGo(cfg, t, time).Some?
    requires t.zpc.ZWait?
    ensures var r := ClientGo(cfg, t, time).value;
      ClosedOk(r.0, c, owner, present, closed || ToldNow(r.1, owner, c)) && OwnClose(r.1, owner, c)
  {
    hide FirstMatch, KickStep, Pending, ClosedOk;
    var r := ClientGo(cfg, t, time).value;
    KicksKnown(t, c, owner, present, closed);
    if t.cpc.CKick? {
      hide Known, KickRef;
      KickCloses(cfg, t, t.cpc.k, c, owner, present, closed);
      NoKick(c, owner, present, c in r.0.clients, closed || ToldNow(r.1, owner, c));
    }
    OthersStay(t, r.0, c, owner, present, closed, closed || ToldNow(r.1, owner, c));
  }

  lemma NoKick(c: Id, owner: Name, present: bool, live: bool, closed: bool)
    ensures KickRef(None, c, owner, present, live, closed)
  {
  }

  lemma DestGoCloses(cfg: Config, t: Table, time: int, c: Id, owner: Name, present: bool, closed: bool)
    requires Known(cfg, t, c, owner, present) && ClosedOk(t, c, owner, present, closed) && DestGo(cfg, t, time).Some?
    requires t.zpc.ZWait?
    ensures var r := DestGo(cfg, t, time).value;
      ClosedOk(r.0, c, owner, present, closed || ToldNow(r.1, owner, c)) && OwnClose(r.1, owner, c)
  {
    hide KickStep, Pending, ClosedOk, ClientName;
    var r := DestGo(cfg, t, time).value;
    KicksKnown(t, c, owner, present, closed);
    if t.dpc.DKick? {
      hide Known, KickRef;
      KickCloses(cfg, t, t.dpc.k, c, owner, present, closed);
      NoKick(c, owner, present, c in r.0.clients, closed || ToldNow(r.1, owner, c));
    }
    OthersStay(t, r.0, c, owner, present, closed, closed || ToldNow(r.1, owner, c));
  }

  lemma FirstPending(p: TickPc)
    requires p.TSweep? && p.todo != []
    ensures p.todo[0] in Pending(p)
  {
  }

  /** A sweep takes up only clients that are in the table. */
  lemma NewlyPending(cfg: Config, t: Table, st: TickStep, c: Id)
    requires TickGo(cfg, t, st).Some? && c in Pending(TickGo(cfg, t, st).value.0.tpc)
    ensures c in Pending(t.tpc) || c in t.clients
  {
    hide Due, NoDuplicates, CloseForClient, CloseForDest;
  }

  lemma TickGoCloses(cfg: Config, t: Table, st: TickStep, c: Id, owner: Name, present: bool, closed: bool)
    requires Known(cfg, t, c, owner, present) && ClosedOk(t, c, owner, present, closed) && TickGo(cfg, t, st).Some?
    requires t.zpc.ZWait?
    ensures var r := TickGo(cfg, t, st).value;
      ClosedOk(r.0, c, owner, present, closed || ToldNow(r.1, owner, c)) && OwnClose(r.1, owner, c)
  {
    hide KickStep, ClosedOk, Pending, ListsAll, Due;
    var r := TickGo(cfg, t, st).value;
    KicksKnown(t, c, owner, present, closed);
    if c in Pending(r.0.tpc) {
      NewlyPending(cfg, t, st, c);
    }
    if t.tpc.TSweep? && t.tpc.todo != [] {
      FirstPending(t.tpc);
    }
    if t.tpc.TKick? {
      hide Known, KickRef;
      KickCloses(cfg, t, t.tpc.k, c, owner, present, closed);
      NoKick(c, owner, present, c in r.0.clients, closed || ToldNow(r.1, owner, c));
    }
    OthersStay(t, r.0, c, owner, present, closed, closed || ToldNow(r.1, owner, c));
  }

  /** A client in the table is told through its own router. */
  lemma OwnerTold(cfg: Config, t: Table, id: Id, c: Id, owner: Name, present: bool)
    requires Known(cfg, t, c, owner, present)
    ensures OwnClose(CloseForClient(cfg, id, ClientName(t.clients, id)), owner, c)
    ensures id == c && c in t.clients ==> ToldNow(CloseForClient(cfg, id, ClientName(t.clients, id)), owner, c)
  {
  }

  lemma DrainGoCloses(cfg: Config, t: Table, pick: Id, c: Id, owner: Name, present: bool, closed: bool)
    requires Known(cfg, t, c, owner, present) && ClosedOk(t, c, owner, present, closed) && DrainGo(cfg, t, pick).Some?
    ensures var r := DrainGo(cfg, t, pick).value;
      ClosedOk(r.0, c, owner, present, closed || ToldNow(r.1, owner, c)) && OwnClose(r.1, owner, c)
  {
    hide Pending, KickRef, ClientKick, DestKick, TickKick, Known, CloseForClient, ClientName, DestName;
    if t.zpc.ZTellClient? {
      OwnerTold(cfg, t, t.zpc.id, c, owner, present);
    }
    var r := DrainGo(cfg, t, pick).value;
    var closed' := closed || ToldNow(r.1, owner, c);
    RefStays(ClientKick(t.cpc), c, owner, present, c in t.clients, c in r.0.clients, closed, closed');
    RefStays(DestKick(t.dpc), c, owner, present, c in t.clients, c in r.0.clients, closed, closed');
    RefStays(TickKick(t.tpc), c, owner, present, c in t.clients, c in r.0.clients, closed, closed');
  }

  // ---------------------------------------------------------------- counting closes

  /** Whether an output is a close for the client, at its own router. */
  function ClientClose(o: Out, owner: Name, c: Id): nat {
    if o == CloseDown(owner, c) then 1 else 0
  }

  /** Whether an output is a close for the client at destination `d`. */
  function DestClose(o: Out, d: Name, c: Id): nat {
    if o == CloseUp(d, c) then 1 else 0
  }
}
