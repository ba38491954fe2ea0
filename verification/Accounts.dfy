/**
 The accounts of kicking, kept for one client `c` and one destination `d` while hub goroutines kick it in
 any order. A ledger counts the lookups that find the client in the table; every such lookup becomes one
 close, which has been sent or is still carried by a kick. So the accounts are off exactly when a second
 lookup found the client, or when the client was routed after a kick had read that it has no destination.
 */
module Accounts {
  import opened Types
  import opened Machine
  import opened Frames
  import opened ClientInvariant
  import opened Kicks

  // ---------------------------------------------------------------- kicks under way

  /** A kick of `c` that has looked the client up. */
  predicate MidOf(k: Option<Kick>, c: Id) {
    k.Some? && k.value.id == c && !k.value.LookClient?
  }

  /** A kick of `c` that has also read its destination. */
  predicate PastOf(k: Option<Kick>, c: Id) {
    MidOf(k, c) && !k.value.LookDest?
  }

  predicate SomeMid(t: Table, c: Id) {
    MidOf(ClientKick(t.cpc), c) || MidOf(DestKick(t.dpc), c) || MidOf(TickKick(t.tpc), c)
  }

  predicate SomePast(t: Table, c: Id) {
    PastOf(ClientKick(t.cpc), c) || PastOf(DestKick(t.dpc), c) || PastOf(TickKick(t.tpc), c)
  }

  /** What kicks of `c` still have to do: read a destination, tell the client, tell destination `d`. */
  datatype Share = Share(mid: nat, past: nat, forget: nat, unread: nat, untold: nat, unsent: nat)

  const NO_SHARE: Share := Share(0, 0, 0, 0, 0, 0)

  function ShareOf(k: Option<Kick>, c: Id, d: Name): Share {
    if k.None? || k.value.id != c then NO_SHARE else
      match k.value
      case LookClient(_) => NO_SHARE
      case LookDest(_, cn) => Share(1, 0, 0, If(cn != ""), If(cn != ""), 0)
      case TellClient(_, cn, dn) => Share(1, 1, 0, 0, If(cn != ""), If(dn == d && d != ""))
      case TellDest(_, dn) => Share(1, 1, 0, 0, 0, If(dn == d && d != ""))
      case Forget(_) => Share(1, 1, 1, 0, 0, 0)
  }

  function Plus(a: Share, b: Share): Share {
    Share(a.mid + b.mid, a.past + b.past, a.forget + b.forget,
          a.unread + b.unread, a.untold + b.untold, a.unsent + b.unsent)
  }

  function Shares(t: Table, c: Id, d: Name): Share {
    Plus(Plus(ShareOf(ClientKick(t.cpc), c, d), ShareOf(DestKick(t.dpc), c, d)), ShareOf(TickKick(t.tpc), c, d))
  }

  // ---------------------------------------------------------------- the ledger

  /**
   `looks` and `finds` count the lookups of the client and of its destination that found it in the table,
   `named` those of them that found it routed to `d`; `clash` says that one came too late.
   */
  datatype Ledger = Ledger(looks: nat, finds: nat, named: nat, clash: bool)

  const NEW_LEDGER: Ledger := Ledger(0, 0, 0, false)

  /** The kick a step carries on. */
  function Acting(t: Table, st: Step): Option<Kick> {
    if !st.AtHub? then None else
      match st.hub
      case ByClientLoop(_) => ClientKick(t.cpc)
      case ByDestLoop(_) => DestKick(t.dpc)
      case ByTicker(_) => TickKick(t.tpc)
      case _ => None
  }

  /** A kick looks the client up while another kick of it is past its own lookup. */
  predicate SecondLook(t: Table, st: Step, c: Id) {
    Acting(t, st) == Some(LookClient(c)) && c in t.clients && SomeMid(t, c)
  }

  /** The client is routed although a kick of it has already read that it has no destination. */
  predicate LateRoute(cfg: Config, t: Table, st: Step, c: Id) {
    && st.AtHub? && st.hub.ByClientLoop? && t.cpc.CAssign? && t.cpc.o.id == c && c in t.clients
    && FirstMatch(cfg.dests, cfg.matches, t.cpc.o.body.conn).Some? && SomePast(t, c)
  }

  predicate Clash(cfg: Config, t: Table, st: Step, c: Id) {
    SecondLook(t, st, c) || LateRoute(cfg, t, st, c)
  }

  predicate Looks(t: Table, st: Step, c: Id) {
    c in t.clients && (Acting(t, st) == Some(LookClient(c)) || (st == AtHub(ByDrain(c)) && t.zpc.ZPick?))
  }

  predicate Finds(t: Table, st: Step, c: Id) {
    && c in t.clients
    && (|| (Acting(t, st).Some? && Acting(t, st).value.LookDest? && Acting(t, st).value.id == c)
        || (st.AtHub? && st.hub.ByDrain? && t.zpc == ZTellDest(c)))
  }

  function Noted(L: Ledger, cfg: Config, t: Table, st: Step, c: Id, d: Name): Ledger {
    Ledger(
      L.looks + If(Looks(t, st, c)),
      L.finds + If(Finds(t, st, c)),
      L.named + If(Finds(t, st, c) && Get(t.routed, c) == Some(d)),
      L.clash || Clash(cfg, t, st, c))
  }

  // ---------------------------------------------------------------- what the ledger knows

  /** Every lookup that found the client has told it or will, and every find that met `d` likewise. */
  predicate Conserved(sh: Share, z: DrainPc, c: Id, toClient: nat, toDest: nat, L: Ledger) {
    && toClient + sh.untold + If(z == ZTellClient(c)) == L.looks
    && toDest + sh.unsent == L.named
    && L.finds + sh.unread + If(z == ZTellClient(c)) + If(z == ZTellDest(c)) <= L.looks
    && L.named <= L.finds
  }

  /** As long as the client is in the table every kick that looked it up is still under way. */
  predicate InFlight(sh: Share, z: DrainPc, c: Id, present: bool, live: bool, L: Ledger) {
    && (live ==>
        && L.looks == sh.mid + If(z == ZTellClient(c)) + If(z == ZTellDest(c)) + If(z == ZDrop(c))
        && L.finds == sh.past + If(z == ZDrop(c))
        && L.named <= sh.unsent + sh.forget + If(z == ZDrop(c)))
    && (present && !live ==> L.finds >= 1 && (!L.clash ==> sh.unsent == 0))
    && (!present ==> !live && L.looks == 0)
  }

  /** Without a clash there is one lookup, whose find names the route; with one, some account is off. */
  predicate Judged(route: Option<Name>, d: Name, L: Ledger) {
    && (route != Some(d) ==> L.named == 0)
    && (!L.clash ==> L.looks <= 1 && L.named == If(L.finds >= 1 && route == Some(d)))
    && (L.clash ==> L.looks >= 2 || (L.finds >= 1 && route.Some? && (route == Some(d) ==> L.named == 0)))
  }

  predicate Balanced(sh: Share, z: DrainPc, c: Id, present: bool, live: bool, route: Option<Name>, d: Name,
                     toClient: nat, toDest: nat, L: Ledger) {
    Conserved(sh, z, c, toClient, toDest, L) && InFlight(sh, z, c, present, live, L) && Judged(route, d, L)
  }

  // ---------------------------------------------------------------- the steps

  /** One step of a kick, with `rest` the share of all other kicks. */
  lemma KickBalances(cfg: Config, t: Table, k: Kick, rest: Share, c: Id, owner: Name, present: bool, closed: bool,
                     d: Name,
                     toClient: nat, toDest: nat, L: Ledger)
    requires Known(cfg, t, c, owner, present) && t.zpc.ZWait? && (d in cfg.dests || d == "")
    requires KickRef(Some(k), c, owner, present, c in t.clients, closed) && rest.unsent <= rest.mid
    requires Balanced(Plus(rest, ShareOf(Some(k), c, d)), t.zpc, c, present, c in t.clients, Get(t.routed, c), d,
                      toClient, toDest, L)
    ensures var r, live := KickStep(cfg, t, k), c in t.clients;
      var finds := live && k.LookDest? && k.id == c;
      && Balanced(Plus(rest, ShareOf(r.k, c, d)), t.zpc, c, present, c in r.t.clients, Get(t.routed, c), d,
                  toClient + ClientClose(r.out, owner, c), toDest + DestClose(r.out, d, c),
                  Ledger(L.looks + If(live && k == LookClient(c)), L.finds + If(finds),
                         L.named + If(finds && Get(t.routed, c) == Some(d)),
                         L.clash || (live && k == LookClient(c) && rest.mid > 0)))
  {
  }

  predicate TableBalanced(t: Table, c: Id, present: bool, d: Name, toClient: nat, toDest: nat, L: Ledger) {
    Balanced(Shares(t, c, d), t.zpc, c, present, c in t.clients, Get(t.routed, c), d, toClient, toDest, L)
  }

  /** The shares of the three goroutines, in the order that suits each. */
  lemma SharesByClient(t: Table, c: Id, d: Name)
    ensures Shares(t, c, d) ==
      Plus(Plus(ShareOf(DestKick(t.dpc), c, d), ShareOf(TickKick(t.tpc), c, d)), ShareOf(ClientKick(t.cpc), c, d))
  {
    hide ShareOf;
  }

  lemma SharesByDest(t: Table, c: Id, d: Name)
    ensures Shares(t, c, d) ==
      Plus(Plus(ShareOf(ClientKick(t.cpc), c, d), ShareOf(TickKick(t.tpc), c, d)), ShareOf(DestKick(t.dpc), c, d))
  {
    hide ShareOf;
  }

  lemma SharesByTick(t: Table, c: Id, d: Name)
    ensures Shares(t, c, d) ==
      Plus(Plus(ShareOf(ClientKick(t.cpc), c, d), ShareOf(DestKick(t.dpc), c, d)), ShareOf(TickKick(t.tpc), c, d))
  {
    hide ShareOf;
  }

  /** What the shares say about how far kicks are. */
  lemma ShareFacts(p: Option<Kick>, q: Option<Kick>, c: Id, d: Name)
    ensures Plus(ShareOf(p, c, d), ShareOf(q, c, d)).mid > 0 <==> MidOf(p, c) || MidOf(q, c)
    ensures Plus(ShareOf(p, c, d), ShareOf(q, c, d)).past > 0 <==> PastOf(p, c) || PastOf(q, c)
    ensures Plus(ShareOf(p, c, d), ShareOf(q, c, d)).unsent <= Plus(ShareOf(p, c, d), ShareOf(q, c, d)).mid
  {
    hide ShareOf, MidOf, PastOf;
    ShareFact(p, c, d);
    ShareFact(q, c, d);
  }

  lemma ShareFact(k: Option<Kick>, c: Id, d: Name)
    ensures ShareOf(k, c, d).mid == If(MidOf(k, c)) && ShareOf(k, c, d).past == If(PastOf(k, c))
    ensures ShareOf(k, c, d).unsent <= ShareOf(k, c, d).mid
  {
  }

  /** A step that is no step of a kick, and neither routes the client nor removes it, changes nothing. */
  lemma NoKickBalances(t: Table, t': Table, c: Id, present: bool, d: Name, toClient: nat, toDest: nat, L: Ledger)
    requires TableBalanced(t, c, present, d, toClient, toDest, L) && t'.zpc == t.zpc
    requires (c in t'.clients <==> c in t.clients) && Get(t'.routed, c) == Get(t.routed, c)
    requires t'.cpc == t.cpc || (Idling(ClientKick(t.cpc)) && Idling(ClientKick(t'.cpc)))
    requires t'.dpc == t.dpc || (Idling(DestKick(t.dpc)) && Idling(DestKick(t'.dpc)))
    requires t'.tpc == t.tpc || (Idling(TickKick(t.tpc)) && Idling(TickKick(t'.tpc)))
    ensures TableBalanced(t', c, present, d, toClient, toDest, L)
  {
    hide Balanced;
  }

  /** A goroutine that carries no kick, or one that has not begun. */
  predicate Idling(k: Option<Kick>) {
    k.None? || k.value.LookClient?
  }

  /** What the ledger notes of a step of kick `k`; `others` says that another kick of the client is under way. */
  lemma KickNoted(cfg: Config, t: Table, st: Step, k: Kick, c: Id, d: Name, others: bool, L: Ledger)
    requires Acting(t, st) == Some(k) && (k == LookClient(c) ==> (SomeMid(t, c) <==> others))
    ensures var live := c in t.clients;
      var finds := live && k.LookDest? && k.id == c;
      Noted(L, cfg, t, st, c, d) ==
        Ledger(L.looks + If(live && k == LookClient(c)), L.finds + If(finds),
               L.named + If(finds && Get(t.routed, c) == Some(d)), L.clash || (live && k == LookClient(c) && others))
  {
    hide FirstMatch, SomeMid, SomePast;
  }

  lemma ClientGoBalances(cfg: Config, t: Table, x: LoopStep, c: Id, owner: Name, present: bool, closed: bool, d: Name,
                         toClient: nat, toDest: nat, L: Ledger)
    requires Known(cfg, t, c, owner, present) && ClosedOk(t, c, owner, present, closed) && t.zpc.ZWait?
    requires (d in cfg.dests || d == "")
    requires TableBalanced(t, c, present, d, toClient, toDest, L) && x.Go? && ClientGo(cfg, t, x.time).Some?
    ensures var r := ClientGo(cfg, t, x.time).value;
      TableBalanced(r.0, c, present, d, toClient + ClientClose(r.1, owner, c), toDest + DestClose(r.1, d, c),
                    Noted(L, cfg, t, AtHub(ByClientLoop(x)), c, d))
  {
    hide FirstMatch, KickStep, Known, ClosedOk, Balanced, ShareOf, Plus, KickRef, MidOf, PastOf, Shares, Noted;
    var st := AtHub(ByClientLoop(x));
    var r := ClientGo(cfg, t, x.time).value;
    if t.cpc.CKick? {
      var rest := Plus(ShareOf(DestKick(t.dpc), c, d), ShareOf(TickKick(t.tpc), c, d));
      KicksKnown(t, c, owner, present, closed);
      KickStays(cfg, t, t.cpc.k);
      SharesByClient(t, c, d);
      SharesByClient(r.0, c, d);
      ShareFacts(DestKick(t.dpc), TickKick(t.tpc), c, d);
      NotMid(t.cpc.k, c);
      KickNoted(cfg, t, st, t.cpc.k, c, d, rest.mid > 0, L);
      KickBalances(cfg, t, t.cpc.k, rest, c, owner, present, closed, d, toClient, toDest, L);
    } else if t.cpc.CAssign? {
      AssignNoted(cfg, t, st, c, d, L);
      AssignBalances(cfg, t, c, owner, present, d, toClient, toDest, L);
    } else {
      NothingNoted(cfg, t, st, c, d, L);
      NoKickBalances(t, r.0, c, present, d, toClient, toDest, L);
    }
  }

  lemma AssignNoted(cfg: Config, t: Table, st: Step, c: Id, d: Name, L: Ledger)
    requires t.cpc.CAssign? && st.AtHub? && st.hub.ByClientLoop?
    ensures
      var routed := t.cpc.o.id == c && c in t.clients && FirstMatch(cfg.dests, cfg.matches, t.cpc.o.body.conn).Some?;
      Noted(L, cfg, t, st, c, d) == L.(clash := L.clash || (routed && SomePast(t, c)))
  {
    hide FirstMatch, SomePast, SomeMid;
  }

  /** A step that is not a step of a kick or of the drain, and routes nobody, notes nothing. */
  lemma NothingNoted(cfg: Config, t: Table, st: Step, c: Id, d: Name, L: Ledger)
    requires Acting(t, st).None? && (st.AtHub? ==> !st.hub.ByDrain? && (st.hub.ByClientLoop? ==> !t.cpc.CAssign?))
    ensures Noted(L, cfg, t, st, c, d) == L
  {
    hide FirstMatch, SomeMid, SomePast;
  }

  lemma NotMid(k: Kick, c: Id)
    ensures k.LookClient? ==> !MidOf(Some(k), c)
  {
  }

  lemma AssignBalances(cfg: Config, t: Table, c: Id, owner: Name, present: bool, d: Name, toClient: nat, toDest: nat,
                       L: Ledger)
    requires Known(cfg, t, c, owner, present) && t.zpc.ZWait? && t.cpc.CAssign?
    requires TableBalanced(t, c, present, d, toClient, toDest, L)
    ensures
      var routed := t.cpc.o.id == c && c in t.clients && FirstMatch(cfg.dests, cfg.matches, t.cpc.o.body.conn).Some?;
      TableBalanced(Assign(cfg, t, t.cpc.o), c, present, d, toClient, toDest,
                    L.(clash := L.clash || (routed && SomePast(t, c))))
  {
    hide FirstMatch, ShareOf, MidOf, PastOf, Balanced, Plus, Known, SomePast;
    var t' := Assign(cfg, t, t.cpc.o);
    if t'.cpc.CKick? || t.cpc.o.id != c {
      NoKickBalances(t, t', c, present, d, toClient, toDest, L);
    } else {
      SharesOfOthers(t, c, d);
      SharesOfOthers(t', c, d);
      Unmet(cfg, t, c, owner, present);
      RouteBalances(Shares(t, c, d), t.zpc, c, present, t'.routed[c], d, toClient, toDest, L);
    }
  }

  lemma Unmet(cfg: Config, t: Table, c: Id, owner: Name, present: bool)
    requires Known(cfg, t, c, owner, present) && t.cpc.CAssign? && t.cpc.o.id == c
    ensures c !in t.routed
  {
  }

  /** With no kick in the client-side goroutine, the shares are those of the other two. */
  lemma SharesOfOthers(t: Table, c: Id, d: Name)
    requires t.cpc.CAssign? || t.cpc.CForward?
    ensures Shares(t, c, d) == Plus(ShareOf(DestKick(t.dpc), c, d), ShareOf(TickKick(t.tpc), c, d))
    ensures Shares(t, c, d).past > 0 <==> SomePast(t, c)
  {
    hide ShareOf, PastOf, Plus;
    NoShare(c, d);
    NothingPlus(ShareOf(None, c, d), ShareOf(DestKick(t.dpc), c, d));
    ShareFacts(DestKick(t.dpc), TickKick(t.tpc), c, d);
    NoPast(c);
  }

  lemma NoPast(c: Id)
    ensures !PastOf(None, c)
  {
  }

  /** Routing a client that is in the table: too late for every kick that has read already. */
  lemma RouteBalances(sh: Share, z: DrainPc, c: Id, present: bool, dn: Name, d: Name, toClient: nat, toDest: nat,
                      L: Ledger)
    requires z.ZWait? && Balanced(sh, z, c, present, true, None, d, toClient, toDest, L)
    ensures Balanced(sh, z, c, present, true, Some(dn), d, toClient, toDest, L.(clash := L.clash || sh.past > 0))
  {
  }

  lemma DestGoBalances(cfg: Config, t: Table, x: LoopStep, c: Id, owner: Name, present: bool, closed: bool, d: Name,
                       toClient: nat, toDest: nat, L: Ledger)
    requires Known(cfg, t, c, owner, present) && ClosedOk(t, c, owner, present, closed) && t.zpc.ZWait?
    requires (d in cfg.dests || d == "")
    requires TableBalanced(t, c, present, d, toClient, toDest, L) && x.Go? && DestGo(cfg, t, x.time).Some?
    ensures var r := DestGo(cfg, t, x.time).value;
      TableBalanced(r.0, c, present, d, toClient + ClientClose(r.1, owner, c), toDest + DestClose(r.1, d, c),
                    Noted(L, cfg, t, AtHub(ByDestLoop(x)), c, d))
  {
    hide FirstMatch, KickStep, Known, ClosedOk, Balanced, ShareOf, Plus, KickRef, MidOf, PastOf, Shares, Noted;
    var r := DestGo(cfg, t, x.time).value;
    if t.dpc.DKick? {
      var rest := Plus(ShareOf(ClientKick(t.cpc), c, d), ShareOf(TickKick(t.tpc), c, d));
      KicksKnown(t, c, owner, present, closed);
      KickStays(cfg, t, t.dpc.k);
      SharesByDest(t, c, d);
      SharesByDest(r.0, c, d);
      ShareFacts(ClientKick(t.cpc), TickKick(t.tpc), c, d);
      NotMid(t.dpc.k, c);
      KickNoted(cfg, t, AtHub(ByDestLoop(x)), t.dpc.k, c, d, rest.mid > 0, L);
      KickBalances(cfg, t, t.dpc.k, rest, c, owner, present, closed, d, toClient, toDest, L);
    } else {
      NothingNoted(cfg, t, AtHub(ByDestLoop(x)), c, d, L);
      NoKickBalances(t, r.0, c, present, d, toClient, toDest, L);
    }
  }

  lemma TickGoBalances(cfg: Config, t: Table, x: TickStep, c: Id, owner: Name, present: bool, closed: bool, d: Name,
                       toClient: nat, toDest: nat, L: Ledger)
    requires Known(cfg, t, c, owner, present) && ClosedOk(t, c, owner, present, closed) && t.zpc.ZWait?
    requires (d in cfg.dests || d == "")
    requires TableBalanced(t, c, present, d, toClient, toDest, L) && TickGo(cfg, t, x).Some?
    ensures var r := TickGo(cfg, t, x).value;
      TableBalanced(r.0, c, present, d, toClient + ClientClose(r.1, owner, c), toDest + DestClose(r.1, d, c),
                    Noted(L, cfg, t, AtHub(ByTicker(x)), c, d))
  {
    hide FirstMatch, KickStep, Known, ClosedOk, Balanced, ShareOf, Plus, KickRef, MidOf, PastOf, Shares, Due, Noted;
    var r := TickGo(cfg, t, x).value;
    if t.tpc.TKick? {
      var rest := Plus(ShareOf(ClientKick(t.cpc), c, d), ShareOf(DestKick(t.dpc), c, d));
      KicksKnown(t, c, owner, present, closed);
      KickStays(cfg, t, t.tpc.k);
      SharesByTick(t, c, d);
      SharesByTick(r.0, c, d);
      ShareFacts(ClientKick(t.cpc), DestKick(t.dpc), c, d);
      NotMid(t.tpc.k, c);
      KickNoted(cfg, t, AtHub(ByTicker(x)), t.tpc.k, c, d, rest.mid > 0, L);
      KickBalances(cfg, t, t.tpc.k, rest, c, owner, present, closed, d, toClient, toDest, L);
    } else {
      NothingNoted(cfg, t, AtHub(ByTicker(x)), c, d, L);
      NoKickBalances(t, r.0, c, present, d, toClient, toDest, L);
    }
  }

  /** The drain reads and sends in the same step, while no other kick is under way. */
  lemma DrainGoBalances(cfg: Config, t: Table, pick: Id, c: Id, owner: Name, present: bool, d: Name,
                        toClient: nat, toDest: nat, L: Ledger)
    requires Known(cfg, t, c, owner, present) && (d in cfg.dests || d == "")
    requires TableBalanced(t, c, present, d, toClient, toDest, L)
    requires DrainGo(cfg, t, pick).Some? && t.cpc.CExit? && t.dpc.DExit? && t.tpc.TExit?
    requires t.zpc.ZTellClient? || t.zpc.ZTellDest? || t.zpc.ZDrop? ==> t.zpc.id in t.clients
    ensures var r := DrainGo(cfg, t, pick).value;
      TableBalanced(r.0, c, present, d, toClient + ClientClose(r.1, owner, c), toDest + DestClose(r.1, d, c),
                    Noted(L, cfg, t, AtHub(ByDrain(pick)), c, d))
  {
    hide Shares, Balanced, DrainGo, Known, Noted, ClientClose, DestClose;
    var r := DrainGo(cfg, t, pick).value;
    DrainGoStays(cfg, t, pick);
    NoShares(t, c, d);
    NoShares(r.0, c, d);
    DrainNotes(cfg, t, pick, c, d, L);
    match t.zpc
    case ZTellClient(id) => DrainTellsClient(cfg, t, pick, c, owner, present, d, toClient, toDest, L);
    case ZTellDest(id) => DrainTellsDest(cfg, t, pick, c, owner, present, d, toClient, toDest, L);
    case _ => DrainMoves(cfg, t, pick, c, owner, present, d, toClient, toDest, L);
  }

  lemma NoShares(t: Table, c: Id, d: Name)
    requires t.cpc.CExit? && t.dpc.DExit? && t.tpc.TExit?
    ensures Shares(t, c, d) == NO_SHARE
  {
    hide ShareOf, Plus;
    NoShare(c, d);
    assert ClientKick(t.cpc) == None && DestKick(t.dpc) == None && TickKick(t.tpc) == None;
    NothingPlus(NO_SHARE, NO_SHARE);
  }

  lemma NothingPlus(a: Share, b: Share)
    requires a == NO_SHARE
    ensures Plus(a, b) == b
  {
  }

  lemma NoShare(c: Id, d: Name)
    ensures ShareOf(None, c, d) == NO_SHARE
  {
  }

  /** What the ledger notes of a drain step. */
  function DrainNoted(L: Ledger, t: Table, pick: Id, c: Id, d: Name): Ledger {
    var finds := c in t.clients && t.zpc == ZTellDest(c);
    Ledger(L.looks + If(c in t.clients && pick == c && t.zpc.ZPick?), L.finds + If(finds),
           L.named + If(finds && Get(t.routed, c) == Some(d)), L.clash)
  }

  lemma DrainNotes(cfg: Config, t: Table, pick: Id, c: Id, d: Name, L: Ledger)
    ensures Noted(L, cfg, t, AtHub(ByDrain(pick)), c, d) == DrainNoted(L, t, pick, c, d)
  {
    hide FirstMatch;
  }

  lemma DrainTellsClient(cfg: Config, t: Table, pick: Id, c: Id, owner: Name, present: bool, d: Name,
                         toClient: nat, toDest: nat, L: Ledger)
    requires Known(cfg, t, c, owner, present) && (d in cfg.dests || d == "") && t.zpc.ZTellClient?
    requires t.zpc.id in t.clients
    requires Balanced(NO_SHARE, t.zpc, c, present, c in t.clients, Get(t.routed, c), d, toClient, toDest, L)
    ensures var r := DrainGo(cfg, t, pick).value;
      Balanced(NO_SHARE, r.0.zpc, c, present, c in r.0.clients, Get(r.0.routed, c), d,
               toClient + ClientClose(r.1, owner, c), toDest + DestClose(r.1, d, c), DrainNoted(L, t, pick, c, d))
  {
  }

  lemma DrainTellsDest(cfg: Config, t: Table, pick: Id, c: Id, owner: Name, present: bool, d: Name,
                       toClient: nat, toDest: nat, L: Ledger)
    requires Known(cfg, t, c, owner, present) && (d in cfg.dests || d == "") && t.zpc.ZTellDest?
    requires t.zpc.id in t.clients
    requires Balanced(NO_SHARE, t.zpc, c, present, c in t.clients, Get(t.routed, c), d, toClient, toDest, L)
    ensures var r := DrainGo(cfg, t, pick).value;
      Balanced(NO_SHARE, r.0.zpc, c, present, c in r.0.clients, Get(r.0.routed, c), d,
               toClient + ClientClose(r.1, owner, c), toDest + DestClose(r.1, d, c), DrainNoted(L, t, pick, c, d))
  {
  }

  lemma DrainMoves(cfg: Config, t: Table, pick: Id, c: Id, owner: Name, present: bool, d: Name,
                   toClient: nat, toDest: nat, L: Ledger)
    requires DrainGo(cfg, t, pick).Some? && !t.zpc.ZTellClient? && !t.zpc.ZTellDest?
    requires Balanced(NO_SHARE, t.zpc, c, present, c in t.clients, Get(t.routed, c), d, toClient, toDest, L)
    ensures var r := DrainGo(cfg, t, pick).value;
      Balanced(NO_SHARE, r.0.zpc, c, present, c in r.0.clients, Get(r.0.routed, c), d,
               toClient + ClientClose(r.1, owner, c), toDest + DestClose(r.1, d, c), DrainNoted(L, t, pick, c, d))
  {
  }
}
