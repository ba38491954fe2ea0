/**
 The accounts of kicking over whole runs: how many closes a client and its destination were sent, when the
 accounts are exact, and what the shutdown drain adds to them. Kicks interleave freely; nothing is assumed
 about when the hub goroutines run.
 */
module AccountRuns {
  import opened Types
  import opened Channels
  import opened Machine
  import opened Frames
  import opened TableSafety
  import opened ClientInvariant
  import opened ClientSideProof
  import opened Runs
  import opened Kicks
  import opened KickRuns
  import opened Accounts

  ghost predicate LedgerInv(s: State, d: Name, k: nat, L: Ledger) {
    TableBalanced(s.t, IdOf(k), Present(s, k), d, ClosesDown(s, k), ClosesUp(s, d, k), L)
  }

  /** The ledger after the first `i` steps of a run. */
  ghost function LedgerAt(cfg: Config, r: Run, i: nat, c: Id, d: Name): Ledger
    requires i < |r.states| && |r.states| == |r.steps| + 1
  {
    if i == 0 then NEW_LEDGER
    else Noted(LedgerAt(cfg, r, i - 1, c, d), cfg, r.states[i - 1].t, r.steps[i - 1], c, d)
  }

  // ---------------------------------------------------------------- every step keeps the ledger

  lemma GoKeepsLedger(cfg: Config, s: State, r: Option<(Table, Out)>, s': State, d: Name, k: nat, L: Ledger)
    requires HubGo(cfg, s, r) == Some(s')
    requires TableBalanced(r.value.0, IdOf(k), Present(s, k), d,
                           ClosesDown(s, k) + ClientClose(r.value.1, Ses(s, k).owner, IdOf(k)),
                           ClosesUp(s, d, k) + DestClose(r.value.1, d, IdOf(k)), L)
    ensures LedgerInv(s', d, k, L)
  {
    hide TableBalanced, HubGo, ClosesDown, ClosesUp, NoStray, SentTo, GotBy, For, ClientClose, DestClose, OwnClose;
    OutputCounts(cfg, s, r, s', d, k);
  }

  lemma HubLedger(cfg: Config, s: State, st: HubStep, s': State, d: Name, k: nat, L: Ledger)
    requires ValidConfig(cfg) && TableInv(cfg, s) && ClientInv(cfg, s, k) && KickInv(s, k) && LedgerInv(s, d, k, L)
    requires HubDo(cfg, s, st) == Some(s') && (d in cfg.dests || d == "")
    ensures LedgerInv(s', d, k, Noted(L, cfg, s.t, AtHub(st), IdOf(k), d))
  {
    hide TableInv, ClientInv, ClientGo, DestGo, TickGo, DrainGo, ClientIdle, DestIdle, HubGo, ClosedOk, Known,
      NoStray, ClosesDown, ClosesUp, TableBalanced, Noted, ClientClose, DestClose, SentTo, GotBy, For;
    KnownFacts(cfg, s, k);
    var c, owner, present, x, y := IdOf(k), Ses(s, k).owner, Present(s, k), ClosesDown(s, k), ClosesUp(s, d, k);
    match st
    case ByClientLoop(l) =>
      if s.t.cpc.CIdle? { ClientIdleLedger(cfg, s, l, s', d, k, L); } else {
        HubTable(cfg, s, ClientGo(cfg, s.t, l.time), s');
        Awake(cfg, s.t, l.time, Begin);
        ClientGoBalances(cfg, s.t, l, c, owner, present, x > 0, d, x, y, L);
        GoKeepsLedger(cfg, s, ClientGo(cfg, s.t, l.time), s', d, k, Noted(L, cfg, s.t, AtHub(st), c, d));
      }
    case ByDestLoop(l) =>
      if s.t.dpc.DIdle? { DestIdleLedger(cfg, s, l, s', d, k, L); } else {
        HubTable(cfg, s, DestGo(cfg, s.t, l.time), s');
        Awake(cfg, s.t, l.time, Begin);
        DestGoBalances(cfg, s.t, l, c, owner, present, x > 0, d, x, y, L);
        GoKeepsLedger(cfg, s, DestGo(cfg, s.t, l.time), s', d, k, Noted(L, cfg, s.t, AtHub(st), c, d));
      }
    case ByTicker(l) =>
      HubTable(cfg, s, TickGo(cfg, s.t, l), s');
      Awake(cfg, s.t, 0, l);
      TickGoBalances(cfg, s.t, l, c, owner, present, x > 0, d, x, y, L);
      GoKeepsLedger(cfg, s, TickGo(cfg, s.t, l), s', d, k, Noted(L, cfg, s.t, AtHub(st), c, d));
    case ByDrain(pick) =>
      HubTable(cfg, s, DrainGo(cfg, s.t, pick), s');
      DrainBegins(cfg, s.t, pick);
      DrainGoBalances(cfg, s.t, pick, c, owner, present, d, x, y, L);
      GoKeepsLedger(cfg, s, DrainGo(cfg, s.t, pick), s', d, k, Noted(L, cfg, s.t, AtHub(st), c, d));
    case Quits => QuitLedger(cfg, s, s', d, k, L);
  }

  lemma ClientIdleLedger(cfg: Config, s: State, l: LoopStep, s': State, d: Name, k: nat, L: Ledger)
    requires LedgerInv(s, d, k, L) && s.t.cpc.CIdle? && ClientIdle(s, l) == Some(s')
    ensures LedgerInv(s', d, k, Noted(L, cfg, s.t, AtHub(ByClientLoop(l)), IdOf(k), d))
  {
    hide TableBalanced, Noted, SentTo, GotBy, For;
    NothingNoted(cfg, s.t, AtHub(ByClientLoop(l)), IdOf(k), d, L);
    NoKickBalances(s.t, s'.t, IdOf(k), Present(s, k), d, ClosesDown(s, k), ClosesUp(s, d, k), L);
  }

  lemma DestIdleLedger(cfg: Config, s: State, l: LoopStep, s': State, d: Name, k: nat, L: Ledger)
    requires LedgerInv(s, d, k, L) && s.t.dpc.DIdle? && DestIdle(s, l) == Some(s')
    ensures LedgerInv(s', d, k, Noted(L, cfg, s.t, AtHub(ByDestLoop(l)), IdOf(k), d))
  {
    hide TableBalanced, Noted, SentTo, GotBy, For;
    NothingNoted(cfg, s.t, AtHub(ByDestLoop(l)), IdOf(k), d, L);
    NoKickBalances(s.t, s'.t, IdOf(k), Present(s, k), d, ClosesDown(s, k), ClosesUp(s, d, k), L);
  }

  lemma QuitLedger(cfg: Config, s: State, s': State, d: Name, k: nat, L: Ledger)
    requires LedgerInv(s, d, k, L) && s.t.tpc.TIdle? && s' == s.(t := s.t.(tpc := TExit))
    ensures LedgerInv(s', d, k, Noted(L, cfg, s.t, AtHub(Quits), IdOf(k), d))
  {
    hide TableBalanced, Noted, SentTo, GotBy, For;
    NothingNoted(cfg, s.t, AtHub(Quits), IdOf(k), d, L);
    NoKickBalances(s.t, s'.t, IdOf(k), Present(s, k), d, ClosesDown(s, k), ClosesUp(s, d, k), L);
  }

  /** A client enters with a clean ledger, because nobody kicks a client that was never there. */
  lemma OutsideLedger(s: State, s': State, d: Name, k: nat, L: Ledger)
    requires KickInv(s, k) && LedgerInv(s, d, k, L) && Outside(s, s', k)
    ensures LedgerInv(s', d, k, L)
  {
    hide Pending, SentTo, ShareOf, Plus;
    var c := IdOf(k);
    assert Shares(s'.t, c, d) == Shares(s.t, c, d);
    if !Present(s, k) {
      Unkickable(s.t, c, d, Ses(s, k).owner, ClosesDown(s, k) > 0);
    }
  }

  lemma Unkickable(t: Table, c: Id, d: Name, owner: Name, closed: bool)
    requires ClosedOk(t, c, owner, false, closed)
    ensures Shares(t, c, d) == NO_SHARE
  {
    hide Plus, Pending;
    NothingPlus(NO_SHARE, NO_SHARE);
  }

  lemma KeepsLedger(cfg: Config, s: State, st: Step, s': State, d: Name, k: nat, L: Ledger)
    requires ValidConfig(cfg) && TableInv(cfg, s) && ClientInv(cfg, s, k) && KickInv(s, k) && LedgerInv(s, d, k, L)
    requires Do(cfg, s, st) == Some(s') && Distinct(s', k) && (d in cfg.dests || d == "")
    ensures LedgerInv(s', d, k, Noted(L, cfg, s.t, st, IdOf(k), d))
  {
    hide TableInv, ClientInv, KickInv, LedgerInv, HubDo, ClientDo, DestDo, SentTo, Noted, Outside;
    AllocsGrow(cfg, s, st, s');
    if st.AtHub? {
      HubLedger(cfg, s, st.hub, s', d, k, L);
    } else {
      NothingNoted(cfg, s.t, st, IdOf(k), d, L);
      match st {
        case AtClient(c) => ClientSideOutside(cfg, s, c, s', k);
        case AtDest(x) => DestSideOutside(cfg, s, x, s', k);
        case _ => NotPresent(cfg, s, k); TimeOutside(s, s', k);
      }
      OutsideLedger(s, s', d, k, L);
    }
  }

  lemma TimeOutside(s: State, s': State, k: nat)
    requires s' == s.(t := s.t.(now := s'.t.now), shutdown := s'.shutdown)
    requires (!Present(s, k) ==> IdOf(k) !in s.t.clients)
    ensures Outside(s, s', k)
  {
    hide SentTo;
  }

  lemma {:induction false} LedgerHolds(cfg: Config, r: Run, i: nat, d: Name, k: nat)
    requires ValidConfig(cfg) && IsRun(cfg, r) && i < |r.states| && Distinct(r.states[i], k)
    requires (d in cfg.dests || d == "")
    ensures LedgerInv(r.states[i], d, k, LedgerAt(cfg, r, i, IdOf(k), d))
  {
    hide TableInv, ClientInv, KickInv, LedgerInv, Do, Init, Noted;
    if i == 0 {
      LedgerInit(cfg, r.states[0], d, k);
    } else {
      AllocsGrow(cfg, r.states[i - 1], r.steps[i - 1], r.states[i]);
      TableHolds(cfg, r, i - 1);
      ClientHolds(cfg, r, i - 1, k);
      KickHolds(cfg, r, i - 1, k);
      LedgerHolds(cfg, r, i - 1, d, k);
      KeepsLedger(cfg, r.states[i - 1], r.steps[i - 1], r.states[i], d, k, LedgerAt(cfg, r, i - 1, IdOf(k), d));
    }
  }

  lemma LedgerInit(cfg: Config, s: State, d: Name, k: nat)
    requires Init(cfg, s)
    ensures LedgerInv(s, d, k, NEW_LEDGER)
  {
    hide ShareOf, Plus;
    NoShare(IdOf(k), d);
    NothingPlus(NO_SHARE, NO_SHARE);
  }

  // ---------------------------------------------------------------- when the accounts are exact

  /** No second lookup and no late routing of the client in the first `i` steps. */
  ghost predicate NoClash(cfg: Config, r: Run, i: nat, c: Id) {
    && |r.states| == |r.steps| + 1 && i < |r.states|
    && forall j :: 0 <= j < i ==> !Clash(cfg, r.states[j].t, r.steps[j], c)
  }

  /** One close for the client, and one for its destination if and only if it has one. */
  ghost predicate Exact(s: State, k: nat) {
    ClosesDown(s, k) == 1 && forall d :: ClosesUp(s, d, k) == If(Get(s.t.routed, IdOf(k)) == Some(d))
  }

  lemma {:induction false} ClashNoted(cfg: Config, r: Run, i: nat, c: Id, d: Name)
    requires i < |r.states| && |r.states| == |r.steps| + 1
    ensures LedgerAt(cfg, r, i, c, d).clash <==> !NoClash(cfg, r, i, c)
  {
    hide Clash;
    if i > 0 {
      ClashNoted(cfg, r, i - 1, c, d);
    }
  }

  /** What a balanced ledger says about a client that has left. */
  lemma Judgement(t: Table, c: Id, d: Name, toClient: nat, toDest: nat, L: Ledger)
    requires TableBalanced(t, c, true, d, toClient, toDest, L) && c !in t.clients && DrainAlone(t) && toClient >= 1
    ensures !L.clash ==> toClient == 1 && toDest == If(Get(t.routed, c) == Some(d))
    ensures L.clash && !SomeMid(t, c) ==>
      toClient >= 2 || (Get(t.routed, c).Some? && (Get(t.routed, c) == Some(d) ==> toDest == 0))
  {
    hide ShareOf, Plus, MidOf;
    assert t.zpc != ZTellClient(c) && t.zpc != ZTellDest(c) && t.zpc != ZDrop(c);
    if !SomeMid(t, c) {
      Untroubled(t, c, d);
    }
  }

  lemma Untroubled(t: Table, c: Id, d: Name)
    requires !SomeMid(t, c)
    ensures Shares(t, c, d) == NO_SHARE
  {
    hide Plus;
    NothingPlus(NO_SHARE, NO_SHARE);
  }

  lemma Elsewhere(cfg: Config, r: Run, i: nat, d: Name, k: nat)
    requires ValidConfig(cfg) && IsRun(cfg, r) && i < |r.states| && d !in cfg.dests
    ensures ClosesUp(r.states[i], d, k) == 0 && Get(r.states[i].t.routed, IdOf(k)) != Some(d)
  {
    hide IsRun, Books, Names, Times, Ages, PcsOk, SentTo;
    TableHolds(cfg, r, i);
  }

  /** The accounts of a client that has left, at one destination. */
  lemma AccountAt(cfg: Config, r: Run, i: nat, d: Name, k: nat)
    requires ValidConfig(cfg) && IsRun(cfg, r) && i < |r.states| && Distinct(r.states[i], k)
    requires Present(r.states[i], k) && IdOf(k) !in r.states[i].t.clients
    ensures var s, c := r.states[i], IdOf(k);
      && (NoClash(cfg, r, i, c) ==> ClosesDown(s, k) == 1 && ClosesUp(s, d, k) == If(Get(s.t.routed, c) == Some(d)))
      && (!NoClash(cfg, r, i, c) && !SomeMid(s.t, c) ==>
          || ClosesDown(s, k) >= 2
          || (Get(s.t.routed, c).Some? && (Get(s.t.routed, c) == Some(d) ==> ClosesUp(s, d, k) == 0)))
  {
    hide Do, Init, NoClash, ClosesDown, ClosesUp, ClosedOk, NoStray, SomeMid, TableBalanced, LedgerAt, SentTo, GotBy,
      For;
    var e := if d in cfg.dests then d else "";
    KickHolds(cfg, r, i, k);
    LeaversAreTold(cfg, r, i, k);
    LedgerHolds(cfg, r, i, e, k);
    ClashNoted(cfg, r, i, IdOf(k), e);
    Judgement(r.states[i].t, IdOf(k), e, ClosesDown(r.states[i], k), ClosesUp(r.states[i], e, k),
              LedgerAt(cfg, r, i, IdOf(k), e));
    if d !in cfg.dests {
      Elsewhere(cfg, r, i, d, k);
    }
  }

  /**
   The exact condition. A client that has left the table without a clash has had exactly one close, and its
   destination exactly one if and only if it was routed, whichever triggers fired and whatever else the hub
   did meanwhile. And once no kick of it is under way, exact accounts mean that there was no clash.
   */
  lemma ExactCloses(cfg: Config, r: Run, i: nat, k: nat)
    requires ValidConfig(cfg) && IsRun(cfg, r) && i < |r.states| && Distinct(r.states[i], k)
    requires Present(r.states[i], k) && IdOf(k) !in r.states[i].t.clients
    ensures NoClash(cfg, r, i, IdOf(k)) ==> Exact(r.states[i], k)
    ensures !SomeMid(r.states[i].t, IdOf(k)) ==> (Exact(r.states[i], k) <==> NoClash(cfg, r, i, IdOf(k)))
  {
    hide IsRun, NoClash, ClosesDown, ClosesUp, SomeMid;
    var s, c := r.states[i], IdOf(k);
    forall d
      ensures NoClash(cfg, r, i, c) ==> ClosesDown(s, k) == 1 && ClosesUp(s, d, k) == If(Get(s.t.routed, c) == Some(d))
    {
      AccountAt(cfg, r, i, d, k);
    }
    AccountAt(cfg, r, i, if c in s.t.routed then s.t.routed[c] else "", k);
  }

  // ---------------------------------------------------------------- clients that stay

  predicate ToldOf(k: Option<Kick>, c: Id) {
    k.Some? && k.value.id == c && (k.value.TellDest? || k.value.Forget?)
  }

  /** How many kicks under way, the drain's included, have told the client, and how many are about to remove it. */
  function Tellers(t: Table, c: Id): nat {
    If(ToldOf(ClientKick(t.cpc), c)) + If(ToldOf(DestKick(t.dpc), c)) + If(ToldOf(TickKick(t.tpc), c)) +
    If(t.zpc == ZTellDest(c) || t.zpc == ZDrop(c))
  }

  function Removers(t: Table, c: Id): nat {
    If(ClientKick(t.cpc) == Some(Forget(c))) + If(DestKick(t.dpc) == Some(Forget(c))) +
    If(TickKick(t.tpc) == Some(Forget(c))) + If(t.zpc == ZDrop(c))
  }

  lemma ToldShare(k: Option<Kick>, c: Id, d: Name, owner: Name, present: bool, closed: bool)
    requires KickRef(k, c, owner, present, true, closed)
    ensures ShareOf(k, c, d).mid == ShareOf(k, c, d).untold + If(ToldOf(k, c))
    ensures ShareOf(k, c, d).forget == If(k == Some(Forget(c)))
  {
  }

  lemma StayerFacts(t: Table, c: Id, owner: Name, present: bool, closed: bool, d: Name, toClient: nat, toDest: nat,
                    L: Ledger)
    requires TableBalanced(t, c, present, d, toClient, toDest, L) && c in t.clients
    requires ClosedOk(t, c, owner, present, closed)
    ensures toClient == Tellers(t, c) && toDest <= Removers(t, c)
  {
    hide ShareOf, KickRef, ToldOf, ClosedOk;
    KicksKnown(t, c, owner, present, closed);
    ToldShare(ClientKick(t.cpc), c, d, owner, present, closed);
    ToldShare(DestKick(t.dpc), c, d, owner, present, closed);
    ToldShare(TickKick(t.tpc), c, d, owner, present, closed);
  }

  /**
   In every run a client that is in the table has had exactly as many closes as there are kicks under way
   that have told it, and its destination at most as many as are about to remove it. So a client that stays
   was told nothing.
   */
  lemma StayersAreUntold(cfg: Config, r: Run, i: nat, d: Name, k: nat)
    requires ValidConfig(cfg) && IsRun(cfg, r) && i < |r.states| && Distinct(r.states[i], k)
    requires IdOf(k) in r.states[i].t.clients
    ensures ClosesDown(r.states[i], k) == Tellers(r.states[i].t, IdOf(k))
    ensures ClosesUp(r.states[i], d, k) <= Removers(r.states[i].t, IdOf(k))
  {
    hide Do, Init, ClosesDown, ClosesUp, ClosedOk, NoStray, TableBalanced, LedgerAt, Tellers, Removers, SentTo,
      GotBy, For;
    var s, e := r.states[i], if d in cfg.dests then d else "";
    KickHolds(cfg, r, i, k);
    LedgerHolds(cfg, r, i, e, k);
    StayerFacts(s.t, IdOf(k), Ses(s, k).owner, Present(s, k), ClosesDown(s, k) > 0, e,
                ClosesDown(s, k), ClosesUp(s, e, k), LedgerAt(cfg, r, i, IdOf(k), e));
    if d !in cfg.dests {
      Elsewhere(cfg, r, i, d, k);
    }
  }

  // ---------------------------------------------------------------- the drain

  /** The hub goroutines have ended, and when the drain is over client `k` is gone. */
  ghost predicate DrainSince(s: State, k: nat) {
    && s.t.cpc.CExit? && s.t.dpc.DExit? && s.t.tpc.TExit? && !s.t.zpc.ZWait?
    && Present(s, k) && (s.t.zpc.ZDone? ==> IdOf(k) !in s.t.clients)
  }

  lemma DrainGoesOn(cfg: Config, s: State, st: Step, s': State, k: nat)
    requires ValidConfig(cfg) && TableInv(cfg, s) && ClientInv(cfg, s, k) && Do(cfg, s, st) == Some(s')
    requires Distinct(s', k)
    requires DrainSince(s, k)
    ensures DrainSince(s', k) && !Clash(cfg, s.t, st, IdOf(k))
  {
    hide TableInv, ClientInv, HubDo, ClientDo, DestDo, FirstMatch, SentTo;
    AllocsGrow(cfg, s, st, s');
    match st
    case AtHub(h) => DrainOnly(cfg, s, h, s');
    case AtClient(c) => ClientSideOutside(cfg, s, c, s', k);
    case AtDest(x) => DestSideOutside(cfg, s, x, s', k);
    case _ =>
  }

  /** After the hub goroutines have ended, only the drain moves the hub. */
  lemma DrainOnly(cfg: Config, s: State, st: HubStep, s': State)
    requires HubDo(cfg, s, st) == Some(s') && s.t.cpc.CExit? && s.t.dpc.DExit? && s.t.tpc.TExit? && !s.t.zpc.ZWait?
    ensures s'.ses == s.ses && s'.t.cpc == s.t.cpc && s'.t.dpc == s.t.dpc && s'.t.tpc == s.t.tpc && !s'.t.zpc.ZWait?
    ensures s'.t.zpc.ZDone? ==> s'.t.clients == map[]
    ensures !s.t.zpc.ZDone?
  {
    hide HubGo, CloseForClient, CloseForDest, ClientGo, DestGo, TickGo, ClientIdle, DestIdle;
    match st
    case ByDrain(pick) => HubTable(cfg, s, DrainGo(cfg, s.t, pick), s');
    case ByClientLoop(x) =>
      if x.Go? { HubTable(cfg, s, ClientGo(cfg, s.t, x.time), s'); Awake(cfg, s.t, x.time, Begin); }
    case ByDestLoop(x) => if x.Go? { HubTable(cfg, s, DestGo(cfg, s.t, x.time), s'); Awake(cfg, s.t, x.time, Begin); }
    case ByTicker(x) => HubTable(cfg, s, TickGo(cfg, s.t, x), s'); Awake(cfg, s.t, 0, x);
    case Quits =>
  }

  /** A client that the drain finds in the table has no clash behind it. */
  lemma FoundClean(cfg: Config, r: Run, b: nat, k: nat)
    requires ValidConfig(cfg) && IsRun(cfg, r) && b < |r.states| && Distinct(r.states[b], k)
    requires r.states[b].t.zpc.ZPick? && IdOf(k) in r.states[b].t.clients
    ensures NoClash(cfg, r, b, IdOf(k)) && DrainSince(r.states[b], k)
  {
    hide Do, Init, NoClash, ClosesDown, ClosesUp, ClosedOk, NoStray, LedgerAt, ClientInv, Shares, SentTo, GotBy, For;
    KickHolds(cfg, r, b, k);
    ClientHolds(cfg, r, b, k);
    NotPresent(cfg, r.states[b], k);
    NoShares(r.states[b].t, IdOf(k), "");
    LedgerHolds(cfg, r, b, "", k);
    ClashNoted(cfg, r, b, IdOf(k), "");
  }

  lemma {:induction false} DrainLasts(cfg: Config, r: Run, b: nat, j: nat, k: nat)
    requires ValidConfig(cfg) && IsRun(cfg, r) && b <= j < |r.states| && Distinct(r.states[j], k)
    requires r.states[b].t.zpc.ZPick? && IdOf(k) in r.states[b].t.clients
    ensures NoClash(cfg, r, j, IdOf(k)) && DrainSince(r.states[j], k)
  {
    hide Do, Init, DrainSince, Clash, TableInv, ClientInv;
    if b == j {
      FoundClean(cfg, r, b, k);
    } else {
      AllocsGrow(cfg, r.states[j - 1], r.steps[j - 1], r.states[j]);
      DrainLasts(cfg, r, b, j - 1, k);
      TableHolds(cfg, r, j - 1);
      ClientHolds(cfg, r, j - 1, k);
      DrainGoesOn(cfg, r.states[j - 1], r.steps[j - 1], r.states[j], k);
    }
  }

  /**
   Shutdown, in every run: a client that the drain finds in the table has left it when the drain is over,
   with exactly one close, and exactly one for its destination if and only if it was routed.
   */
  lemma DrainCloses(cfg: Config, r: Run, b: nat, j: nat, k: nat)
    requires ValidConfig(cfg) && IsRun(cfg, r) && b <= j < |r.states| && Distinct(r.states[j], k)
    requires r.states[b].t.zpc.ZPick? && IdOf(k) in r.states[b].t.clients && r.states[j].t.zpc.ZDone?
    ensures IdOf(k) !in r.states[j].t.clients && Exact(r.states[j], k)
  {
    hide IsRun, NoClash, ClosesDown, ClosesUp, SomeMid;
    DrainLasts(cfg, r, b, j, k);
    ExactCloses(cfg, r, j, k);
  }
}
