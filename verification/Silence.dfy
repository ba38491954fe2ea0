/**
 How long a client can stay in the table: the bounds on age, on silence of either side, and on clients
 that are never accepted. The bounds are measured from `swept`, the start of the last tick whose two
 sweeps have run to the end; a caller that knows a tick begun no more than `K` ago has finished gets
 bounds in terms of `K`.
 */
module Silence {
  import opened Types
  import opened Channels
  import opened ClientTable
  import opened Machine
  import opened Frames
  import opened TableSafety
  import opened ClientInvariant
  import opened ClientSideProof
  import opened HubProof
  import opened Runs
  import opened Grammar
  import opened Theorems

  /** A client the silence part of a tick begun at `start` has to kick. */
  predicate Quiet(cfg: Config, e: Meta, start: int) {
    e.lastClient < start - cfg.clientTimeout || e.lastDest < start - cfg.destTimeout
  }

  /** The clocks of one entry: they start at its creation and only move forward. */
  ghost predicate Stamps(c: Id, e: Meta, p: ClientPc, q: DestPc, relays: bool) {
    && e.created <= e.lastClient && e.created <= e.lastDest
    && (p.CStamp? && p.id == c ==> e.lastClient <= p.since)
    && (q.DStamp? && q.id == c ==> e.lastDest <= q.since)
    && (!relays ==> e.lastClient == e.created)
  }

  ghost predicate Heeded(cfg: Config, c: Id, e: Meta, inserted: int, p: TickPc, swept: int) {
    && (inserted >= swept || !Quiet(cfg, e, swept))
    && (InAuth(p) ==> inserted >= p.start || !Quiet(cfg, e, p.start))
    && (HasListed(p) && !p.auth ==> inserted >= p.start || !Quiet(cfg, e, p.start) || c in Pending(p))
  }

  /**
   What the table knows about one client; `present` says that the client has been admitted, `relays` that its
   session has begun to relay, which it does once the client was shown an accept.
   */
  ghost predicate SilenceOk(cfg: Config, t: Table, c: Id, present: bool, relays: bool) {
    && (c in t.clients ==> c in t.inserted)
    && (c in t.clients ==> Stamps(c, t.clients[c], t.cpc, t.dpc, relays))
    && (c in t.clients ==> Heeded(cfg, c, t.clients[c], t.inserted[c], t.tpc, t.swept))
    && ((t.cpc.CStamp? && t.cpc.id == c) || (t.dpc.DStamp? && t.dpc.id == c) ==> present)
    && (t.cpc.CStamp? && t.cpc.id == c ==> relays)
  }

  // ---------------------------------------------------------------- the table's steps

  lemma ClientGoQuiet(cfg: Config, t: Table, time: int, c: Id, present: bool, relays: bool)
    requires SilenceOk(cfg, t, c, present, relays) && Times(t.clients, t.inserted, t.now)
    requires ClientGo(cfg, t, time).Some?
    requires t.cpc.CSend? && t.cpc.m.id == c ==> present && relays
    ensures SilenceOk(cfg, ClientGo(cfg, t, time).value.0, c, present, relays)
  {
    hide FirstMatch, Pending, KickStep, DestName;
    if t.cpc.CKick? {
      hide Heeded;
      KickStays(cfg, t, t.cpc.k);
    } else if !t.cpc.CStamp? && !t.cpc.CAssign? {
      hide Heeded;
    }
  }

  lemma DestGoQuiet(cfg: Config, t: Table, time: int, c: Id, present: bool, relays: bool)
    requires SilenceOk(cfg, t, c, present, relays) && Times(t.clients, t.inserted, t.now)
    requires DestGo(cfg, t, time).Some?
    requires t.dpc.DSend? && t.dpc.m.id == c ==> present
    ensures SilenceOk(cfg, DestGo(cfg, t, time).value.0, c, present, relays)
  {
    hide Pending, KickStep, ClientName;
    if t.dpc.DKick? {
      hide Heeded;
      KickStays(cfg, t, t.dpc.k);
    } else if !t.dpc.DStamp? && !t.dpc.DConnect? {
      hide Heeded;
    }
  }

  lemma TickGoQuiet(cfg: Config, t: Table, st: TickStep, c: Id, present: bool, relays: bool)
    requires SilenceOk(cfg, t, c, present, relays) && PcsOk(cfg, t) && TickGo(cfg, t, st).Some?
    ensures SilenceOk(cfg, TickGo(cfg, t, st).value.0, c, present, relays)
  {
    hide SilenceOk, PcsOk, KickStep, SweepOn, ScanOn;
    match t.tpc
    case TIdle => BeginQuiet(cfg, t, c, present, relays);
    case TList(start, auth, since) => ListQuiet(cfg, t, st, c, present, relays);
    case TScan(start, auth, due, rest, todo) => ScanQuiet(cfg, t, c, present, relays);
    case TSweep(start, auth, todo) => SweepQuiet(cfg, t, c, present, relays);
    case TKick(start, auth, todo, k) => TickKickQuiet(cfg, t, c, present, relays);
    case TExit =>
  }

  lemma BeginQuiet(cfg: Config, t: Table, c: Id, present: bool, relays: bool)
    requires SilenceOk(cfg, t, c, present, relays) && t.tpc.TIdle?
    ensures SilenceOk(cfg, t.(tpc := TList(t.now, false, t.now)), c, present, relays)
  {
    hide Stamps;
  }

  lemma ListQuiet(cfg: Config, t: Table, st: TickStep, c: Id, present: bool, relays: bool)
    requires SilenceOk(cfg, t, c, present, relays) && t.tpc.TList? && st.List? && ListsAll(st.ids, t.clients)
    ensures SilenceOk(cfg, t.(tpc := TScan(t.tpc.start, t.tpc.auth, DueAt(cfg, t.tpc.auth, st), st.ids, [])),
                      c, present, relays)
  {
    hide Stamps, NoDuplicates, Quiet;
  }

  /** The silence sweep lists every client that was quiet when the tick began and has been since. */
  lemma ScanQuiet(cfg: Config, t: Table, c: Id, present: bool, relays: bool)
    requires SilenceOk(cfg, t, c, present, relays) && PcsOk(cfg, t) && t.tpc.TScan?
    ensures SilenceOk(cfg, ScanOn(t, t.tpc.start, t.tpc.auth, t.tpc.due, t.tpc.rest, t.tpc.todo), c, present, relays)
  {
    hide Stamps;
  }

  lemma SweepQuiet(cfg: Config, t: Table, c: Id, present: bool, relays: bool)
    requires SilenceOk(cfg, t, c, present, relays) && t.tpc.TSweep?
    ensures SilenceOk(cfg, SweepOn(t, t.tpc.start, t.tpc.auth, t.tpc.todo), c, present, relays)
  {
    hide Stamps;
  }

  lemma TickKickQuiet(cfg: Config, t: Table, c: Id, present: bool, relays: bool)
    requires SilenceOk(cfg, t, c, present, relays) && t.tpc.TKick?
    ensures SilenceOk(cfg, TickGo(cfg, t, Advance).value.0, c, present, relays)
  {
    hide Stamps, CloseForClient, CloseForDest, Quiet;
  }

  lemma DrainGoQuiet(cfg: Config, t: Table, pick: Id, c: Id, present: bool, relays: bool)
    requires SilenceOk(cfg, t, c, present, relays) && DrainGo(cfg, t, pick).Some?
    ensures SilenceOk(cfg, DrainGo(cfg, t, pick).value.0, c, present, relays)
  {
    hide Stamps, Heeded;
  }

  // ---------------------------------------------------------------- every step

  ghost predicate SilentInv(cfg: Config, s: State, k: nat) {
    SilenceOk(cfg, s.t, IdOf(k), HasEntry(Ses(s, k).phase), Ses(s, k).phase.Relaying?)
  }

  /** A client whose data the hub holds has been admitted, and data from the client means that its session relays. */
  lemma HeldFacts(cfg: Config, s: State, k: nat)
    requires ClientInv(cfg, s, k)
    ensures s.t.cpc.CSend? && s.t.cpc.m.id == IdOf(k) ==> HasEntry(Ses(s, k).phase) && Ses(s, k).phase.Relaying?
    ensures s.t.dpc.DSend? && s.t.dpc.m.id == IdOf(k) ==> HasEntry(Ses(s, k).phase)
  {
    hide MySession, RoutersOk, DestsOk, EntryOk, DestPcOk, AllBacked, Reached, Returned, Forwarded, SentTo, GotBy,
      For;
    GotIsPrefix(s.cMsgs, IdOf(k));
    GotIsPrefix(s.dMsgs, IdOf(k));
    if s.t.cpc.CSend? && s.t.cpc.m.id == IdOf(k) { Relayed(cfg, s, k); RelayedNow(cfg, s, k); }
    if s.t.dpc.DSend? && s.t.dpc.m.id == IdOf(k) { Answered(cfg, s, k); }
  }

  lemma HubQuiet(cfg: Config, s: State, st: HubStep, s': State, k: nat)
    requires TableOk(cfg, s.t) && ClientInv(cfg, s, k) && SilentInv(cfg, s, k) && HubDo(cfg, s, st) == Some(s')
    ensures SilentInv(cfg, s', k)
  {
    hide ClientInv, ClientGo, DestGo, TickGo, DrainGo, HubGo, SilenceOk, ClientIdle, DestIdle, Books, Names, Times,
      Ages;
    var c, present, relays := IdOf(k), HasEntry(Ses(s, k).phase), Ses(s, k).phase.Relaying?;
    HubFrame(cfg, s, st, s');
    HeldFacts(cfg, s, k);
    match st
    case ByClientLoop(x) =>
      if s.t.cpc.CIdle? { ClientTakes(s, x, s'); IdlePcs(cfg, s, x, s', c, present, relays); }
      else { HubTable(cfg, s, ClientGo(cfg, s.t, x.time), s'); ClientGoQuiet(cfg, s.t, x.time, c, present, relays); }
    case ByDestLoop(x) =>
      if s.t.dpc.DIdle? { DestTakes(s, x, s'); IdlePcs(cfg, s, x, s', c, present, relays); }
      else { HubTable(cfg, s, DestGo(cfg, s.t, x.time), s'); DestGoQuiet(cfg, s.t, x.time, c, present, relays); }
    case ByTicker(t) => HubTable(cfg, s, TickGo(cfg, s.t, t), s'); TickGoQuiet(cfg, s.t, t, c, present, relays);
    case ByDrain(pick) =>
      HubTable(cfg, s, DrainGo(cfg, s.t, pick), s'); DrainGoQuiet(cfg, s.t, pick, c, present, relays);
    case Quits => QuitQuiet(cfg, s.t, c, present, relays);
  }

  lemma IdlePcs(cfg: Config, s: State, st: LoopStep, s': State, c: Id, present: bool, relays: bool)
    requires SilenceOk(cfg, s.t, c, present, relays)
    requires (s.t.cpc.CIdle? && ClientIdle(s, st) == Some(s')) || (s.t.dpc.DIdle? && DestIdle(s, st) == Some(s'))
    ensures SilenceOk(cfg, s'.t, c, present, relays)
  {
    hide Heeded, SentTo, GotBy, For;
  }

  lemma QuitQuiet(cfg: Config, t: Table, c: Id, present: bool, relays: bool)
    requires SilenceOk(cfg, t, c, present, relays) && t.tpc.TIdle?
    ensures SilenceOk(cfg, t.(tpc := TExit), c, present, relays)
  {
  }

  /** Everything outside the hub leaves entries alone, except for the client's own admission. */
  lemma OutsideQuiet(cfg: Config, s: State, s': State, k: nat)
    requires SilentInv(cfg, s, k)
    requires s'.t == s.t.(allocs := s'.t.allocs, now := s'.t.now, clients := s'.t.clients, inserted := s'.t.inserted,
                          made := s'.t.made)
    requires Get(s'.t.clients, IdOf(k)) == Get(s.t.clients, IdOf(k))
    requires Get(s'.t.inserted, IdOf(k)) == Get(s.t.inserted, IdOf(k))
    requires HasEntry(Ses(s, k).phase) ==> HasEntry(Ses(s', k).phase)
    requires Ses(s, k).phase.Relaying? ==> Ses(s', k).phase.Relaying?
    ensures SilentInv(cfg, s', k)
  {
    hide Heeded, SentTo, GotBy, For;
  }

  lemma AdmitQuiet(cfg: Config, s: State, time: int, s': State, k: nat)
    requires TableOk(cfg, s.t) && SilentInv(cfg, s, k) && k in s.ses && Admitted(cfg, s, k, s.ses[k], time) == Some(s')
    ensures SilentInv(cfg, s', k)
  {
    hide Admitted, Books, Names, Ages, Pending, SentTo, GotBy, For;
    Admits(cfg, s, k, time, s');
  }

  /** One session moves, and neither leaves the table's care nor stops relaying. */
  lemma MoveQuiet(cfg: Config, s: State, n: nat, S: Session, s': State, k: nat)
    requires SilentInv(cfg, s, k) && n in s.ses && s'.ses == s.ses[n := S] && s'.t == s.t
    requires HasEntry(s.ses[n].phase) ==> HasEntry(S.phase)
    requires s.ses[n].phase.Relaying? ==> S.phase.Relaying?
    ensures SilentInv(cfg, s', k)
  {
    hide SilenceOk;
    OutsideQuiet(cfg, s, s', k);
  }

  lemma OtherAdmitQuiet(cfg: Config, s: State, n: nat, time: int, s': State, k: nat)
    requires SilentInv(cfg, s, k) && n in s.ses && n != k && Admitted(cfg, s, n, s.ses[n], time) == Some(s')
    requires Serials(s.ses, s.t.allocs) && Distinct(s, k)
    ensures SilentInv(cfg, s', k)
  {
    hide Admitted, SilentInv;
    Admits(cfg, s, n, time, s');
    IdsDistinct(n, k);
    OutsideQuiet(cfg, s, s', k);
  }

  lemma ClientQuiet(cfg: Config, s: State, st: ClientStep, s': State, k: nat)
    requires TableInv(cfg, s) && SilentInv(cfg, s, k) && ClientDo(cfg, s, st) == Some(s') && Distinct(s', k)
    requires s.t.allocs <= s'.t.allocs
    ensures SilentInv(cfg, s', k)
  {
    hide TableOk, SilentInv, Admitted, LinkIn, SessionDoes, SessionGo, TransportGo, RouterTake, RouterGives, Receive,
      RoutersWired, DestsWired, SessionsWired, LinksWired, Holding;
    match st
    case Connection(r) => OutsideQuiet(cfg, s, s', k);
    case Admit(n, time) =>
      if n == k { AdmitQuiet(cfg, s, time, s', k); } else { OtherAdmitQuiet(cfg, s, n, time, s', k); }
    case Link(n) => Links(s, n, s'); MoveQuiet(cfg, s, n, s'.ses[n], s', k);
    case BySession(n, x) =>
      SessionEmits(cfg, s, n, x, s');
      SessionStays(cfg, s.ses[n], s.ses[n].cancelled || s.shutdown, x);
      RelayLasts(cfg, s.ses[n], s.ses[n].cancelled || s.shutdown, x);
      MoveQuiet(cfg, s, n, s'.ses[n], s', k);
    case ByTransport(n, x) => TransportStays(cfg, s.ses[n], x); MoveQuiet(cfg, s, n, s'.ses[n], s', k);
    case Demux(n) => DemuxPhases(cfg, s, n, s', k); OutsideQuiet(cfg, s, s', k);
    case _ => OutsideQuiet(cfg, s, s', k);
  }

  /** A session that relays never stops being one. */
  lemma RelayLasts(cfg: Config, S: Session, done: bool, st: SessionStep)
    requires SessionGo(cfg, S, done, st).Some?
    ensures S.phase.Relaying? ==> SessionGo(cfg, S, done, st).value.0.phase.Relaying?
  {
  }

  lemma DemuxPhases(cfg: Config, s: State, n: Name, s': State, k: nat)
    requires n in s.routers && RouterGives(cfg, s, n, s.routers[n]) == Some(s')
    ensures Ses(s', k).phase == Ses(s, k).phase && s'.t == s.t && s'.accepts == s.accepts
  {
    hide RouterGives, Receive;
    Gives(cfg, s, n, s');
    var R, id := s.routers[n], Holding(s.routers[n].pc).value;
    if id in R.links && R.links[id] in s.ses {
      ReceiveStays(cfg, s.ses[R.links[id]], R.pc);
    }
  }

  lemma DestQuiet(cfg: Config, s: State, st: DestStep, s': State, k: nat)
    requires SilentInv(cfg, s, k) && DestDo(cfg, s, st) == Some(s')
    ensures SilentInv(cfg, s', k)
  {
    hide SilentInv, UdpTake, UdpGo, Hears;
    if st.ByListener? {
      HearsOnly(cfg, s, st.id, st.h, s');
    }
    OutsideQuiet(cfg, s, s', k);
  }

  lemma KeepsQuiet(cfg: Config, s: State, st: Step, s': State, k: nat)
    requires ValidConfig(cfg) && TableInv(cfg, s) && ClientInv(cfg, s, k) && SilentInv(cfg, s, k)
    requires Do(cfg, s, st) == Some(s')
    requires Distinct(s', k)
    ensures SilentInv(cfg, s', k)
  {
    hide ClientInv, TableOk, SilentInv, HubDo, ClientDo, DestDo, Wired, SentTo, GotBy, For;
    AllocsGrow(cfg, s, st, s');
    match st
    case AtHub(h) => HubQuiet(cfg, s, h, s', k);
    case AtClient(c) => ClientQuiet(cfg, s, c, s', k);
    case AtDest(d) => DestQuiet(cfg, s, d, s', k);
    case _ => OutsideQuiet(cfg, s, s', k);
  }

  lemma {:induction false} SilenceHolds(cfg: Config, r: Run, i: nat, k: nat)
    requires ValidConfig(cfg) && IsRun(cfg, r) && i < |r.states| && Distinct(r.states[i], k)
    ensures SilentInv(cfg, r.states[i], k)
  {
    hide TableInv, ClientInv, Do;
    if i > 0 {
      AllocsGrow(cfg, r.states[i - 1], r.steps[i - 1], r.states[i]);
      TableHolds(cfg, r, i - 1);
      ClientHolds(cfg, r, i - 1, k);
      SilenceHolds(cfg, r, i - 1, k);
      KeepsQuiet(cfg, r.states[i - 1], r.steps[i - 1], r.states[i], k);
    }
  }

  // ---------------------------------------------------------------- theorems

  /**
   Residence by age, for every entry of every run, however often ids are reused: with a tick begun no
   more than `K` ago completed, an entry is younger than its limit plus `K`, counted from its recorded
   creation or, if that lay further back, from when it entered the table.
   */
  lemma AgeBound(cfg: Config, r: Run, i: nat, id: Id, K: nat)
    requires ValidConfig(cfg) && IsRun(cfg, r) && i < |r.states| && id in r.states[i].t.clients
    requires r.states[i].t.now - r.states[i].t.swept <= K
    ensures id in r.states[i].t.inserted
    ensures var t := r.states[i].t; var e, entered := t.clients[id], t.inserted[id];
      && t.now <= Max(e.created + cfg.maxLength, entered) + K
      && (!e.connected ==> t.now <= Max(e.created + cfg.authTimeout, entered) + K)
      && e.created <= entered <= t.now && e.lastClient <= t.now && e.lastDest <= t.now
  {
    hide IsRun, Wired, Books, Names;
    TableHolds(cfg, r, i);
  }

  /** A client that entered the table before its limits had passed is bounded by its creation time alone. */
  lemma PromptBound(cfg: Config, r: Run, i: nat, id: Id, K: nat)
    requires ValidConfig(cfg) && IsRun(cfg, r) && i < |r.states| && id in r.states[i].t.clients
    requires id in r.states[i].t.inserted
    requires r.states[i].t.now - r.states[i].t.swept <= K
    ensures var t := r.states[i].t; var e, entered := t.clients[id], t.inserted[id];
      && (entered <= e.created + cfg.maxLength ==> t.now - e.created <= cfg.maxLength + K)
      && (entered <= e.created + cfg.authTimeout && !e.connected ==> t.now - e.created <= cfg.authTimeout + K)
  {
    hide IsRun;
    AgeBound(cfg, r, i, id, K);
  }

  /** Residence by silence, for the clients of the first 2^32 allocations. */
  lemma SilenceBound(cfg: Config, r: Run, i: nat, k: nat, K: nat)
    requires ValidConfig(cfg) && IsRun(cfg, r) && i < |r.states| && Distinct(r.states[i], k)
    requires IdOf(k) in r.states[i].t.clients && r.states[i].t.now - r.states[i].t.swept <= K
    ensures IdOf(k) in r.states[i].t.inserted
    ensures var t := r.states[i].t; var e, entered := t.clients[IdOf(k)], t.inserted[IdOf(k)];
      && t.now <= Max(e.lastClient + cfg.clientTimeout, entered) + K
      && t.now <= Max(e.lastDest + cfg.destTimeout, entered) + K
      && e.created <= e.lastClient && e.created <= e.lastDest
  {
    hide IsRun, SentTo, GotBy, For;
    SilenceHolds(cfg, r, i, k);
  }

  /** A client that was shown no accept has a session that does not relay. */
  lemma UnshownIsIdle(cfg: Config, s: State, k: nat)
    requires ClientInv(cfg, s, k) && !Faced(Handed(s, k)).Accepted?
    ensures !Ses(s, k).phase.Relaying?
  {
    hide HubOk, RoutersOk, DestsOk, AuthOk, UpOk, AllBacked, Backed, Faced, SentTo, GotBy, For;
  }

  /**
   A client that was never accepted cannot stay, whether it was refused, had no answer, or left before an
   accept could reach it: its own clock never moves, so it is gone from the table by its creation time plus
   the client timeout plus `K`, whatever its destination sends.
   */
  lemma NeverAcceptedIsReclaimed(cfg: Config, r: Run, i: nat, k: nat, K: nat)
    requires ValidConfig(cfg) && IsRun(cfg, r) && i < |r.states| && Distinct(r.states[i], k)
    requires r.states[i].t.now - r.states[i].t.swept <= K
    requires !Faced(Handed(r.states[i], k)).Accepted?
    ensures IdOf(k) in r.states[i].t.clients ==>
      var t := r.states[i].t;
      && t.clients[IdOf(k)].lastClient == t.clients[IdOf(k)].created
      && IdOf(k) in t.inserted
      && t.now <= Max(t.clients[IdOf(k)].created + cfg.clientTimeout, t.inserted[IdOf(k)]) + K
  {
    hide IsRun, ClientInv, Faced, SentTo, GotBy, For;
    ClientHolds(cfg, r, i, k);
    UnshownIsIdle(cfg, r.states[i], k);
    SilenceHolds(cfg, r, i, k);
    if IdOf(k) in r.states[i].t.clients {
      SilenceBound(cfg, r, i, k, K);
    }
  }

  /**
   The plain forms, for a client that entered the table before the limit had passed: each side has been
   silent for no longer than its timeout plus `K`, and a client that was never accepted is no older than
   the client timeout plus `K`. The entry time is compared with the last message, so entering within the
   limit after creation is enough.
   */
  lemma PromptSilence(cfg: Config, r: Run, i: nat, k: nat, K: nat)
    requires ValidConfig(cfg) && IsRun(cfg, r) && i < |r.states| && Distinct(r.states[i], k)
    requires IdOf(k) in r.states[i].t.clients && r.states[i].t.now - r.states[i].t.swept <= K
    ensures IdOf(k) in r.states[i].t.inserted
    ensures var t := r.states[i].t; var e, entered := t.clients[IdOf(k)], t.inserted[IdOf(k)];
      && (entered <= e.lastClient + cfg.clientTimeout ==> t.now - e.lastClient <= cfg.clientTimeout + K)
      && (entered <= e.lastDest + cfg.destTimeout ==> t.now - e.lastDest <= cfg.destTimeout + K)
      && (!Faced(Handed(r.states[i], k)).Accepted? && entered <= e.created + cfg.clientTimeout ==>
          t.now - e.created <= cfg.clientTimeout + K)
      && e.created <= e.lastClient && e.created <= e.lastDest
  {
    hide IsRun, Faced;
    SilenceBound(cfg, r, i, k, K);
    if !Faced(Handed(r.states[i], k)).Accepted? {
      NeverAcceptedIsReclaimed(cfg, r, i, k, K);
    }
  }
}
