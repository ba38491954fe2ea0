/**
 Whom the sweeps spare, and the keep-alive clocks they go by. A sweep lists only clients that are past a
 deadline at that very moment; forwarding a client's data or a destination's payload moves the clock; so a
 client that both sides are heard of in time is kept until it is too old.
 */
module Sparing {
  import opened Types
  import opened ClientTable
  import opened Machine
  import opened Frames
  import opened TableSafety
  import opened ClientInvariant
  import opened ClientSideProof
  import opened Runs
  import opened Silence

  /** The clients a tick has listed so far. */
  function Listed(p: TickPc): seq<Id> {
    if p.TScan? || p.TSweep? || p.TKick? then p.todo else []
  }

  /** A client that the silence and age sweep may list: silent for longer than a timeout, or too old. */
  predicate Overdue(cfg: Config, e: Meta, now: int) {
    || e.created < now - cfg.maxLength
    || e.lastClient < now - cfg.clientTimeout
    || e.lastDest < now - cfg.destTimeout
  }

  lemma ScanSpares(cfg: Config, t: Table, st: TickStep, id: Id)
    requires PcsOk(cfg, t) && TickGo(cfg, t, st).Some?
    requires id in Listed(TickGo(cfg, t, st).value.0.tpc) && id !in Listed(t.tpc)
    ensures t.tpc.TScan? && id in t.clients
    ensures !t.tpc.auth ==> Overdue(cfg, t.clients[id], t.now)
    ensures t.tpc.auth ==> !t.clients[id].connected && t.clients[id].created < t.now - cfg.authTimeout
  {
    hide KickStep, ListsAll;
  }

  /**
   In every run, whenever a step of a tick lists a client, that client is in the table and past a deadline
   right then: silent or too old for the first sweep, unanswered for too long for the second.
   */
  lemma OnlyOverdueAreListed(cfg: Config, r: Run, i: nat, id: Id)
    requires ValidConfig(cfg) && IsRun(cfg, r) && i < |r.steps|
    requires id in Listed(r.states[i + 1].t.tpc) && id !in Listed(r.states[i].t.tpc)
    ensures var t := r.states[i].t;
      && t.tpc.TScan? && id in t.clients
      && (!t.tpc.auth ==> Overdue(cfg, t.clients[id], t.now))
      && (t.tpc.auth ==> !t.clients[id].connected && t.clients[id].created < t.now - cfg.authTimeout)
  {
    hide Do, Init, Wired, Books, Names, Times, Ages, PcsOk, Listed;
    var s, s' := r.states[i], r.states[i + 1];
    TableHolds(cfg, r, i);
    ListedByTicker(cfg, s, r.steps[i], s', id);
    ScanSpares(cfg, s.t, r.steps[i].hub.t, id);
  }

  /** Only the ticker lists. */
  lemma ListedByTicker(cfg: Config, s: State, st: Step, s': State, id: Id)
    requires Do(cfg, s, st) == Some(s') && id in Listed(s'.t.tpc) && id !in Listed(s.t.tpc)
    ensures st.AtHub? && st.hub.ByTicker? && TickGo(cfg, s.t, st.hub.t).Some?
    ensures s'.t == TickGo(cfg, s.t, st.hub.t).value.0
  {
    hide ClientDo, DestDo, ClientGo, DestGo, TickGo, DrainGo, HubGo, ClientIdle, DestIdle, Listed;
    match st
    case AtHub(h) =>
      match h {
        case ByClientLoop(x) =>
          if s.t.cpc.CIdle? { ClientTakes(s, x, s'); } else {
            HubTable(cfg, s, ClientGo(cfg, s.t, x.time), s');
            ClientGoStays(cfg, s.t, x.time);
          }
        case ByDestLoop(x) =>
          if s.t.dpc.DIdle? { DestTakes(s, x, s'); } else {
            HubTable(cfg, s, DestGo(cfg, s.t, x.time), s');
            DestGoStays(cfg, s.t, x.time);
          }
        case ByTicker(t) => HubTable(cfg, s, TickGo(cfg, s.t, t), s');
        case ByDrain(pick) =>
          HubTable(cfg, s, DrainGo(cfg, s.t, pick), s');
          DrainGoStays(cfg, s.t, pick);
        case Quits => NothingListed();
      }
    case AtClient(c) => ClientFrame(cfg, s, c, s');
    case AtDest(d) => DestFrame(cfg, s, d, s');
    case _ =>
  }

  lemma NothingListed()
    ensures Listed(TExit) == [] && Listed(TIdle) == []
  {
  }

  // ---------------------------------------------------------------- the clocks

  /** The client's clock has reached `x`, or the hub is about to set it. */
  ghost predicate ClientClock(t: Table, c: Id, x: int) {
    c in t.clients ==> x <= t.clients[c].lastClient || t.cpc == CStamp(c, x)
  }

  ghost predicate DestClock(t: Table, c: Id, x: int) {
    c in t.clients ==> x <= t.clients[c].lastDest || t.dpc == DStamp(c, x)
  }

  lemma ClientGoClocks(cfg: Config, t: Table, time: int, c: Id, x: int, present: bool, relays: bool)
    requires SilenceOk(cfg, t, c, present, relays) && ClientGo(cfg, t, time).Some?
    ensures ClientClock(t, c, x) ==> ClientClock(ClientGo(cfg, t, time).value.0, c, x)
    ensures DestClock(t, c, x) ==> DestClock(ClientGo(cfg, t, time).value.0, c, x)
  {
    hide FirstMatch, KickStep, Heeded, DestName;
    if t.cpc.CKick? {
      KickStays(cfg, t, t.cpc.k);
    }
  }

  lemma DestGoClocks(cfg: Config, t: Table, time: int, c: Id, x: int, present: bool, relays: bool)
    requires SilenceOk(cfg, t, c, present, relays) && DestGo(cfg, t, time).Some?
    ensures ClientClock(t, c, x) ==> ClientClock(DestGo(cfg, t, time).value.0, c, x)
    ensures DestClock(t, c, x) ==> DestClock(DestGo(cfg, t, time).value.0, c, x)
  {
    hide KickStep, Heeded, ClientName;
    if t.dpc.DKick? {
      KickStays(cfg, t, t.dpc.k);
    }
  }

  lemma TickGoClocks(cfg: Config, t: Table, st: TickStep, c: Id, x: int)
    requires TickGo(cfg, t, st).Some?
    ensures ClientClock(t, c, x) ==> ClientClock(TickGo(cfg, t, st).value.0, c, x)
    ensures DestClock(t, c, x) ==> DestClock(TickGo(cfg, t, st).value.0, c, x)
  {
    hide KickStep, ListsAll, Due;
    if t.tpc.TKick? {
      KickStays(cfg, t, t.tpc.k);
    }
  }

  lemma DrainGoClocks(cfg: Config, t: Table, pick: Id, c: Id, x: int)
    requires DrainGo(cfg, t, pick).Some?
    ensures ClientClock(t, c, x) ==> ClientClock(DrainGo(cfg, t, pick).value.0, c, x)
    ensures DestClock(t, c, x) ==> DestClock(DrainGo(cfg, t, pick).value.0, c, x)
  {
    hide CloseForClient, CloseForDest;
  }

  lemma HubClocks(cfg: Config, s: State, st: HubStep, s': State, k: nat, x: int)
    requires SilentInv(cfg, s, k) && HubDo(cfg, s, st) == Some(s')
    ensures ClientClock(s.t, IdOf(k), x) ==> ClientClock(s'.t, IdOf(k), x)
    ensures DestClock(s.t, IdOf(k), x) ==> DestClock(s'.t, IdOf(k), x)
  {
    hide ClientGo, DestGo, TickGo, DrainGo, HubGo, SilenceOk, ClientIdle, DestIdle;
    var c, present, relays := IdOf(k), HasEntry(Ses(s, k).phase), Ses(s, k).phase.Relaying?;
    match st
    case ByClientLoop(l) =>
      if s.t.cpc.CIdle? { ClientTakes(s, l, s'); } else {
        HubTable(cfg, s, ClientGo(cfg, s.t, l.time), s');
        ClientGoClocks(cfg, s.t, l.time, c, x, present, relays);
      }
    case ByDestLoop(l) =>
      if s.t.dpc.DIdle? { DestTakes(s, l, s'); } else {
        HubTable(cfg, s, DestGo(cfg, s.t, l.time), s');
        DestGoClocks(cfg, s.t, l.time, c, x, present, relays);
      }
    case ByTicker(t) =>
      HubTable(cfg, s, TickGo(cfg, s.t, t), s');
      TickGoClocks(cfg, s.t, t, c, x);
    case ByDrain(pick) =>
      HubTable(cfg, s, DrainGo(cfg, s.t, pick), s');
      DrainGoClocks(cfg, s.t, pick, c, x);
    case Quits =>
  }

  /** Outside the hub nobody touches the entry of an admitted client. */
  lemma EntryStays(cfg: Config, s: State, st: ClientStep, s': State, k: nat)
    requires Serials(s.ses, s.t.allocs) && Distinct(s, k) && HasEntry(Ses(s, k).phase)
    requires ClientDo(cfg, s, st) == Some(s')
    ensures Get(s'.t.clients, IdOf(k)) == Get(s.t.clients, IdOf(k)) && HasEntry(Ses(s', k).phase)
    ensures s'.t.cpc == s.t.cpc && s'.t.dpc == s.t.dpc
  {
    hide Admitted, LinkIn, SessionDoes, SessionGo, TransportGo, RouterTake, RouterGives, Receive, Holding;
    match st
    case Admit(n, time) => Admits(cfg, s, n, time, s'); IdsDistinct(n, k);
    case Link(n) => Links(s, n, s');
    case BySession(n, x) =>
      SessionEmits(cfg, s, n, x, s');
      SessionStays(cfg, s.ses[n], s.ses[n].cancelled || s.shutdown, x);
    case ByTransport(n, x) => TransportStays(cfg, s.ses[n], x);
    case Demux(n) => DemuxPhases(cfg, s, n, s', k);
    case _ =>
  }

  lemma ClocksKept(cfg: Config, s: State, st: Step, s': State, k: nat, x: int)
    requires TableInv(cfg, s) && SilentInv(cfg, s, k) && HasEntry(Ses(s, k).phase)
    requires Do(cfg, s, st) == Some(s') && Distinct(s', k)
    ensures HasEntry(Ses(s', k).phase)
    ensures ClientClock(s.t, IdOf(k), x) ==> ClientClock(s'.t, IdOf(k), x)
    ensures DestClock(s.t, IdOf(k), x) ==> DestClock(s'.t, IdOf(k), x)
  {
    hide TableOk, SilentInv, RoutersWired, DestsWired, SessionsWired, LinksWired, Serials, HubDo, ClientDo, DestDo;
    AllocsGrow(cfg, s, st, s');
    match st
    case AtHub(h) => HubFrame(cfg, s, h, s'); HubClocks(cfg, s, h, s', k, x);
    case AtClient(c) => EntryStays(cfg, s, c, s', k);
    case AtDest(d) => DestFrame(cfg, s, d, s');
    case _ =>
  }

  // ---------------------------------------------------------------- runs

  /** The hub forwards a packet of the client, or a payload for it. */
  predicate ForwardsUp(s: State, st: Step, c: Id) {
    st.AtHub? && st.hub.ByClientLoop? && s.t.cpc.CSend? && s.t.cpc.m.id == c
  }

  predicate ForwardsDown(s: State, st: Step, c: Id) {
    st.AtHub? && st.hub.ByDestLoop? && s.t.dpc.DSend? && s.t.dpc.m.id == c
  }

  lemma ForwardSets(cfg: Config, s: State, st: Step, s': State, c: Id)
    requires Do(cfg, s, st) == Some(s')
    ensures ForwardsUp(s, st, c) ==> s'.t.cpc == CStamp(c, s.t.now)
    ensures ForwardsDown(s, st, c) ==> s'.t.dpc == DStamp(c, s.t.now)
  {
    hide HubGo, ClientIdle, DestIdle, TickGo, DrainGo, ClientDo, DestDo, KickStep, Assign;
    if ForwardsUp(s, st, c) {
      HubTable(cfg, s, ClientGo(cfg, s.t, st.hub.c.time), s');
    }
    if ForwardsDown(s, st, c) {
      HubTable(cfg, s, DestGo(cfg, s.t, st.hub.d.time), s');
    }
  }

  lemma {:induction false} ClocksRun(cfg: Config, r: Run, j: nat, i: nat, k: nat)
    requires ValidConfig(cfg) && IsRun(cfg, r) && j < i < |r.states| && Distinct(r.states[i], k)
    requires ForwardsUp(r.states[j], r.steps[j], IdOf(k)) || ForwardsDown(r.states[j], r.steps[j], IdOf(k))
    ensures HasEntry(Ses(r.states[i], k).phase)
    ensures ForwardsUp(r.states[j], r.steps[j], IdOf(k)) ==> ClientClock(r.states[i].t, IdOf(k), r.states[j].t.now)
    ensures ForwardsDown(r.states[j], r.steps[j], IdOf(k)) ==> DestClock(r.states[i].t, IdOf(k), r.states[j].t.now)
  {
    hide TableInv, ClientInv, SilentInv, Do, Init;
    AllocsGrow(cfg, r.states[i - 1], r.steps[i - 1], r.states[i]);
    TableHolds(cfg, r, i - 1);
    SilenceHolds(cfg, r, i - 1, k);
    if j + 1 == i {
      ClientHolds(cfg, r, j, k);
      HeldFacts(cfg, r.states[j], k);
      ForwardSets(cfg, r.states[j], r.steps[j], r.states[i], IdOf(k));
    } else {
      ClocksRun(cfg, r, j, i - 1, k);
    }
    ClocksKept(cfg, r.states[i - 1], r.steps[i - 1], r.states[i], k, r.states[j].t.now);
  }

  /**
   Keep-alive: once the hub has forwarded a client's data and is done with stamping it, the client's clock shows
   that time or a later one, as long as the client is in the table; and likewise for the destination's clock.
   */
  lemma HeardIsRecorded(cfg: Config, r: Run, j: nat, i: nat, k: nat)
    requires ValidConfig(cfg) && IsRun(cfg, r) && j < i < |r.states| && Distinct(r.states[i], k)
    requires IdOf(k) in r.states[i].t.clients
    ensures var t, c, x := r.states[i].t, IdOf(k), r.states[j].t.now;
      && (ForwardsUp(r.states[j], r.steps[j], c) && !(t.cpc.CStamp? && t.cpc.id == c) ==>
          x <= t.clients[c].lastClient <= t.now)
      && (ForwardsDown(r.states[j], r.steps[j], c) && !(t.dpc.DStamp? && t.dpc.id == c) ==>
          x <= t.clients[c].lastDest <= t.now)
  {
    hide Do, Init, Wired, Books, Names, Ages, RoutesKnown, PcsOk;
    var c := IdOf(k);
    TableHolds(cfg, r, i);
    if ForwardsUp(r.states[j], r.steps[j], c) || ForwardsDown(r.states[j], r.steps[j], c) {
      ClocksRun(cfg, r, j, i, k);
    }
  }

  /**
   So the first sweep lists no client that is younger than the maximum and that both sides were heard of, and
   stamped, within their timeouts.
   */
  lemma HeardIsSpared(cfg: Config, r: Run, up: nat, down: nat, i: nat, k: nat)
    requires ValidConfig(cfg) && IsRun(cfg, r) && up < i && down < i && i < |r.steps| && Distinct(r.states[i], k)
    requires ForwardsUp(r.states[up], r.steps[up], IdOf(k)) && ForwardsDown(r.states[down], r.steps[down], IdOf(k))
    requires var t, c := r.states[i].t, IdOf(k);
      && c in t.clients && !(t.cpc.CStamp? && t.cpc.id == c) && !(t.dpc.DStamp? && t.dpc.id == c)
      && t.now - r.states[up].t.now <= cfg.clientTimeout && t.now - r.states[down].t.now <= cfg.destTimeout
      && t.now - t.clients[c].created <= cfg.maxLength
      && !(t.tpc.TScan? && t.tpc.auth) && IdOf(k) !in Listed(t.tpc)
    ensures IdOf(k) !in Listed(r.states[i + 1].t.tpc)
  {
    hide Do, Init, Listed;
    HeardIsRecorded(cfg, r, up, i, k);
    HeardIsRecorded(cfg, r, down, i, k);
    if IdOf(k) in Listed(r.states[i + 1].t.tpc) {
      OnlyOverdueAreListed(cfg, r, i, IdOf(k));
    }
  }
}
