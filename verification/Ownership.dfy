/** Who may hold a client, and the routing errors that cannot happen. */
module Ownership {
  import opened Types
  import opened Channels
  import opened ClientTable
  import opened Machine
  import opened TableSafety
  import opened ClientInvariant
  import opened ClientSideProof
  import opened HubProof
  import opened DestProof
  import opened Runs

  /**
   In every state a client is in the map of at most its own router, its table entry names that router,
   and only the destination it was routed to, the one its entry names, can have it registered.
   */
  lemma OneOwner(cfg: Config, r: Run, i: nat, k: nat, n: Name, d: Name)
    requires ValidConfig(cfg) && IsRun(cfg, r) && i < |r.states| && Distinct(r.states[i], k)
    ensures var s, c := r.states[i], IdOf(k);
      && (n in s.routers && c in s.routers[n].links ==> n == Ses(s, k).owner && s.routers[n].links[c] == k)
      && (c in s.t.clients ==> s.t.clients[c].client == Ses(s, k).owner)
      && (d in s.dests && c in s.dests[d].reg ==> Get(s.t.routed, c) == Some(d))
      && (d in s.dests && c in s.dests[d].reg && c in s.t.clients ==> s.t.clients[c].dest == d)
  {
    hide IsRun, MySession, DestsOk, ClientPcOk, DestPcOk, UpHop, DownHop, AllBacked, Reached, SentTo, GotBy, For;
    var s, c := r.states[i], IdOf(k);
    ClientHolds(cfg, r, i, k);
    if n in s.routers {
      assert RouterOk(n, s.routers[n], c, k, Ses(s, k), For(s.accepts, c));
    }
    if d in s.dests && c in s.dests[d].reg {
      RegisteredReached(cfg, s, d, k);
    }
  }

  /** A client found in the table always has a registered router, so that routing error is unreachable. */
  lemma RouterIsKnown(cfg: Config, r: Run, i: nat, id: Id)
    requires ValidConfig(cfg) && IsRun(cfg, r) && i < |r.states| && id in r.states[i].t.clients
    ensures ClientName(r.states[i].t.clients, id) in cfg.clients
    ensures ClientName(r.states[i].t.clients, id) in r.states[i].routers
  {
    hide IsRun, Books, Times, Ages;
    TableHolds(cfg, r, i);
    assert NamesOf(cfg, r.states[i].t.clients[id]);
  }

  /** Data relayed for a client that is in the table always finds its destination. */
  lemma DestinationIsKnown(cfg: Config, r: Run, i: nat, k: nat)
    requires ValidConfig(cfg) && IsRun(cfg, r) && i < |r.states| && Distinct(r.states[i], k)
    requires r.states[i].t.cpc.CMsg? && r.states[i].t.cpc.m.id == IdOf(k) && IdOf(k) in r.states[i].t.clients
    ensures DestName(r.states[i].t.clients, IdOf(k)) in cfg.dests
  {
    hide IsRun, MySession, RoutersOk, DestsOk, ClientPcOk, DestPcOk, DownHop, AllBacked, TableOk, Forwarded, SentTo,
      GotBy, For;
    var s, c := r.states[i], IdOf(k);
    TableHolds(cfg, r, i);
    ClientHolds(cfg, r, i, k);
    GotIsPrefix(s.cMsgs, c);
    if GotBy(s.cMsgs, c) != [] {
      Relayed(cfg, s, k);
    }
  }

  /** Every run keeps the table within its capacity, and its clients accounted for. */
  lemma Conservation(cfg: Config, r: Run, i: nat)
    requires ValidConfig(cfg) && IsRun(cfg, r) && i < |r.states|
    ensures var t := r.states[i].t; |t.clients| <= cfg.max && t.made == t.dropped + |t.clients|
  {
    hide IsRun, Names, Times, Ages, Wired;
    TableHolds(cfg, r, i);
  }
}
