/**
 The hub on its own, fed by anything: whatever messages arrive, in whatever number, and however its
 goroutines interleave, it forwards a client to at most one destination, at most once.
 */
module OpenOnce {
  import opened Types
  import opened Machine
  import opened ClientInvariant
  import TableSafety

  /** The hub's table and everything it has sent. */
  datatype Alone = Alone(t: Table, sent: seq<Out>)

  /** What can happen to the hub: it receives any message, goes on, the clock moves, or a new id enters. */
  ghost predicate AloneStep(cfg: Config, a: Alone, b: Alone) {
    || (a.t.cpc.CIdle? && !b.t.cpc.CAssign? && !b.t.cpc.CForward? && b == a.(t := a.t.(cpc := b.t.cpc)))
    || (a.t.dpc.DIdle? && b == a.(t := a.t.(dpc := b.t.dpc)))
    || (exists time: int :: Went(a, b, ClientGo(cfg, a.t, time)))
    || (exists time: int :: Went(a, b, DestGo(cfg, a.t, time)))
    || (exists st: TickStep :: Went(a, b, TickGo(cfg, a.t, st)))
    || (exists pick: Id :: Went(a, b, DrainGo(cfg, a.t, pick)))
    || (exists now: int :: b == a.(t := a.t.(now := now)))
    || (exists id: Id, owner: Name, time: int :: NewClient(a, b, id, owner, time))
  }

  ghost predicate Went(a: Alone, b: Alone, r: Option<(Table, Out)>) {
    r.Some? && b == Alone(r.value.0, a.sent + [r.value.1])
  }

  /** An id that was never routed and is not being handled enters the table. */
  ghost predicate NewClient(a: Alone, b: Alone, id: Id, owner: Name, time: int) {
    id !in a.t.clients && id !in a.t.routed && b == a.(t := Entered(a.t, id, owner, time))
  }

  /** How many open commands for `c` are among what was sent. */
  function Opens(sent: seq<Out>, c: Id): nat {
    if sent == [] then 0 else Opens(sent[..|sent| - 1], c) + if IsOpen(sent[|sent| - 1], c) then 1 else 0
  }

  predicate IsOpen(o: Out, c: Id) {
    o.OpenUp? && o.open.id == c
  }

  /** Every open command for `c` went where `c` is routed. */
  ghost predicate OpensFollow(sent: seq<Out>, c: Id, route: Option<Name>) {
    forall i :: 0 <= i < |sent| && IsOpen(sent[i], c) ==> route == Some(sent[i].dest)
  }

  function Waiting(t: Table, c: Id): nat {
    if t.cpc.CForward? && t.cpc.o.id == c then 1 else 0
  }

  /** An entry shows the route of its client, and a routed client has one open command, sent or about to be. */
  ghost predicate RouteShown(t: Table, c: Id) {
    && (c in t.clients ==> t.clients[c].dest == if c in t.routed then t.routed[c] else "")
    && (c in t.routed ==> t.routed[c] != "")
    && (t.cpc.CAssign? && t.cpc.o.id == c ==> c !in t.routed)
    && (t.cpc.CForward? && t.cpc.o.id == c ==> c in t.routed && t.routed[c] == t.cpc.dn)
  }

  ghost predicate Once(a: Alone, c: Id) {
    && RouteShown(a.t, c)
    && Opens(a.sent, c) + Waiting(a.t, c) == (if c in a.t.routed then 1 else 0)
    && OpensFollow(a.sent, c, Get(a.t.routed, c))
  }

  /** One more thing sent keeps the accounts if it is counted. */
  lemma SentMore(a: Alone, t: Table, o: Out, c: Id)
    requires Once(a, c) && RouteShown(t, c)
    requires Waiting(t, c) + (if IsOpen(o, c) then 1 else 0) - Waiting(a.t, c)
      == (if c in t.routed then 1 else 0) - if c in a.t.routed then 1 else 0
    requires IsOpen(o, c) || c in a.t.routed ==> Get(t.routed, c) == Get(a.t.routed, c)
    requires IsOpen(o, c) ==> Get(t.routed, c) == Some(o.dest)
    ensures Once(Alone(t, a.sent + [o]), c)
  {
    assert (a.sent + [o])[..|a.sent|] == a.sent;
  }

  /** The goroutine that routes: only it assigns and opens. */
  lemma ClientOnce(cfg: Config, a: Alone, time: int, c: Id)
    requires "" !in cfg.dests && Once(a, c) && ClientGo(cfg, a.t, time).Some?
    ensures var r := ClientGo(cfg, a.t, time).value; Once(Alone(r.0, a.sent + [r.1]), c) && SameRoute(a.t, r.0, c)
  {
    hide Opens, OpensFollow, FirstMatch;
    var t := a.t;
    var r := ClientGo(cfg, t, time).value;
    if t.cpc.CAssign? {
      TableSafety.FirstMatchIn(cfg.dests, cfg.matches, t.cpc.o.body.conn);
    }
    SentMore(a, r.0, r.1, c);
  }

  lemma DestOnce(cfg: Config, a: Alone, time: int, c: Id)
    requires Once(a, c) && DestGo(cfg, a.t, time).Some?
    ensures var r := DestGo(cfg, a.t, time).value; Once(Alone(r.0, a.sent + [r.1]), c) && SameRoute(a.t, r.0, c)
  {
    hide Opens, OpensFollow;
    var r := DestGo(cfg, a.t, time).value;
    SentMore(a, r.0, r.1, c);
  }

  lemma TickOnce(cfg: Config, a: Alone, st: TickStep, c: Id)
    requires Once(a, c) && TickGo(cfg, a.t, st).Some?
    ensures var r := TickGo(cfg, a.t, st).value; Once(Alone(r.0, a.sent + [r.1]), c) && SameRoute(a.t, r.0, c)
  {
    hide Opens, OpensFollow, Due;
    var r := TickGo(cfg, a.t, st).value;
    SentMore(a, r.0, r.1, c);
  }

  lemma DrainOnce(cfg: Config, a: Alone, pick: Id, c: Id)
    requires Once(a, c) && DrainGo(cfg, a.t, pick).Some?
    ensures var r := DrainGo(cfg, a.t, pick).value; Once(Alone(r.0, a.sent + [r.1]), c) && SameRoute(a.t, r.0, c)
  {
    hide Opens, OpensFollow;
    var r := DrainGo(cfg, a.t, pick).value;
    SentMore(a, r.0, r.1, c);
  }

  predicate SameRoute(t: Table, t': Table, c: Id) {
    c in t.routed ==> c in t'.routed && t'.routed[c] == t.routed[c]
  }

  lemma OnceKeeps(cfg: Config, a: Alone, b: Alone, c: Id)
    requires "" !in cfg.dests && Once(a, c) && AloneStep(cfg, a, b)
    ensures Once(b, c) && SameRoute(a.t, b.t, c)
  {
    hide Opens, OpensFollow, ClientGo, DestGo, TickGo, DrainGo;
    if time: int :| Went(a, b, ClientGo(cfg, a.t, time)) {
      ClientOnce(cfg, a, time, c);
    } else if time: int :| Went(a, b, DestGo(cfg, a.t, time)) {
      DestOnce(cfg, a, time, c);
    } else if st: TickStep :| Went(a, b, TickGo(cfg, a.t, st)) {
      TickOnce(cfg, a, st, c);
    } else if pick: Id :| Went(a, b, DrainGo(cfg, a.t, pick)) {
      DrainOnce(cfg, a, pick, c);
    }
  }

  /** The states of a hub on its own, from start. */
  ghost predicate AloneRun(cfg: Config, run: seq<Alone>) {
    && |run| > 0
    && run[0] == Alone(Table(map[], 0, 0, CIdle, DIdle, TIdle, ZWait, map[], map[], 0, 0, 0), [])
    && forall i :: 0 <= i < |run| - 1 ==> AloneStep(cfg, run[i], run[i + 1])
  }

  lemma {:induction false} OnceHolds(cfg: Config, run: seq<Alone>, i: nat, c: Id)
    requires "" !in cfg.dests && AloneRun(cfg, run) && i < |run|
    ensures Once(run[i], c)
  {
    hide AloneStep, Once;
    if i == 0 {
      StartsOnce(run[0], c);
    } else {
      OnceHolds(cfg, run, i - 1, c);
      assert AloneStep(cfg, run[i - 1], run[i - 1 + 1]);
      OnceKeeps(cfg, run[i - 1], run[i], c);
    }
  }

  lemma StartsOnce(a: Alone, c: Id)
    requires a.t.clients == map[] && a.t.routed == map[] && a.t.cpc.CIdle? && a.sent == []
    ensures Once(a, c)
  {
  }

  lemma {:induction false} RouteLasts(cfg: Config, run: seq<Alone>, i: nat, j: nat, c: Id)
    requires "" !in cfg.dests && AloneRun(cfg, run) && i <= j < |run|
    ensures SameRoute(run[i].t, run[j].t, c)
    decreases j - i
  {
    hide AloneStep, Once;
    if i < j {
      RouteLasts(cfg, run, i, j - 1, c);
      OnceHolds(cfg, run, j - 1, c);
      assert AloneStep(cfg, run[j - 1], run[j - 1 + 1]);
      OnceKeeps(cfg, run[j - 1], run[j], c);
    }
  }

  /**
   Whatever duplicate opens arrive and however removals interleave between the lookup and the
   assignment, a client is forwarded at most once; a client's destination name, once set, is the name
   every later entry state shows; and the one open that was sent went to that destination.
   */
  lemma OpenedAtMostOnce(cfg: Config, run: seq<Alone>, i: nat, j: nat, c: Id)
    requires "" !in cfg.dests && AloneRun(cfg, run) && i <= j < |run|
    ensures Opens(run[j].sent, c) <= 1
    ensures c in run[i].t.clients && c in run[j].t.clients && run[i].t.clients[c].dest != "" ==>
      run[j].t.clients[c].dest == run[i].t.clients[c].dest
    ensures c in run[i].t.clients && run[i].t.clients[c].dest != "" ==>
      OpensFollow(run[j].sent, c, Some(run[i].t.clients[c].dest))
  {
    hide AloneRun, Opens, OpensFollow;
    OnceHolds(cfg, run, i, c);
    OnceHolds(cfg, run, j, c);
    RouteLasts(cfg, run, i, j, c);
  }
}
