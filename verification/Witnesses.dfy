/**
 Runs that show where two natural readings of the hub's promises fail, and why `Silence` and `KickRuns`
 state the conditions they do.
 */
module Witnesses {
  import opened Types
  import opened Channels
  import opened ClientTable
  import opened Machine
  import opened ClientInvariant
  import opened KickRuns

  ghost function Last(r: Run): State
    requires r.states != []
  {
    r.states[|r.states| - 1]
  }

  function Start(cfg: Config): State {
    State(Table(map[], 0, 0, CIdle, DIdle, TIdle, ZWait, map[], map[], 0, 0, 0),
          EmptyChan(), EmptyChan(), EmptyChan(), EmptyChan(), EmptyChan(), EmptyChan(), map[],
          map n | n in cfg.clients :: NEW_ROUTER, map d | d in cfg.dests :: NEW_DEST, [], false)
  }

  /** A run can be prolonged by any step that is possible in its last state. */
  lemma Extend(cfg: Config, r: Run, st: Step) returns (r': Run)
    requires IsRun(cfg, r) && Do(cfg, Last(r), st).Some?
    ensures IsRun(cfg, r') && Last(r') == Do(cfg, Last(r), st).value
  {
    hide Do, Init;
    r' := Run(r.states + [Do(cfg, Last(r), st).value], r.steps + [st]);
    forall i | 0 <= i < |r'.steps| ensures Do(cfg, r'.states[i], r'.steps[i]) == Some(r'.states[i + 1]) {
      if i < |r.steps| {
        assert r'.states[i] == r.states[i] && r'.states[i + 1] == r.states[i + 1] && r'.steps[i] == r.steps[i];
      }
    }
  }

  ghost predicate Reachable(cfg: Config, s: State) {
    exists r: Run :: IsRun(cfg, r) && Last(r) == s
  }

  lemma StartReachable(cfg: Config)
    ensures Reachable(cfg, Start(cfg))
  {
    var r := Run([Start(cfg)], []);
    assert IsRun(cfg, r) && Last(r) == Start(cfg);
  }

  lemma Follow(cfg: Config, s: State, st: Step)
    requires Reachable(cfg, s) && Do(cfg, s, st).Some?
    ensures Reachable(cfg, Do(cfg, s, st).value)
  {
    hide Do, Init;
    var r: Run :| IsRun(cfg, r) && Last(r) == s;
    var r' := Extend(cfg, r, st);
  }

  // ---------------------------------------------------------------- a stale creation time

  /**
   The premises of `Silence.PromptBound` and `Silence.PromptSilence` are needed: with any configuration, any
   `K` and any delay `late` between reading the clock and entering the table, there is a run at whose end
   each plain bound holds if and only if the delay is within its limit. The client has no verdict and was
   never accepted.
   */
  lemma StaleClock(cfg: Config, router: Name, late: nat, K: nat) returns (s: State)
    requires router in cfg.clients && cfg.max > 0
    ensures Reachable(cfg, s) && 1 in s.t.clients && 1 in s.t.inserted && s.t.now - s.t.swept == K
    ensures s.t.inserted[1] - s.t.clients[1].created == late && !s.t.clients[1].connected && s.accepts == []
    ensures s.t.now - s.t.clients[1].created <= cfg.maxLength + K <==> late <= cfg.maxLength
    ensures s.t.now - s.t.clients[1].created <= cfg.authTimeout + K <==> late <= cfg.authTimeout
    ensures s.t.now - s.t.clients[1].lastClient <= cfg.clientTimeout + K <==> late <= cfg.clientTimeout
    ensures s.t.now - s.t.clients[1].lastDest <= cfg.destTimeout + K <==> late <= cfg.destTimeout
    ensures s.t.now - s.t.clients[1].created <= cfg.clientTimeout + K <==> late <= cfg.clientTimeout
  {
    hide Reachable;
    var a := Start(cfg);
    StartReachable(cfg);
    var s1 := a.(ses := map[1 := UNBORN.(owner := router, phase := Allocated(0))], t := a.t.(allocs := 1));
    assert Do(cfg, a, AtClient(Connection(router))) == Some(s1);
    var s2 := s1.(t := s1.t.(now := late));
    assert Do(cfg, s1, Wait(late)) == Some(s2);
    Follow(cfg, a, AtClient(Connection(router)));
    Follow(cfg, s1, Wait(late));
    var s3 := s2.(t := s2.t.(swept := late));
    EmptyTick(cfg, s2);
    var s4 := s3.(ses := map[1 := s3.ses[1].(phase := Created)], t := Entered(s3.t, 1, router, 0));
    assert s3.ses[1 := s3.ses[1].(phase := Created)] == s4.ses;
    assert Do(cfg, s3, AtClient(Admit(1, 0))) == Some(s4);
    Follow(cfg, s3, AtClient(Admit(1, 0)));
    s := s4.(t := s4.t.(now := late + K));
    assert Do(cfg, s4, Wait(K)) == Some(s);
    Follow(cfg, s4, Wait(K));
  }

  /** A step of a hub goroutine that sends nothing. */
  lemma FollowHub(cfg: Config, s: State, st: HubStep, t: Table)
    requires Reachable(cfg, s) && HubDo(cfg, s, st) == Some(s.(t := t))
    ensures Reachable(cfg, s.(t := t))
  {
    hide Reachable, HubDo;
    Follow(cfg, s, AtHub(st));
  }

  /** One of the two sweeps, in an empty table. */
  lemma EmptySweep(cfg: Config, s: State, auth: bool)
    requires Reachable(cfg, s) && s.t.clients == map[] && s.t.tpc == TList(s.t.now, auth, s.t.now)
    ensures Reachable(cfg, s.(t := s.t.(tpc := TSweep(s.t.now, auth, []))))
  {
    hide Reachable;
    var now, st := s.t.now, List(s.t.now, s.t.now, s.t.now, []);
    var t1 := s.t.(tpc := TScan(now, auth, DueAt(cfg, auth, st), [], []));
    FollowHub(cfg, s, ByTicker(st), t1);
    FollowHub(cfg, s.(t := t1), ByTicker(Advance), s.t.(tpc := TSweep(now, auth, [])));
  }

  /** A whole tick that finds an empty table. */
  lemma EmptyTick(cfg: Config, s: State)
    requires Reachable(cfg, s) && s.t.clients == map[] && s.t.tpc.TIdle?
    ensures Reachable(cfg, s.(t := s.t.(swept := s.t.now)))
  {
    hide Reachable;
    var now := s.t.now;
    var s1 := s.(t := s.t.(tpc := TList(now, false, now)));
    FollowHub(cfg, s, ByTicker(Begin), s1.t);
    EmptySweep(cfg, s1, false);
    var s2 := s.(t := s.t.(tpc := TList(now, true, now)));
    FollowHub(cfg, s.(t := s.t.(tpc := TSweep(now, false, []))), ByTicker(Advance), s2.t);
    EmptySweep(cfg, s2, true);
    FollowHub(cfg, s.(t := s.t.(tpc := TSweep(now, true, []))), ByTicker(Advance), s.t.(swept := now));
  }

  // ---------------------------------------------------------------- a client routed in the middle of a kick

  /** What the run needs of a configuration: a router, a destination that claims the packet, and some room. */
  ghost predicate Routes(cfg: Config, router: Name, packet: Bytes, auth: Auth, d: Name) {
    && ValidConfig(cfg) && router in cfg.clients && d in cfg.dests
    && cfg.parse(packet) == Some(auth) && FirstMatch(cfg.dests, cfg.matches, auth.conn) == Some(d)
    && cfg.room.inbox > 0 && cfg.room.clientIn > 0 && cfg.room.control > 0
  }

  /** A client has been linked; what it will ask for is up to it. */
  lemma LinkedReachable(cfg: Config, router: Name) returns (s: State)
    requires router in cfg.clients && cfg.max > 0
    ensures Reachable(cfg, s) && s.t == Entered(Start(cfg).t.(allocs := 1), 1, router, 0)
    ensures 1 in s.ses && s.ses[1] == UNBORN.(owner := router, phase := WaitAuth)
    ensures s == Start(cfg).(t := s.t, ses := s.ses, routers := s.routers)
    ensures router in s.routers && s.routers[router] == NEW_ROUTER.(links := map[1 := 1])
  {
    hide Reachable, FirstMatch;
    var a, born := Start(cfg), UNBORN.(owner := router);
    StartReachable(cfg);
    var s1 := a.(ses := a.ses[1 := born.(phase := Allocated(0))], t := a.t.(allocs := 1));
    assert Do(cfg, a, AtClient(Connection(router))) == Some(s1);
    Follow(cfg, a, AtClient(Connection(router)));
    var s2 := s1.(ses := s1.ses[1 := born.(phase := Created)], t := Entered(s1.t, 1, router, 0));
    assert Do(cfg, s1, AtClient(Admit(1, 0))) == Some(s2);
    Follow(cfg, s1, AtClient(Admit(1, 0)));
    var R := s2.routers[router];
    s := s2.(ses := s2.ses[1 := born.(phase := WaitAuth)],
             routers := s2.routers[router := R.(links := R.links[1 := 1])]);
    assert Do(cfg, s2, AtClient(Link(1))) == Some(s);
    Follow(cfg, s2, AtClient(Link(1)));
  }

  /** Its open request waits for the hub. */
  lemma AskedReachable(cfg: Config, router: Name, packet: Bytes, auth: Auth, d: Name) returns (s: State)
    requires Routes(cfg, router, packet, auth, d)
    ensures Reachable(cfg, s) && s.t == Entered(Start(cfg).t.(allocs := 1), 1, router, 0)
    ensures s.cOpens.queue == [Env(1, auth)] && s.dests == Start(cfg).dests
    ensures 1 in s.ses && s.ses[1].owner == router && s.ses[1].phase.WaitVerdict?
    ensures router in s.routers && s.routers[router].closes == EmptyChan()
  {
    hide Reachable, FirstMatch;
    var a := LinkedReachable(cfg, router);
    var S := a.ses[1].(inbox := a.ses[1].inbox.Put(packet));
    var s1 := a.(ses := a.ses[1 := S]);
    assert Do(cfg, a, AtClient(ByTransport(1, Push(packet)))) == Some(s1);
    Follow(cfg, a, AtClient(ByTransport(1, Push(packet))));
    var S2 := S.(inbox := S.inbox.Take(), phase := Opening(auth));
    var s2 := s1.(ses := s1.ses[1 := S2]);
    assert Do(cfg, s1, AtClient(BySession(1, Proceed))) == Some(s2);
    Follow(cfg, s1, AtClient(BySession(1, Proceed)));
    s := s2.(ses := s2.ses[1 := S2.(phase := WaitVerdict)], cOpens := Post(s2.cOpens, Env(1, auth)));
    assert Do(cfg, s2, AtClient(BySession(1, Proceed))) == Some(s);
    Follow(cfg, s2, AtClient(BySession(1, Proceed)));
  }

  /** A sweep has begun to list the table. */
  lemma ScanReachable(cfg: Config, s: State, cn: Name)
    requires Reachable(cfg, s) && s.t.clients == map[1 := Fresh(cn, 0)] && s.t.tpc.TIdle?
    ensures var st := List(s.t.now, s.t.now, s.t.now, [1]);
      Reachable(cfg, s.(t := s.t.(tpc := TScan(s.t.now, false, DueAt(cfg, false, st), [1], []))))
  {
    hide Reachable, DueAt;
    var now, st := s.t.now, List(s.t.now, s.t.now, s.t.now, [1]);
    var t1 := s.t.(tpc := TList(now, false, now));
    FollowHub(cfg, s, ByTicker(Begin), t1);
    FollowHub(cfg, s.(t := t1), ByTicker(st), s.t.(tpc := TScan(now, false, DueAt(cfg, false, st), [1], [])));
  }

  /** It has listed the client, which is past its age limit. */
  lemma ListedReachable(cfg: Config, s: State, cn: Name)
    requires Reachable(cfg, s) && s.t.clients == map[1 := Fresh(cn, 0)]
    requires s.t.now == cfg.maxLength + 1 && s.t.tpc.TIdle?
    ensures Reachable(cfg, s.(t := s.t.(tpc := TSweep(s.t.now, false, [1]))))
  {
    hide Reachable, ListsAll;
    var now, due := s.t.now, DueAt(cfg, false, List(s.t.now, s.t.now, s.t.now, [1]));
    ScanReachable(cfg, s, cn);
    var t2 := s.t.(tpc := TScan(now, false, due, [1], []));
    var none: seq<Id> := [];
    assert t2.tpc.rest[1..] == none && none + [1] == [1];
    var t3 := s.t.(tpc := TScan(now, false, due, [], [1]));
    FollowHub(cfg, s.(t := t2), ByTicker(Advance), t3);
    FollowHub(cfg, s.(t := t3), ByTicker(Advance), s.t.(tpc := TSweep(now, false, [1])));
  }

  /** It has begun to kick it, and read that it has no destination. */
  lemma ReadReachable(cfg: Config, a: State, cn: Name)
    requires Reachable(cfg, a) && a.t.clients == map[1 := Fresh(cn, 0)] && a.t.now == 0 && a.t.tpc.TIdle?
    ensures var now := cfg.maxLength + 1;
      Reachable(cfg, a.(t := a.t.(now := now, tpc := TKick(now, false, [], TellClient(1, cn, "")))))
  {
    hide Reachable;
    var now := cfg.maxLength + 1;
    var s := a.(t := a.t.(now := now));
    assert Do(cfg, a, Wait(now)) == Some(s);
    Follow(cfg, a, Wait(now));
    ListedReachable(cfg, s, cn);
    var s2 := s.(t := s.t.(tpc := TSweep(now, false, [1])));
    assert s2.t.tpc.todo[1..] == [];
    FollowHub(cfg, s2, ByTicker(Advance), s.t.(tpc := TKick(now, false, [], LookClient(1))));
    var s3 := s.(t := s.t.(tpc := TKick(now, false, [], LookClient(1))));
    FollowHub(cfg, s3, ByTicker(Advance), s.t.(tpc := TKick(now, false, [], LookDest(1, cn))));
    var s4 := s.(t := s.t.(tpc := TKick(now, false, [], LookDest(1, cn))));
    FollowHub(cfg, s4, ByTicker(Advance), s.t.(tpc := TKick(now, false, [], TellClient(1, cn, ""))));
  }

  /** Meanwhile the hub routes the client and forwards its open. */
  lemma RoutedReachable(cfg: Config, a: State, router: Name, packet: Bytes, auth: Auth, d: Name) returns (s: State)
    requires Routes(cfg, router, packet, auth, d) && Reachable(cfg, a)
    requires a.t.cpc.CIdle? && a.cOpens.queue == [Env(1, auth)] && a.t.clients == map[1 := Fresh(router, 0)]
    requires d in a.dests && a.dests[d] == NEW_DEST
    ensures Reachable(cfg, s) && s.ses == a.ses && s.routers == a.routers
    ensures s.t == a.t.(clients := SetDest(a.t.clients, 1, d), routed := a.t.routed[1 := d])
    ensures s.dests == a.dests[d := NEW_DEST.(opens := Post(EmptyChan(), Env(1, auth)))]
  {
    hide Reachable, FirstMatch;
    var o := Env(1, auth);
    var s1 := a.(cOpens := Pull(a.cOpens), t := a.t.(cpc := COpen(o)));
    assert Do(cfg, a, AtHub(ByClientLoop(FromOpens))) == Some(s1);
    Follow(cfg, a, AtHub(ByClientLoop(FromOpens)));
    FollowHub(cfg, s1, ByClientLoop(Go(0)), a.t.(cpc := CAssign(o)));
    var s2 := s1.(t := a.t.(cpc := CAssign(o)));
    var t3 := a.t.(clients := SetDest(a.t.clients, 1, d), routed := a.t.routed[1 := d], cpc := CForward(o, d));
    FollowHub(cfg, s2, ByClientLoop(Go(0)), t3);
    s := ForwardReachable(cfg, s2.(t := t3), d);
  }

  lemma ForwardReachable(cfg: Config, a: State, d: Name) returns (s: State)
    requires Reachable(cfg, a) && a.t.cpc.CForward? && a.t.cpc.dn == d && d in a.dests && a.dests[d] == NEW_DEST
    requires cfg.room.control > 0
    ensures Reachable(cfg, s) && s.ses == a.ses && s.routers == a.routers && s.t == a.t.(cpc := CIdle)
    ensures s.dests == a.dests[d := NEW_DEST.(opens := Post(EmptyChan(), a.t.cpc.o))]
  {
    hide Reachable;
    s := a.(t := a.t.(cpc := CIdle), dests := a.dests[d := NEW_DEST.(opens := Post(EmptyChan(), a.t.cpc.o))]);
    assert Do(cfg, a, AtHub(ByClientLoop(Go(0)))) == Some(s);
    Follow(cfg, a, AtHub(ByClientLoop(Go(0))));
  }

  /** The kick goes on with the names it read: it tells the router, and no destination. */
  lemma ForgottenReachable(cfg: Config, a: State, router: Name) returns (s: State)
    requires Reachable(cfg, a) && ValidConfig(cfg) && router in cfg.clients && cfg.room.control > 0
    requires a.t.tpc == TKick(cfg.maxLength + 1, false, [], TellClient(1, router, ""))
    requires router in a.routers && a.routers[router].closes == EmptyChan()
    ensures Reachable(cfg, s) && s.dests == a.dests && s.ses == a.ses && 1 !in s.t.clients && s.t.routed == a.t.routed
    ensures router in s.routers && SentTo(s.routers[router].closes, 1) == [()]
  {
    hide Reachable, SentTo, GotBy, For;
    NoneSent<()>(1);
    var now, R := cfg.maxLength + 1, a.routers[router];
    var s1 := a.(t := a.t.(tpc := TKick(now, false, [], TellDest(1, ""))),
                 routers := a.routers[router := R.(closes := Post(R.closes, Env(1, ())))]);
    assert Do(cfg, a, AtHub(ByTicker(Advance))) == Some(s1);
    Follow(cfg, a, AtHub(ByTicker(Advance)));
    FollowHub(cfg, s1, ByTicker(Advance), a.t.(tpc := TKick(now, false, [], Forget(1))));
    var s2 := s1.(t := a.t.(tpc := TKick(now, false, [], Forget(1))));
    s := s2.(t := Drop(s2.t, 1).(tpc := TSweep(now, false, [])));
    FollowHub(cfg, s2, ByTicker(Advance), s.t);
  }

  lemma NoneSent<T>(c: Id)
    ensures SentTo(EmptyChan<Env<T>>(), c) == []
  {
  }

  /**
   One way to miss exact accounts, with any configuration that can route at all: a client is routed and
   opened after a sweep's kick has read that it has no destination. It is then removed with one close for
   itself and none for its destination.
   */
  lemma RoutedDuringKick(cfg: Config, router: Name, packet: Bytes, auth: Auth, d: Name) returns (s: State)
    requires Routes(cfg, router, packet, auth, d)
    ensures Reachable(cfg, s) && Present(s, 1) && 1 !in s.t.clients && Get(s.t.routed, 1) == Some(d)
    ensures d in s.dests && SentTo(s.dests[d].opens, 1) == [auth]
    ensures ClosesDown(s, 1) == 1 && ClosesUp(s, d, 1) == 0
  {
    hide Reachable, FirstMatch, SentTo, GotBy, For;
    NoneSent<()>(1);
    NoneSent<Auth>(1);
    var a := AskedReachable(cfg, router, packet, auth, d);
    ReadReachable(cfg, a, router);
    var now := cfg.maxLength + 1;
    var b := a.(t := a.t.(now := now, tpc := TKick(now, false, [], TellClient(1, router, ""))));
    var e := RoutedReachable(cfg, b, router, packet, auth, d);
    s := ForgottenReachable(cfg, e, router);
  }

  // ---------------------------------------------------------------- two kicks at once

  /** The client hangs up before it has said anything, and its session asks the hub for a close. */
  lemma HungUpReachable(cfg: Config, router: Name) returns (s: State)
    requires router in cfg.clients && cfg.max > 0 && cfg.room.clientIn > 0
    ensures Reachable(cfg, s) && s.t == Entered(Start(cfg).t.(allocs := 1), 1, router, 0)
    ensures s.cCloses.queue == [Env(1, ())] && 1 in s.ses && s.ses[1].owner == router && s.ses[1].phase.Stopped?
    ensures router in s.routers && s.routers[router] == NEW_ROUTER.(links := map[1 := 1])
    ensures s.ses[1].closeReq == EmptyChan()
  {
    hide Reachable;
    var a := LinkedReachable(cfg, router);
    var S := a.ses[1].(clientClose := a.ses[1].clientClose.Put(()));
    var s1 := a.(ses := a.ses[1 := S]);
    assert Do(cfg, a, AtClient(ByTransport(1, HangUp))) == Some(s1);
    Follow(cfg, a, AtClient(ByTransport(1, HangUp)));
    var S2 := S.(clientClose := S.clientClose.Take(), phase := Asking);
    var s2 := s1.(ses := s1.ses[1 := S2]);
    assert Do(cfg, s1, AtClient(BySession(1, OnClientClose))) == Some(s2);
    Follow(cfg, s1, AtClient(BySession(1, OnClientClose)));
    s := s2.(ses := s2.ses[1 := S2.(phase := Stopped)], cCloses := Post(s2.cCloses, Env(1, ())));
    assert Do(cfg, s2, AtClient(BySession(1, Proceed))) == Some(s);
    Follow(cfg, s2, AtClient(BySession(1, Proceed)));
  }

  /** The hub takes that request while a sweep's kick is under way, and reads the same names. */
  lemma SecondReadReachable(cfg: Config, a: State, router: Name) returns (s: State)
    requires Reachable(cfg, a) && a.t.cpc.CIdle? && a.cCloses.queue == [Env(1, ())]
    requires a.t.clients == map[1 := Fresh(router, 0)]
    ensures Reachable(cfg, s) && s == a.(cCloses := s.cCloses, t := a.t.(cpc := CKick(TellClient(1, router, ""))))
  {
    hide Reachable;
    var s1 := a.(cCloses := Pull(a.cCloses), t := a.t.(cpc := CKick(LookClient(1))));
    assert Do(cfg, a, AtHub(ByClientLoop(FromCloses))) == Some(s1);
    Follow(cfg, a, AtHub(ByClientLoop(FromCloses)));
    FollowHub(cfg, s1, ByClientLoop(Go(0)), a.t.(cpc := CKick(LookDest(1, router))));
    var s2 := s1.(t := a.t.(cpc := CKick(LookDest(1, router))));
    s := s1.(t := a.t.(cpc := CKick(TellClient(1, router, ""))));
    FollowHub(cfg, s2, ByClientLoop(Go(0)), s.t);
  }

  /** The first close is sent and taken by the router. */
  lemma FirstToldReachable(cfg: Config, a: State, router: Name) returns (s: State)
    requires Reachable(cfg, a) && ValidConfig(cfg) && router in cfg.clients && cfg.room.control > 0
    requires a.t.tpc == TKick(cfg.maxLength + 1, false, [], TellClient(1, router, ""))
    requires router in a.routers && a.routers[router] == NEW_ROUTER.(links := map[1 := 1])
    ensures Reachable(cfg, s) && s.t == a.t.(tpc := TKick(cfg.maxLength + 1, false, [], TellDest(1, "")))
    ensures s == a.(t := s.t, routers := s.routers)
    ensures router in s.routers && s.routers[router].closes == Pull(Post(EmptyChan(), Env(1, ())))
    ensures s.routers[router].pc == RClose(1) && s.routers[router].links == map[1 := 1]
  {
    hide Reachable;
    var R := a.routers[router].(closes := Post(EmptyChan(), Env(1, ())));
    var s1 := a.(t := a.t.(tpc := TKick(cfg.maxLength + 1, false, [], TellDest(1, ""))),
                 routers := a.routers[router := R]);
    assert Do(cfg, a, AtHub(ByTicker(Advance))) == Some(s1);
    Follow(cfg, a, AtHub(ByTicker(Advance)));
    s := s1.(routers := s1.routers[router := R.(closes := Pull(R.closes), pc := RClose(1))]);
    assert Do(cfg, s1, AtClient(ByRouter(router, TakeClose))) == Some(s);
    Follow(cfg, s1, AtClient(ByRouter(router, TakeClose)));
  }

  /** The second close is sent. */
  lemma SecondToldReachable(cfg: Config, a: State, router: Name) returns (s: State)
    requires Reachable(cfg, a) && ValidConfig(cfg) && router in cfg.clients && cfg.room.control > 0
    requires a.t.cpc == CKick(TellClient(1, router, ""))
    requires router in a.routers && a.routers[router].closes == Pull(Post(EmptyChan(), Env(1, ())))
    ensures Reachable(cfg, s) && s == a.(t := a.t.(cpc := CKick(TellDest(1, ""))), routers := s.routers)
    ensures router in s.routers
    ensures s.routers[router] == a.routers[router].(closes := Post(a.routers[router].closes, Env(1, ())))
  {
    hide Reachable;
    var R := a.routers[router];
    s := a.(t := a.t.(cpc := CKick(TellDest(1, ""))),
            routers := a.routers[router := R.(closes := Post(R.closes, Env(1, ())))]);
    assert Do(cfg, a, AtHub(ByClientLoop(Go(0)))) == Some(s);
    Follow(cfg, a, AtHub(ByClientLoop(Go(0))));
  }

  /** Both kicks come to their end. */
  lemma BothEndReachable(cfg: Config, a: State) returns (s: State)
    requires Reachable(cfg, a) && ValidConfig(cfg)
    requires a.t.tpc == TKick(cfg.maxLength + 1, false, [], TellDest(1, "")) && a.t.cpc == CKick(TellDest(1, ""))
    ensures Reachable(cfg, s) && s == a.(t := s.t)
    ensures 1 !in s.t.clients && s.t.cpc.CIdle? && s.t.tpc.TSweep? && s.t.dpc == a.t.dpc
  {
    hide Reachable;
    var now := cfg.maxLength + 1;
    var t1 := a.t.(cpc := CKick(Forget(1)));
    FollowHub(cfg, a, ByClientLoop(Go(0)), t1);
    var t2 := Drop(t1, 1).(cpc := CIdle);
    FollowHub(cfg, a.(t := t1), ByClientLoop(Go(0)), t2);
    var t3 := t2.(tpc := TKick(now, false, [], Forget(1)));
    FollowHub(cfg, a.(t := t2), ByTicker(Advance), t3);
    s := a.(t := Drop(t3, 1).(tpc := TSweep(now, false, [])));
    FollowHub(cfg, a.(t := t3), ByTicker(Advance), s.t);
  }

  /**
   The other way to miss exact accounts, again with any configuration: a sweep and the client's own hanging
   up both find the client, and it is sent two closes.
   */
  lemma KickedTwice(cfg: Config, router: Name) returns (s: State)
    requires ValidConfig(cfg) && router in cfg.clients && cfg.room.clientIn > 0 && cfg.room.control > 0
    ensures Reachable(cfg, s) && Present(s, 1) && 1 !in s.t.clients && ClosesDown(s, 1) == 2
    ensures s.t.cpc.CIdle? && s.t.dpc.DIdle? && s.t.tpc.TSweep?
    ensures 1 in s.ses && s.ses[1].phase.Stopped? && s.ses[1].closeReq == EmptyChan()
    ensures router in s.routers && s.routers[router].pc == RClose(1) && s.routers[router].links == map[1 := 1]
    ensures s.routers[router].closes.queue == [Env(1, ())]
  {
    hide Reachable, SentTo, GotBy, For;
    NoneSent<()>(1);
    var a := HungUpReachable(cfg, router);
    ReadReachable(cfg, a, router);
    var now := cfg.maxLength + 1;
    var b := a.(t := a.t.(now := now, tpc := TKick(now, false, [], TellClient(1, router, ""))));
    var e := SecondReadReachable(cfg, b, router);
    var f := FirstToldReachable(cfg, e, router);
    var g := SecondToldReachable(cfg, f, router);
    s := BothEndReachable(cfg, g);
    assert SentTo(s.routers[router].closes, 1) == [()] + [()];
  }

  /**
   What two closes do: the session has stopped and reads nothing any more, the first close fills its channel, and
   the router is left holding the second.
   */
  lemma ClashHoldsUpRouter(cfg: Config, router: Name) returns (s: State)
    requires ValidConfig(cfg) && router in cfg.clients && cfg.room.clientIn > 0 && cfg.room.control > 0
    ensures Reachable(cfg, s) && router in s.routers && s.routers[router].pc == RClose(1)
    ensures 1 in s.ses && forall done, st :: SessionGo(cfg, s.ses[1], done, st).None?
    ensures ClientDo(cfg, s, Demux(router)).None?
  {
    hide Reachable, SentTo, GotBy, For, HubDo, DestDo, ClosesDown;
    var a := KickedTwice(cfg, router);
    var R, S := a.routers[router], a.ses[1];
    var b := a.(ses := a.ses[1 := S.(closeReq := S.closeReq.Put(()))], routers := a.routers[router := R.(pc := RIdle)]);
    assert Do(cfg, a, AtClient(Demux(router))) == Some(b);
    Follow(cfg, a, AtClient(Demux(router)));
    s := b.(routers := b.routers[router := R.(closes := Pull(R.closes))]);
    assert Do(cfg, b, AtClient(ByRouter(router, TakeClose))) == Some(s);
    Follow(cfg, b, AtClient(ByRouter(router, TakeClose)));
  }

  // ---------------------------------------------------------------- the drain

  /** After the shutdown signal the three hub goroutines end, and the drain begins. */
  lemma DrainReachable(cfg: Config, a: State)
    requires Reachable(cfg, a) && a.t.cpc.CIdle? && a.t.dpc.DIdle? && a.t.tpc.TIdle? && a.t.zpc.ZWait?
    ensures Reachable(cfg, a.(shutdown := true, t := a.t.(cpc := CExit, dpc := DExit, tpc := TExit, zpc := ZPick)))
  {
    hide Reachable;
    var s := a.(shutdown := true);
    assert Do(cfg, a, Shutdown) == Some(s);
    Follow(cfg, a, Shutdown);
    var t1 := a.t.(cpc := CExit);
    FollowHub(cfg, s, ByClientLoop(Quit), t1);
    var t2 := t1.(dpc := DExit);
    FollowHub(cfg, s.(t := t1), ByDestLoop(Quit), t2);
    var t3 := t2.(tpc := TExit);
    FollowHub(cfg, s.(t := t2), Quits, t3);
    FollowHub(cfg, s.(t := t3), ByDrain(0), t3.(zpc := ZPick));
  }

  /** The drain finds the one client and tells it. */
  lemma FoundReachable(cfg: Config, a: State, router: Name) returns (s: State)
    requires Reachable(cfg, a) && ValidConfig(cfg) && router in cfg.clients && cfg.room.control > 0
    requires a.t.clients == map[1 := Fresh(router, 0)] && a.t.zpc.ZPick?
    requires router in a.routers && a.routers[router].closes == EmptyChan()
    ensures Reachable(cfg, s) && s == a.(t := a.t.(zpc := ZTellDest(1)), routers := s.routers)
    ensures router in s.routers && s.routers[router].closes == Post(EmptyChan(), Env(1, ()))
  {
    hide Reachable;
    var R := a.routers[router];
    var t1 := a.t.(zpc := ZTellClient(1));
    assert 1 in a.t.clients;
    FollowHub(cfg, a, ByDrain(1), t1);
    s := a.(t := a.t.(zpc := ZTellDest(1)),
            routers := a.routers[router := R.(closes := Post(R.closes, Env(1, ())))]);
    assert Do(cfg, a.(t := t1), AtHub(ByDrain(0))) == Some(s);
    Follow(cfg, a.(t := t1), AtHub(ByDrain(0)));
  }

  /** It forgets it, and is done. */
  lemma DrainedReachable(cfg: Config, b: State, router: Name) returns (s: State)
    requires Reachable(cfg, b) && b.t.clients == map[1 := Fresh(router, 0)] && b.t.zpc == ZTellDest(1)
    ensures Reachable(cfg, s) && s == b.(t := s.t) && s.t.clients == map[] && s.t.zpc.ZDone?
  {
    hide Reachable;
    var t3 := b.t.(zpc := ZDrop(1));
    FollowHub(cfg, b, ByDrain(0), t3);
    var t4 := Drop(t3, 1).(zpc := ZPick);
    FollowHub(cfg, b.(t := t3), ByDrain(0), t4);
    assert t4.clients == map[];
    s := b.(t := t4.(zpc := ZDone));
    FollowHub(cfg, b.(t := t4), ByDrain(0), s.t);
  }

  /** A shutdown can run to its end, with any configuration: the drain finds a client, tells it and leaves nobody. */
  lemma ShutdownEnds(cfg: Config, router: Name) returns (s: State)
    requires ValidConfig(cfg) && router in cfg.clients && cfg.room.control > 0
    ensures Reachable(cfg, s) && s.t.zpc.ZDone? && s.t.clients == map[] && Present(s, 1) && ClosesDown(s, 1) == 1
  {
    hide Reachable, SentTo, GotBy, For;
    NoneSent<()>(1);
    var a := LinkedReachable(cfg, router);
    DrainReachable(cfg, a);
    var b := a.(shutdown := true, t := a.t.(cpc := CExit, dpc := DExit, tpc := TExit, zpc := ZPick));
    var e := FoundReachable(cfg, b, router);
    s := DrainedReachable(cfg, e, router);
  }
}
