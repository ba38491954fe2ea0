/**
 A `select` may take any case that is ready: every goroutine that waits can take each message or signal that has
 arrived for it, and holds what it took. What it does then is the subject of the other modules.
 */
module Selects {
  import opened Types
  import opened Channels
  import opened Machine

  /** The client-side goroutine of the hub. */
  lemma ClientLoopTakes(cfg: Config, s: State)
    requires s.t.cpc.CIdle?
    ensures s.cMsgs.queue != [] ==> var r := HubDo(cfg, s, ByClientLoop(FromMsgs));
      r.Some? && r.value.t == s.t.(cpc := CMsg(s.cMsgs.queue[0])) && r.value.cMsgs.queue == s.cMsgs.queue[1..]
    ensures s.cOpens.queue != [] ==> var r := HubDo(cfg, s, ByClientLoop(FromOpens));
      r.Some? && r.value.t == s.t.(cpc := COpen(s.cOpens.queue[0])) && r.value.cOpens.queue == s.cOpens.queue[1..]
    ensures s.cCloses.queue != [] ==> var r := HubDo(cfg, s, ByClientLoop(FromCloses));
      && r.Some? && r.value.t == s.t.(cpc := CKick(LookClient(s.cCloses.queue[0].id)))
      && r.value.cCloses.queue == s.cCloses.queue[1..]
    ensures s.shutdown <==> HubDo(cfg, s, ByClientLoop(Quit)).Some?
  {
    hide SentTo, GotBy, For, ClientGo, DestGo, TickGo, DrainGo;
  }

  /** The destination-side goroutine. */
  lemma DestLoopTakes(cfg: Config, s: State)
    requires s.t.dpc.DIdle?
    ensures s.dMsgs.queue != [] ==> var r := HubDo(cfg, s, ByDestLoop(FromMsgs));
      r.Some? && r.value.t == s.t.(dpc := DMsg(s.dMsgs.queue[0])) && r.value.dMsgs.queue == s.dMsgs.queue[1..]
    ensures s.dVerdicts.queue != [] ==> var r := HubDo(cfg, s, ByDestLoop(FromOpens));
      && r.Some? && r.value.t == s.t.(dpc := DVerdict(s.dVerdicts.queue[0]))
      && r.value.dVerdicts.queue == s.dVerdicts.queue[1..]
    ensures s.dCloses.queue != [] ==> var r := HubDo(cfg, s, ByDestLoop(FromCloses));
      && r.Some? && r.value.t == s.t.(dpc := DKick(LookClient(s.dCloses.queue[0].id)))
      && r.value.dCloses.queue == s.dCloses.queue[1..]
    ensures s.shutdown <==> HubDo(cfg, s, ByDestLoop(Quit)).Some?
  {
    hide SentTo, GotBy, For, ClientGo, DestGo, TickGo, DrainGo;
  }

  /** A session: it gives up exactly when its context is done, and takes whichever signal or packet is there. */
  lemma SessionTakes(cfg: Config, S: Session, done: bool)
    ensures S.phase.WaitAuth? || S.phase.WaitVerdict? ==>
      && (SessionGo(cfg, S, done, GiveUp).Some? <==> done)
      && (SessionGo(cfg, S, done, OnClientClose).Some? <==> S.clientClose.queue != [])
      && (SessionGo(cfg, S, done, OnCloseReq).Some? <==> S.closeReq.queue != [])
    ensures S.phase.WaitAuth? ==> (SessionGo(cfg, S, done, Proceed).Some? <==> S.inbox.queue != [])
    ensures S.phase.WaitVerdict? ==> (SessionGo(cfg, S, done, Proceed).Some? <==> S.verdictQ.queue != [])
    ensures S.phase.Relaying? && S.phase.out.OutIdle? ==>
      && (SessionGo(cfg, S, done, OutTake).Some? <==> S.outQ.queue != [])
      && (SessionGo(cfg, S, done, OutClose).Some? <==> S.closeReq.queue != [])
    ensures S.phase.Relaying? && S.phase.inn.InIdle? ==>
      && (SessionGo(cfg, S, done, InTake).Some? <==> S.inbox.queue != [])
      && (SessionGo(cfg, S, done, InCancel).Some? <==> done)
      && (SessionGo(cfg, S, done, InClose).Some? <==> S.closeReq.queue != [])
      && (SessionGo(cfg, S, done, InIgnore).Some? <==> S.clientClose.queue != [])
  {
  }

  /** A relay goroutine that ignores its client's signal goes on as before. */
  lemma IgnoredSignal(cfg: Config, S: Session, done: bool)
    requires S.phase.Relaying? && SessionGo(cfg, S, done, InIgnore).Some?
    ensures SessionGo(cfg, S, done, InIgnore).value == (S.(clientClose := S.clientClose.Take()), Quiet)
  {
  }

  /** The context of a session is done when its transport has cancelled it or the hub shuts down. */
  lemma ContextEnds(cfg: Config, s: State, n: nat)
    requires n in s.ses && (s.ses[n].phase.WaitAuth? || s.ses[n].phase.WaitVerdict?)
    ensures ClientDo(cfg, s, BySession(n, GiveUp)).Some? <==> s.ses[n].cancelled || s.shutdown
    ensures var r := ClientDo(cfg, s, ByTransport(n, Cancel)); r.Some? && n in r.value.ses && r.value.ses[n].cancelled
    ensures var r := Do(cfg, s, Shutdown); r.Some? && r.value.shutdown
  {
  }

  /** The transport's end: it takes packets and the close signal in order, and signals once. */
  lemma TransportTakes(cfg: Config, S: Session)
    ensures TransportGo(cfg, S, Fetch).Some? <==> S.packets.queue != []
    ensures S.packets.queue != [] ==> TransportGo(cfg, S, Fetch).value.packets.queue == S.packets.queue[1..]
    ensures TransportGo(cfg, S, Notice).Some? <==> S.proxyClose.queue != []
    ensures S.proxyClose.queue != [] ==> TransportGo(cfg, S, Notice).value.proxyClose.queue == S.proxyClose.queue[1..]
    ensures TransportGo(cfg, S, HangUp).Some? <==> S.clientClose.queue == []
    ensures S.clientClose.queue == [] ==> TransportGo(cfg, S, HangUp).value.clientClose.queue == [()]
  {
  }

  /** A router's demultiplexer and a destination's command goroutine. */
  lemma RouterTakes(R: Router, shutdown: bool)
    requires R.pc.RIdle?
    ensures RouterTake(R, TakeMsg, shutdown).Some? <==> R.msgs.queue != []
    ensures RouterTake(R, TakeVerdict, shutdown).Some? <==> R.verdicts.queue != []
    ensures RouterTake(R, TakeClose, shutdown).Some? <==> R.closes.queue != []
    ensures RouterTake(R, Leave, shutdown).Some? <==> shutdown
  {
    hide SentTo, GotBy, For;
  }

  lemma UdpTakes(D: Dest, shutdown: bool)
    requires D.pc.UIdle?
    ensures D.opens.queue != [] ==> var r := UdpTake(D, TakeOpen, shutdown);
      r.Some? && r.value.pc == UOpen(D.opens.queue[0]) && r.value.opens.queue == D.opens.queue[1..]
    ensures D.msgs.queue != [] ==> var r := UdpTake(D, TakeUp, shutdown);
      r.Some? && r.value.pc == UMsg(D.msgs.queue[0]) && r.value.msgs.queue == D.msgs.queue[1..]
    ensures D.closes.queue != [] ==> var r := UdpTake(D, TakeEnd, shutdown);
      r.Some? && r.value.pc == UClose(D.closes.queue[0].id) && r.value.closes.queue == D.closes.queue[1..]
    ensures UdpTake(D, Depart, shutdown).Some? <==> shutdown
  {
    hide SentTo, GotBy, For;
  }
}
