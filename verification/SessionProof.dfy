/** A session keeps its part of the client invariant, whatever it, its transport or its router does. */
module SessionProof {
  import opened Types
  import opened Machine
  import opened Grammar
  import opened ClientInvariant

  function OpensAfter(opens: seq<Auth>, e: Emit): seq<Auth> {
    if e.EmitOpen? then opens + [e.auth] else opens
  }

  function UpsAfter(ups: seq<Bytes>, e: Emit): seq<Bytes> {
    if e.EmitData? then ups + [e.data] else ups
  }

  lemma SessionGoOk(cfg: Config, S: Session, done: bool, st: SessionStep,
                    opens: seq<Auth>, ups: seq<Bytes>, accepts: seq<Bytes>)
    requires SessionOk(cfg, S, opens, ups, accepts) && SessionGo(cfg, S, done, st).Some?
    ensures var r := SessionGo(cfg, S, done, st).value;
      SessionOk(cfg, r.0, OpensAfter(opens, r.1), UpsAfter(ups, r.1), accepts)
  {
    hide OutGo, InGo, HandshakeGo, BreakOff, SessionOk, OpensAfter, UpsAfter;
    if S.phase.Relaying? {
      QuietAfter(opens, ups);
      if st.OutTake? || st.OutSend? || st.OutClose? || st.OutTell? {
        OutGoOk(cfg, S, st, opens, ups, accepts);
      } else {
        InGoOk(cfg, S, done, st, opens, ups, accepts);
      }
    } else if st.Proceed? {
      HandshakeGoOk(cfg, S, opens, ups, accepts);
    } else {
      BreakOffOk(cfg, S, done, st, opens, ups, accepts);
    }
  }

  lemma QuietAfter(opens: seq<Auth>, ups: seq<Bytes>)
    ensures OpensAfter(opens, Quiet) == opens && UpsAfter(ups, Quiet) == ups
  {
  }

  lemma BreakOffOk(cfg: Config, S: Session, done: bool, st: SessionStep,
                   opens: seq<Auth>, ups: seq<Bytes>, accepts: seq<Bytes>)
    requires SessionOk(cfg, S, opens, ups, accepts) && !S.phase.Relaying? && BreakOff(S, done, st).Some?
    ensures var r := BreakOff(S, done, st).value;
      SessionOk(cfg, r.0, OpensAfter(opens, r.1), UpsAfter(ups, r.1), accepts)
  {
    hide Faced, AllBacked;
  }

  lemma HandshakeGoOk(cfg: Config, S: Session, opens: seq<Auth>, ups: seq<Bytes>, accepts: seq<Bytes>)
    requires SessionOk(cfg, S, opens, ups, accepts) && !S.phase.Relaying? && HandshakeGo(cfg, S).Some?
    ensures var r := HandshakeGo(cfg, S).value;
      SessionOk(cfg, r.0, OpensAfter(opens, r.1), UpsAfter(ups, r.1), accepts)
  {
    hide Faced;
    match S.phase
    case WaitVerdict => assert S.verdictQ.queue[0] == S.verdictQ.Sent()[|S.verdictQ.got|];
    case Telling(v) => FacedMore(S.packets.Sent(), Told(v));
    case _ =>
  }

  lemma OutGoOk(cfg: Config, S: Session, st: SessionStep, opens: seq<Auth>, ups: seq<Bytes>, accepts: seq<Bytes>)
    requires SessionOk(cfg, S, opens, ups, accepts) && S.phase.Relaying?
    requires OutGo(cfg, S, S.phase.out, S.phase.inn, st).Some?
    ensures OutGo(cfg, S, S.phase.out, S.phase.inn, st).value.1.Quiet?
    ensures SessionOk(cfg, OutGo(cfg, S, S.phase.out, S.phase.inn, st).value.0, opens, ups, accepts)
  {
    hide Faced;
    if st.OutSend? {
      FacedMore(S.packets.Sent(), Data(S.phase.out.x));
    }
  }

  lemma InGoOk(cfg: Config, S: Session, done: bool, st: SessionStep,
               opens: seq<Auth>, ups: seq<Bytes>, accepts: seq<Bytes>)
    requires SessionOk(cfg, S, opens, ups, accepts) && S.phase.Relaying?
    requires InGo(S, done, S.phase.out, S.phase.inn, st).Some?
    ensures var r := InGo(S, done, S.phase.out, S.phase.inn, st).value;
      SessionOk(cfg, r.0, OpensAfter(opens, r.1), UpsAfter(ups, r.1), accepts)
  {
    hide Faced;
    if st.InTake? {
      assert (S.inbox.got + [S.inbox.queue[0]])[1..] == S.inbox.got[1..] + [S.inbox.queue[0]];
    }
  }

  lemma TransportOk(cfg: Config, S: Session, st: TransportStep, opens: seq<Auth>, ups: seq<Bytes>, accepts: seq<Bytes>)
    requires SessionOk(cfg, S, opens, ups, accepts) && TransportGo(cfg, S, st).Some?
    ensures SessionOk(cfg, TransportGo(cfg, S, st).value, opens, ups, accepts)
  {
    hide Faced;
  }

  lemma ReceiveOk(cfg: Config, S: Session, pc: RouterPc, opens: seq<Auth>, ups: seq<Bytes>, accepts: seq<Bytes>)
    requires SessionOk(cfg, S, opens, ups, accepts) && Receive(cfg, S, pc).Some?
    requires pc.RVerdict? ==> Backed(pc.v.body, accepts)
    ensures SessionOk(cfg, Receive(cfg, S, pc).value, opens, ups, accepts)
  {
    hide Faced;
  }

  /** Hearing another accept takes nothing back. */
  lemma MoreAccepts(cfg: Config, S: Session, opens: seq<Auth>, ups: seq<Bytes>, accepts: seq<Bytes>, more: seq<Bytes>)
    requires SessionOk(cfg, S, opens, ups, accepts) && accepts <= more
    ensures SessionOk(cfg, S, opens, ups, more)
  {
    hide Faced;
    forall app | app in accepts ensures app in more {
      var i :| 0 <= i < |accepts| && accepts[i] == app;
      assert more[i] == app;
    }
  }
}
