/**
 The two conversations of a client, as automata that read the whole conversation: the datagrams its
 destination is sent, and the packets the client is sent. `Garbled` marks a conversation no server or
 client expects.
 */
module Grammar {
  import opened Types

  // ---------------------------------------------------------------- towards the destination

  datatype Talk =
    | NotOpened
    | Opened(to: Addr, app: Bytes, sent: seq<Bytes>)
    | Closed(to: Addr, app: Bytes, sent: seq<Bytes>)
    | Garbled

  function TalkStep(t: Talk, d: Datagram): Talk {
    match d.kind
    case ConnectionRequest(app) => if t.NotOpened? then Opened(d.to, app, []) else Garbled
    case ClientMessage(x) => if t.Opened? && t.to == d.to then Opened(t.to, t.app, t.sent + [x]) else Garbled
    case CloseConnection => if t.Opened? && t.to == d.to then Closed(t.to, t.app, t.sent) else Garbled
  }

  function Talked(q: seq<Datagram>): Talk {
    if q == [] then NotOpened else TalkStep(Talked(q[..|q| - 1]), q[|q| - 1])
  }

  lemma TalkedMore(q: seq<Datagram>, d: Datagram)
    ensures Talked(q + [d]) == TalkStep(Talked(q), d)
  {
    assert (q + [d])[..|q|] == q;
  }

  function SentData(t: Talk): seq<Bytes> {
    if t.Opened? || t.Closed? then t.sent else []
  }

  function Messages(to: Addr, xs: seq<Bytes>): seq<Datagram> {
    seq(|xs|, i requires 0 <= i < |xs| => Datagram(to, ClientMessage(xs[i])))
  }

  function Transcript(to: Addr, app: Bytes, xs: seq<Bytes>): seq<Datagram> {
    [Datagram(to, ConnectionRequest(app))] + Messages(to, xs)
  }

  lemma TranscriptMore(to: Addr, app: Bytes, xs: seq<Bytes>, x: Bytes)
    ensures Transcript(to, app, xs + [x]) == Transcript(to, app, xs) + [Datagram(to, ClientMessage(x))]
  {
    assert Messages(to, xs + [x]) == Messages(to, xs) + [Datagram(to, ClientMessage(x))];
  }

  /** What an ungarbled conversation looks like, written out: one request, then data, then perhaps a close. */
  ghost predicate Shaped(t: Talk, q: seq<Datagram>) {
    match t
    case NotOpened => q == []
    case Opened(to, app, sent) => q == Transcript(to, app, sent)
    case Closed(to, app, sent) => q == Transcript(to, app, sent) + [Datagram(to, CloseConnection)]
    case Garbled => true
  }

  lemma {:induction false} TalkedShape(q: seq<Datagram>)
    ensures Shaped(Talked(q), q)
  {
    hide Shaped, TalkStep;
    if q == [] {
      NothingShaped();
    } else {
      TalkedShape(q[..|q| - 1]);
      MoreShaped(Talked(q[..|q| - 1]), q[..|q| - 1], q[|q| - 1]);
      assert q[..|q| - 1] + [q[|q| - 1]] == q;
    }
  }

  lemma NothingShaped()
    ensures Shaped(NotOpened, [])
  {
  }

  lemma MoreShaped(t: Talk, p: seq<Datagram>, d: Datagram)
    requires Shaped(t, p)
    ensures Shaped(TalkStep(t, d), p + [d])
  {
    hide Messages;
    match d.kind
    case ConnectionRequest(app) =>
      NoMessages(d.to);
      assert t.NotOpened? ==> p + [d] == [d] && Transcript(d.to, app, []) == [d] + [];
    case ClientMessage(x) =>
      if t.Opened? && t.to == d.to {
        hide Transcript;
        TranscriptMore(d.to, t.app, t.sent, x);
      }
    case CloseConnection =>
  }

  lemma NoMessages(to: Addr)
    ensures Messages(to, []) == []
  {
  }

  // ---------------------------------------------------------------- towards the client

  datatype Facing = Silent | Refused | Accepted(app: Bytes, data: seq<Bytes>) | Confused

  function FacingStep(f: Facing, p: Packet): Facing {
    match p
    case Told(v) => if !f.Silent? then Confused else if v.accepted then Accepted(v.app, []) else Refused
    case Data(x) => if f.Accepted? then f.(data := f.data + [x]) else Confused
  }

  function Faced(q: seq<Packet>): Facing {
    if q == [] then Silent else FacingStep(Faced(q[..|q| - 1]), q[|q| - 1])
  }

  lemma FacedMore(q: seq<Packet>, p: Packet)
    ensures Faced(q + [p]) == FacingStep(Faced(q), p)
  {
    assert (q + [p])[..|q|] == q;
  }

  function DataPackets(xs: seq<Bytes>): seq<Packet> {
    seq(|xs|, i requires 0 <= i < |xs| => Data(xs[i]))
  }

  /** Written out: nothing, one refusal, or one accept followed by data. */
  lemma {:induction false} FacedShape(q: seq<Packet>)
    ensures match Faced(q)
      case Silent => q == []
      case Refused => exists v: Verdict :: !v.accepted && q == [Told(v)]
      case Accepted(app, data) => q == [Told(Verdict(true, app))] + DataPackets(data)
      case Confused => true
  {
    if q != [] {
      var p, x := q[..|q| - 1], q[|q| - 1];
      FacedShape(p);
      assert q == p + [x];
      if Faced(q).Accepted? && x.Data? {
        var before := Faced(p).data;
        assert DataPackets(before + [x.data]) == DataPackets(before) + [x];
      }
    }
  }
}
