/**
 Go channels as bounded first-in first-out queues that remember what was received from them.
 A channel shared by many clients is read through `SentTo` and `GotBy`, which keep one client's messages.
 */
module Channels {
  import opened Types

  datatype Chan<T> = Chan(got: seq<T>, queue: seq<T>) {

    function Sent(): seq<T> {
      got + queue
    }

    function Put(x: T): (r: Chan<T>)
      ensures r.Sent() == Sent() + [x] && r.got == got
    {
      assert got + (queue + [x]) == got + queue + [x];
      Chan(got, queue + [x])
    }

    function Take(): (r: Chan<T>)
      requires queue != []
      ensures r.Sent() == Sent() && r.got == got + [queue[0]]
    {
      assert got + [queue[0]] + queue[1..] == got + queue;
      Chan(got + [queue[0]], queue[1..])
    }

    predicate Room(capacity: nat) {
      |queue| < capacity
    }
  }

  function EmptyChan<T>(): Chan<T> {
    Chan([], [])
  }

  /** The bodies of the messages of `q` that are for client `c`, in order. */
  function For<T>(q: seq<Env<T>>, c: Id): seq<T> {
    if q == [] then [] else For(q[..|q| - 1], c) + One(q[|q| - 1], c)
  }

  function One<T>(x: Env<T>, c: Id): seq<T> {
    if x.id == c then [x.body] else []
  }

  lemma {:induction false} ForConcat<T>(a: seq<Env<T>>, b: seq<Env<T>>, c: Id)
    ensures For(a + b, c) == For(a, c) + For(b, c)
  {
    if b == [] {
      assert a + b == a;
    } else {
      assert (a + b)[..|a + b| - 1] == a + b[..|b| - 1];
      ForConcat(a, b[..|b| - 1], c);
    }
  }

  lemma ForOne<T>(x: Env<T>, c: Id)
    ensures For([x], c) == One(x, c)
  {
    assert [x][..0] == [];
  }

  /** Everything ever sent on `ch` for client `c`. */
  function SentTo<T>(ch: Chan<Env<T>>, c: Id): seq<T> {
    For(ch.got, c) + For(ch.queue, c)
  }

  /** What the receiving end of `ch` has taken for client `c`. */
  function GotBy<T>(ch: Chan<Env<T>>, c: Id): seq<T> {
    For(ch.got, c)
  }

  function Post<T>(ch: Chan<Env<T>>, x: Env<T>): (r: Chan<Env<T>>)
    ensures forall c: Id :: SentTo(r, c) == SentTo(ch, c) + One(x, c)
    ensures forall c: Id :: GotBy(r, c) == GotBy(ch, c)
  {
    PostFor(ch, x);
    Chan(ch.got, ch.queue + [x])
  }

  lemma PostFor<T>(ch: Chan<Env<T>>, x: Env<T>)
    ensures forall c: Id :: SentTo(Chan(ch.got, ch.queue + [x]), c) == SentTo(ch, c) + One(x, c)
  {
    forall c: Id ensures SentTo(Chan(ch.got, ch.queue + [x]), c) == SentTo(ch, c) + One(x, c) {
      ForConcat(ch.queue, [x], c);
      ForOne(x, c);
    }
  }

  function Pull<T>(ch: Chan<Env<T>>): (r: Chan<Env<T>>)
    requires ch.queue != []
    ensures forall c: Id :: SentTo(r, c) == SentTo(ch, c)
    ensures forall c: Id :: GotBy(r, c) == GotBy(ch, c) + One(ch.queue[0], c)
  {
    PullFor(ch);
    Chan(ch.got + [ch.queue[0]], ch.queue[1..])
  }

  lemma PullFor<T>(ch: Chan<Env<T>>)
    requires ch.queue != []
    ensures forall c: Id :: For(ch.got + [ch.queue[0]], c) == For(ch.got, c) + One(ch.queue[0], c)
    ensures forall c: Id :: SentTo(Chan(ch.got + [ch.queue[0]], ch.queue[1..]), c) == SentTo(ch, c)
  {
    var x := ch.queue[0];
    forall c: Id
      ensures For(ch.got + [x], c) == For(ch.got, c) + One(x, c)
      ensures SentTo(Chan(ch.got + [x], ch.queue[1..]), c) == SentTo(ch, c)
    {
      ForConcat(ch.got, [x], c);
      ForOne(x, c);
      assert ch.queue == [x] + ch.queue[1..];
      ForConcat([x], ch.queue[1..], c);
    }
  }

  /** A client's messages cannot be received before they were sent, nor out of order. */
  lemma GotIsPrefix<T>(ch: Chan<Env<T>>, c: Id)
    ensures GotBy(ch, c) <= SentTo(ch, c)
  {
  }

  /** The next message on a channel is the client's next message, if it is for that client. */
  lemma HeadOf<T>(ch: Chan<Env<T>>, c: Id)
    requires ch.queue != [] && ch.queue[0].id == c
    ensures |GotBy(ch, c)| < |SentTo(ch, c)| && SentTo(ch, c)[|GotBy(ch, c)|] == ch.queue[0].body
  {
    var r := Pull(ch);
    assert GotBy(r, c) == GotBy(ch, c) + [ch.queue[0].body];
    assert SentTo(r, c) == SentTo(ch, c);
  }

  /** Appending to a log of per-client records. */
  lemma LogFor<T>(log: seq<Env<T>>, x: Env<T>, c: Id)
    ensures For(log + [x], c) == For(log, c) + One(x, c)
  {
    ForConcat(log, [x], c);
    ForOne(x, c);
  }

  /** The clients named by a queue of messages that say nothing else. */
  function IdsIn(q: seq<Env<()>>): seq<Id> {
    seq(|q|, i requires 0 <= i < |q| => q[i].id)
  }

  lemma MoreIds(q: seq<Env<()>>, id: Id)
    ensures IdsIn(q + [Env(id, ())]) == IdsIn(q) + [id]
  {
  }
}
