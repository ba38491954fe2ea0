/**
 The client connection router as an object: a map from client id to that client's own queues, and the
 demultiplexer that hands the hub's commands to them. A method is one call that finds room on the queue
 it sends on. The handshake of each client is in `Machine.SessionGo`.
 */
module ClientRouters {
  import opened Types
  import opened ClientStores

  /** The queues of one client; its session's goroutines hold the other ends. */
  class ClientQueues {
    var connected: bool
    var outgoing: seq<Bytes>
    var verdicts: seq<Verdict>
    var closes: nat

    constructor ()
      ensures !connected && outgoing == [] && verdicts == [] && closes == 0
    {
      connected, outgoing, verdicts, closes := false, [], [], 0;
    }
  }

  /** What the hub sends a router, in the order its select happens to take them. */
  datatype Command = Message(id: Id, data: Bytes) | Answer(id: Id, verdict: Verdict) | Close(id: Id)

  /** What one command puts on the three queues of client `id`. */
  function DataOf(c: Command, id: Id): seq<Bytes> {
    if c.Message? && c.id == id then [c.data] else []
  }

  function AnswerOf(c: Command, id: Id): seq<Verdict> {
    if c.Answer? && c.id == id then [c.verdict] else []
  }

  function CloseOf(c: Command, id: Id): nat {
    if c == Close(id) then 1 else 0
  }

  function DataFor(cs: seq<Command>, id: Id): seq<Bytes> {
    if cs == [] then [] else DataFor(cs[..|cs| - 1], id) + DataOf(cs[|cs| - 1], id)
  }

  function AnswersFor(cs: seq<Command>, id: Id): seq<Verdict> {
    if cs == [] then [] else AnswersFor(cs[..|cs| - 1], id) + AnswerOf(cs[|cs| - 1], id)
  }

  function ClosesFor(cs: seq<Command>, id: Id): nat {
    if cs == [] then 0 else ClosesFor(cs[..|cs| - 1], id) + CloseOf(cs[|cs| - 1], id)
  }

  lemma NoCommands()
    ensures forall id :: DataFor([], id) == [] && AnswersFor([], id) == [] && ClosesFor([], id) == 0
  {
  }

  lemma MoreCommands(cs: seq<Command>, c: Command)
    ensures forall id :: DataFor(cs + [c], id) == DataFor(cs, id) + DataOf(c, id)
    ensures forall id :: AnswersFor(cs + [c], id) == AnswersFor(cs, id) + AnswerOf(c, id)
    ensures forall id :: ClosesFor(cs + [c], id) == ClosesFor(cs, id) + CloseOf(c, id)
  {
    assert (cs + [c])[..|cs|] == cs;
  }

  class ClientConnectionRouter {
    var connections: map<Id, ClientQueues>

    /** No two clients share queues. */
    ghost predicate Valid()
      reads this
    {
      forall i, j :: i in connections && j in connections && i != j ==> connections[i] != connections[j]
    }

    constructor ()
      ensures Valid() && connections == map[]
    {
      connections := map[];
    }

    /** A new client gets queues of its own; an id that is in use is refused and keeps its queues. */
    method AddConnection(id: Id) returns (r: Result<ClientQueues, StoreError>)
      requires Valid()
      modifies this
      ensures Valid() && (r.Ok? <==> id !in old(connections)) && (r.Err? ==> r.error == DuplicateClientId(id))
      ensures r.Err? ==> connections == old(connections)
      ensures r.Ok? ==> fresh(r.value) && connections == old(connections)[id := r.value]
      ensures r.Ok? ==> !r.value.connected && r.value.outgoing == [] && r.value.verdicts == [] && r.value.closes == 0
    {
      if id in connections {
        return Err(DuplicateClientId(id));
      }
      var q := new ClientQueues();
      connections := connections[id := q];
      return Ok(q);
    }

    method Remove(id: Id)
      requires Valid()
      modifies this
      ensures Valid() && connections == old(connections) - {id}
    {
      connections := connections - {id};
    }

    method MarkConnected(id: Id)
      modifies (if id in connections then {connections[id]} else {})`connected
      ensures id in connections ==> connections[id].connected
    {
      if id in connections {
        connections[id].connected := true;
      }
    }

    /** A command for a client that is not connected any more is dropped; no other client sees it. */
    method HandleProxyCloseRequest(id: Id)
      modifies (if id in connections then {connections[id]} else {})`closes
      ensures id in connections ==> connections[id].closes == old(connections[id].closes) + 1
    {
      if id in connections {
        connections[id].closes := connections[id].closes + 1;
      }
    }

    method HandleOutgoingMessage(id: Id, data: Bytes)
      modifies (if id in connections then {connections[id]} else {})`outgoing
      ensures id in connections ==> connections[id].outgoing == old(connections[id].outgoing) + [data]
    {
      if id in connections {
        connections[id].outgoing := connections[id].outgoing + [data];
      }
    }

    method HandleIncomingVerdict(id: Id, v: Verdict)
      modifies (if id in connections then {connections[id]} else {})`verdicts
      ensures id in connections ==> connections[id].verdicts == old(connections[id].verdicts) + [v]
    {
      if id in connections {
        connections[id].verdicts := connections[id].verdicts + [v];
      }
    }

    /** One command reaches the client it names, and no other. */
    method Handle(c: Command)
      requires Valid()
      modifies connections.Values
      ensures forall id :: id in connections ==>
        && connections[id].outgoing == old(connections[id].outgoing) + DataOf(c, id)
        && connections[id].verdicts == old(connections[id].verdicts) + AnswerOf(c, id)
        && connections[id].closes == old(connections[id].closes) + CloseOf(c, id)
        && connections[id].connected == old(connections[id].connected)
    {
      match c
      case Message(id, data) => HandleOutgoingMessage(id, data);
      case Answer(id, v) => HandleIncomingVerdict(id, v);
      case Close(id) => HandleProxyCloseRequest(id);
    }

    /**
     The demultiplexing loop: whatever the hub sent, each client's queues grow by exactly the commands
     that name it, in their order.
     */
    method Serve(cs: seq<Command>)
      requires Valid()
      modifies connections.Values
      ensures forall id :: id in connections ==>
        && connections[id].outgoing == old(connections[id].outgoing) + DataFor(cs, id)
        && connections[id].verdicts == old(connections[id].verdicts) + AnswersFor(cs, id)
        && connections[id].closes == old(connections[id].closes) + ClosesFor(cs, id)
        && connections[id].connected == old(connections[id].connected)
    {
      hide DataOf, AnswerOf, CloseOf, DataFor, AnswersFor, ClosesFor;
      NoCommands();
      assert cs[..0] == [];
      for k := 0 to |cs|
        invariant forall id :: id in connections ==>
          && connections[id].outgoing == old(connections[id].outgoing) + DataFor(cs[..k], id)
          && connections[id].verdicts == old(connections[id].verdicts) + AnswersFor(cs[..k], id)
          && connections[id].closes == old(connections[id].closes) + ClosesFor(cs[..k], id)
          && connections[id].connected == old(connections[id].connected)
      {
        MoreCommands(cs[..k], cs[k]);
        assert cs[..k + 1] == cs[..k] + [cs[k]];
        Handle(cs[k]);
      }
      assert cs[..|cs|] == cs;
    }
  }
}
