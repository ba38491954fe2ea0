/**
 Values shared by every part of the Spanreed hub: client ids, handler names, the messages that
 travel between the hub, the client routers and the UDP destinations.
 */
module Types {

  datatype Option<+T> = None | Some(value: T)

  /** The number of distinct `uint32` client ids. */
  const ID_SPACE: int := 0x1_0000_0000

  type Id = n: int | 0 <= n < 0x1_0000_0000

  type Name = string

  newtype byte = b: int | 0 <= b < 256

  type Bytes = seq<byte>

  datatype Addr = Addr(ip: Bytes, port: nat)

  /** A message on a channel that is shared by many clients: the client it is for, and the rest. */
  datatype Env<+T> = Env(id: Id, body: T)

  /** The connection string and application data a client opens with. */
  datatype Auth = Auth(conn: string, app: Bytes)

  datatype Verdict = Verdict(accepted: bool, app: Bytes)

  /** What a transport writes to its client. */
  datatype Packet = Told(verdict: Verdict) | Data(data: Bytes)

  /** The three datagrams a destination server is sent. */
  datatype DatagramKind = ConnectionRequest(app: Bytes) | ClientMessage(data: Bytes) | CloseConnection

  datatype Datagram = Datagram(to: Addr, kind: DatagramKind)

  /** The id given to the client of the `n`-th allocation: an atomic `uint32` incremented from 0. */
  function IdOf(n: nat): Id {
    if n < ID_SPACE then n else n % ID_SPACE
  }

  function Max(a: int, b: int): int {
    if a < b then b else a
  }

  function If(b: bool): nat {
    if b then 1 else 0
  }

  /** Within the first 2^32 allocations two clients never share an id. */
  lemma IdsDistinct(m: nat, n: nat)
    requires 1 <= m <= ID_SPACE && 1 <= n <= ID_SPACE && m != n
    ensures IdOf(m) != IdOf(n)
  {
  }
}
