/**
 The pure rules of the UDP destination: which connection strings it claims, which hosts it may
 contact, and the address a client's connection string leads to.
 */
module UdpRules {
  import opened Types

  const SCHEME: string := "udp:"

  /** Whether a list of hosts names `s`. */
  method Contains(s: string, list: seq<string>) returns (found: bool)
    ensures found <==> s in list
  {
    for i := 0 to |list|
      invariant s !in list[..i]
    {
      if list[i] == s {
        return true;
      }
    }
    assert list[..|list|] == list;
    return false;
  }

  /** The destination policy: a denied host is never allowed, then everything or the listed hosts are. */
  predicate HostAllowed(allowAll: bool, allow: seq<string>, deny: seq<string>, host: string) {
    host !in deny && (allowAll || host in allow)
  }

  method IsDestinationAllowed(allowAll: bool, allow: seq<string>, deny: seq<string>, host: string)
    returns (ok: bool)
    ensures ok <==> HostAllowed(allowAll, allow, deny, host)
    ensures ok <==> host !in deny && (allowAll || host in allow)
  {
    var denied := Contains(host, deny);
    if denied {
      return false;
    }
    if allowAll {
      return true;
    }
    ok := Contains(host, allow);
  }

  /** The default match predicate. The slice it takes needs four bytes. */
  predicate MatchesUdp(conn: string)
    requires |conn| >= 4
  {
    conn[0..4] == SCHEME
  }

  /** The default host resolution, with the same demand. */
  function DefaultHost(conn: string): (r: Option<string>)
    requires |conn| >= 4
  {
    if conn[0..4] != SCHEME then None else Some(conn[4..])
  }

  /** Matching and resolving agree, and resolving loses nothing but the scheme. */
  lemma MatchIffResolves(conn: string)
    requires |conn| >= 4
    ensures MatchesUdp(conn) <==> DefaultHost(conn).Some?
    ensures DefaultHost(conn).Some? ==> SCHEME + DefaultHost(conn).value == conn
    ensures forall host: string :: DefaultHost(SCHEME + host) == Some(host)
  {
    assert DefaultHost(conn).Some? ==> conn[0..4] + conn[4..] == conn;
    forall host: string ensures DefaultHost(SCHEME + host) == Some(host) {
      assert (SCHEME + host)[0..4] == SCHEME && (SCHEME + host)[4..] == host;
    }
  }

  /** How one destination resolves hosts and addresses; both resolvers are supplied from outside. */
  datatype UdpConfig = UdpConfig(
    allowAll: bool,
    allow: seq<string>,
    deny: seq<string>,
    host: string -> Option<string>,
    address: string -> Option<Addr>)

  /** The address a connection string leads to: resolve the host, apply the policy, resolve the address. */
  function Target(u: UdpConfig, conn: string): Option<Addr> {
    match u.host(conn)
    case None => None
    case Some(h) => if HostAllowed(u.allowAll, u.allow, u.deny, h) then u.address(h) else None
  }

  /** A string leads to an address if and only if its host resolves, is not denied, is allowed, and has that address. */
  lemma TargetIff(u: UdpConfig, conn: string, a: Addr)
    ensures Target(u, conn) == Some(a) <==>
      && u.host(conn).Some?
      && var h := u.host(conn).value; h !in u.deny && (u.allowAll || h in u.allow) && u.address(h) == Some(a)
  {
  }
}
