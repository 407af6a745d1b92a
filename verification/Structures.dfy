/** The signaling server's entities (src/signaling/structures.rs), the control
    lines it exchanges with clients, and the socket it writes them to. */
module Structures {
  import opened Ints
  import opened Seqs
  import opened Wrappers

  type Name = string
  datatype Addr = Addr(ip: nat, port: nat)
  const UNSPECIFIED := Addr(0, 0) // 0.0.0.0:0

  /** Instants and durations, in nanoseconds. */
  type Time = nat
  const SECOND: Time := 1_000_000_000

  datatype NatKind = Unknown | Public | Cone | Symmetric

  datatype User = User(peerId: u32, name: Name, addr: Addr, lastPong: Time, needsServerRelay: bool, natKind: NatKind)

  function NewUser(name: Name, addr: Addr, nat_: NatKind, peerId: u32, now: Time): User {
    User(peerId, name, addr, now, nat_ == Symmetric, nat_)
  }

  /** The value of a channel; the source's `channel.clone()`. */
  datatype ChannelState = ChannelState(channelId: u64, nextPeerId: u32, users: seq<User>, relay: Option<Name>)

  const DEFAULT_CHANNEL := ChannelState(0, 1, [], None)

  /** One line of the text protocol. */
  datatype Line =
    | Welcome(channelId: u64, peerId: u32)
    | ModeRelay
    | ModeDirect(name: Name, addr: Addr)
    | ModeServerRelay(name: Name)
    | UserLeft(name: Name, addr: Addr)
    | Ping
    | Pong
    | HolePunch
    | Data(sender: Name, text: string)
    | PeerTimedOut(sid: string, cname: string, name: Name)   // PEER_TIMEOUT
    | RelayRequested(sid: string, cname: string, name: Name) // REQUEST_RELAY

  datatype Datagram = Datagram(dst: Addr, lines: seq<Line>)

  /** A UDP socket, with the record of everything sent through it. */
  class UdpSocket {
    var sent: seq<Datagram>

    constructor ()
      ensures sent == []
    {
      sent := [];
    }

    method SendTo(lines: seq<Line>, dst: Addr)
      modifies this
      ensures sent == old(sent) + [Datagram(dst, lines)]
    {
      sent := sent + [Datagram(dst, lines)];
    }
  }

  // Conditions on users that the source writes as closures

  predicate Eligible(u: User) { !u.needsServerRelay }
  function IsSession(name: Name, addr: Addr): User -> bool { (u: User) => u.name == name && u.addr == addr }
  function NotSession(name: Name, addr: Addr): User -> bool { (u: User) => !(u.name == name && u.addr == addr) }
  function NotStale(name: Name, addr: Addr): User -> bool { (u: User) => !(u.name == name && u.addr != addr) }
  function Named(name: Name): User -> bool { (u: User) => u.name == name }
  function NotNamed(name: Name): User -> bool { (u: User) => u.name != name }
  function LocatedAt(addr: Addr): User -> bool { (u: User) => u.addr == addr }
  function NotLocatedAt(addr: Addr): User -> bool { (u: User) => u.addr != addr }

  function NameOf(u: Option<User>): Option<Name> {
    if u.None? then None else Some(u.value.name)
  }

  function RemoveAt<T>(s: seq<T>, i: nat): seq<T>
    requires i < |s|
  {
    s[..i] + s[i + 1..]
  }

  // Invariants of one channel

  ghost predicate DistinctNames(users: seq<User>) {
    forall i, j :: 0 <= i < j < |users| ==> users[i].name != users[j].name
  }

  ghost predicate DistinctAddrs(users: seq<User>) {
    forall i, j :: 0 <= i < j < |users| ==> users[i].addr != users[j].addr
  }

  ghost predicate IdsAscend(users: seq<User>) {
    forall i, j :: 0 <= i < j < |users| ==> users[i].peerId < users[j].peerId
  }

  ghost predicate SymmetricNeedsRelay(users: seq<User>) {
    forall u :: u in users && u.natKind == Symmetric ==> u.needsServerRelay
  }

  ghost predicate IdsOrdered(c: ChannelState) {
    1 <= c.nextPeerId && IdsAscend(c.users) && forall u :: u in c.users ==> 1 <= u.peerId < c.nextPeerId
  }

  ghost predicate WellFormed(c: ChannelState) {
    DistinctNames(c.users) && SymmetricNeedsRelay(c.users) && IdsOrdered(c)
  }

  /** Two members of a channel with distinct names are the same when their names agree. */
  lemma SameName(users: seq<User>, u: User, v: User)
    requires DistinctNames(users) && u in users && v in users && u.name == v.name
    ensures u == v
  {
    var i :| 0 <= i < |users| && users[i] == u;
    var j :| 0 <= j < |users| && users[j] == v;
  }

  lemma SameAddr(users: seq<User>, u: User, v: User)
    requires DistinctAddrs(users) && u in users && v in users && u.addr == v.addr
    ensures u == v
  {
    var i :| 0 <= i < |users| && users[i] == u;
    var j :| 0 <= j < |users| && users[j] == v;
  }

  /** Filtering keeps every ordered-pair property of a user list. */
  lemma FilterKeeps(p: User -> bool, users: seq<User>)
    ensures DistinctNames(users) ==> DistinctNames(Filter(p, users))
    ensures DistinctAddrs(users) ==> DistinctAddrs(Filter(p, users))
    ensures IdsAscend(users) ==> IdsAscend(Filter(p, users))
  {
    if DistinctNames(users) {
      FilterPairwise(p, (u: User, v: User) => u.name != v.name, users);
    }
    if DistinctAddrs(users) {
      FilterPairwise(p, (u: User, v: User) => u.addr != v.addr, users);
    }
    if IdsAscend(users) {
      FilterPairwise(p, (u: User, v: User) => u.peerId < v.peerId, users);
    }
  }

  /** With distinct names, dropping one position is dropping one name. */
  lemma RemoveAtIsFilter(users: seq<User>, i: nat)
    requires i < |users| && DistinctNames(users)
    ensures RemoveAt(users, i) == Filter(NotNamed(users[i].name), users)
  {
    NamedApart(users, i);
    SplitAround(users, i);
    FilterOut(NotNamed(users[i].name), users[..i], users[i], users[i + 1..]);
  }

  lemma SplitAround(users: seq<User>, i: nat)
    requires i < |users|
    ensures users[..i] + ([users[i]] + users[i + 1..]) == users
  {
  }

  lemma NamedApart(users: seq<User>, i: nat)
    requires i < |users| && DistinctNames(users)
    ensures forall u :: u in users[..i] || u in users[i + 1..] ==> u.name != users[i].name
  {
    forall u | u in users[i + 1..] ensures u.name != users[i].name {
      var j :| 0 <= j < |users[i + 1..]| && users[i + 1..][j] == u;
      assert users[i + 1 + j] == u;
    }
  }
}
