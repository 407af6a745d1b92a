/** Where the server sends a DATA line (src/signaling/handlers/request_relay.rs). */
module Routing {
  import opened Seqs
  import opened ServerSteps
  import opened Structures
  import opened Sweep
  import opened Wrappers

  function ServerServed(sender: Name): User -> bool { (u: User) => u.name != sender && u.needsServerRelay }

  /** The user the relay name refers to, if any. */
  function RelayUser(c: ChannelState): Option<User> {
    if c.relay.None? then None else Find(Named(c.relay.value), c.users)
  }

  /** One round of the loop over channels: the destinations if this channel decides,
      `None` if the search goes on. */
  function Targets(c: ChannelState, src: Addr, sender: Name): Option<seq<Addr>> {
    var r, i := RelayUser(c), Position(IsSession(sender, src), c.users);
    if r.Some? && r.value.addr == src then Some(Addrs(Filter(ServerServed(sender), c.users)))
    else if i == |c.users| then None
    else if c.relay == Some(sender) then Some(Addrs(Filter(ServerServed(sender), c.users)))
    else if c.users[i].needsServerRelay then Some(Addrs(Filter(NotLocatedAt(src), c.users)))
    else if r.Some? && r.value.addr != src then Some([r.value.addr])
    else Some([])
  }

  /** The loop over all channels in the order the hash maps yield them. */
  function Route(st: ServerMap, order: seq<(string, string)>, src: Addr, sender: Name): seq<Addr> {
    if order == [] then []
    else
      match Targets(ChannelOr(st, order[0].0, order[0].1), src, sender)
      case Some(dests) => dests
      case None => Route(st, order[1..], src, sender)
  }

  /** `order` lists every channel. */
  ghost predicate Enumerates(order: seq<(string, string)>, st: ServerMap) {
    forall sid, cname :: (sid, cname) in order <==> HasChannel(st, sid, cname)
  }

  ghost predicate KnownAt(c: ChannelState, a: Addr) {
    exists u :: u in c.users && u.addr == a
  }

  /** No channel but this one has a user at `a`. */
  ghost predicate OnlyIn(st: ServerMap, sid: string, cname: string, a: Addr) {
    forall s, cn :: HasChannel(st, s, cn) && (s, cn) != (sid, cname) ==> !KnownAt(st[s][cn], a)
  }

  lemma StrangersUndecided(c: ChannelState, src: Addr, sender: Name)
    requires !KnownAt(c, src)
    ensures Targets(c, src, sender).None?
  {
    RelayMembership(c);
    assert forall u :: u in c.users ==> u.addr != src;
  }

  /** The hash maps' iteration order does not matter when the source address is known
      in one channel only: that channel alone decides. */
  lemma {:induction false} RouteIgnoresOrder(st: ServerMap, order: seq<(string, string)>, sid: string, cname: string,
                                             src: Addr, sender: Name)
    requires HasChannel(st, sid, cname) && (sid, cname) in order && OnlyIn(st, sid, cname, src)
    ensures var t := Targets(st[sid][cname], src, sender);
            Route(st, order, src, sender) == if t.Some? then t.value else []
  {
    if order[0] == (sid, cname) {
      if Targets(st[sid][cname], src, sender).None? {
        NobodyDecides(st, order[1..], src, sender, st[sid][cname]);
      }
    } else {
      StrangersUndecided(ChannelOr(st, order[0].0, order[0].1), src, sender);
      RouteIgnoresOrder(st, order[1..], sid, cname, src, sender);
    }
  }

  /** In any order of the channels the first that decides has the say; if none does,
      nothing is sent. */
  lemma {:induction false} FirstDecides(st: ServerMap, order: seq<(string, string)>, k: nat, src: Addr, sender: Name)
    requires k <= |order|
    requires forall j :: 0 <= j < k ==> Targets(ChannelOr(st, order[j].0, order[j].1), src, sender).None?
    ensures k == |order| ==> Route(st, order, src, sender) == []
    ensures k < |order| && Targets(ChannelOr(st, order[k].0, order[k].1), src, sender).Some? ==>
              Some(Route(st, order, src, sender)) == Targets(ChannelOr(st, order[k].0, order[k].1), src, sender)
  {
    if k > 0 {
      assert order[0..][0] == order[0];
      assert forall j :: 0 <= j < k - 1 ==> order[1..][j] == order[j + 1];
      FirstDecides(st, order[1..], k - 1, src, sender);
    }
  }

  lemma {:induction false} NobodyDecides(st: ServerMap, order: seq<(string, string)>, src: Addr, sender: Name,
                                         c: ChannelState)
    requires forall k :: k in order ==> ChannelOr(st, k.0, k.1) == c || !KnownAt(ChannelOr(st, k.0, k.1), src)
    requires Targets(c, src, sender).None?
    ensures Route(st, order, src, sender) == []
  {
    if order != [] {
      var d := ChannelOr(st, order[0].0, order[0].1);
      if d != c { StrangersUndecided(d, src, sender); }
      NobodyDecides(st, order[1..], src, sender, c);
    }
  }

  /** Whom the server serves, said once per kind of source: from the relay's address
      those who need the server, from a session that needs it everyone elsewhere,
      from any other session the relay. */
  ghost predicate Served(c: ChannelState, src: Addr, sender: Name, u: User) {
    if FromRelay(c, src) then u.name != sender && u.needsServerRelay
    else if FromServedSession(c, src, sender) then u.addr != src
    else FromSession(c, src, sender) && c.relay == Some(u.name)
  }

  ghost predicate FromRelay(c: ChannelState, src: Addr) {
    exists r :: r in c.users && c.relay == Some(r.name) && r.addr == src
  }

  ghost predicate FromSession(c: ChannelState, src: Addr, sender: Name) {
    exists s :: s in c.users && s.name == sender && s.addr == src
  }

  ghost predicate FromServedSession(c: ChannelState, src: Addr, sender: Name) {
    exists s :: s in c.users && s.name == sender && s.addr == src && s.needsServerRelay
  }

  lemma RelayLookup(c: ChannelState, src: Addr)
    requires DistinctNames(c.users)
    ensures FromRelay(c, src) <==> RelayUser(c).Some? && RelayUser(c).value.addr == src
    ensures RelayUser(c).Some? ==> forall u :: u in c.users && c.relay == Some(u.name) ==> u == RelayUser(c).value
  {
    RelayMembership(c);
    forall q | q in c.users && c.relay == Some(q.name) ensures RelayUser(c) == Some(q) {
      SameName(c.users, q, RelayUser(c).value);
    }
  }

  lemma SessionLookup(c: ChannelState, src: Addr, sender: Name)
    requires DistinctNames(c.users)
    ensures var i := Position(IsSession(sender, src), c.users);
            && (FromSession(c, src, sender) <==> i < |c.users|)
            && (FromServedSession(c, src, sender) <==> i < |c.users| && c.users[i].needsServerRelay)
  {
    var i := Position(IsSession(sender, src), c.users);
    forall s | s in c.users && s.name == sender && s.addr == src ensures i < |c.users| && s == c.users[i] {
      assert IsSession(sender, src)(s);
      SameName(c.users, s, c.users[i]);
    }
  }

  /** With distinct names, the destinations are the addresses of the served users. */
  lemma TargetsAreServed(c: ChannelState, src: Addr, sender: Name, a: Addr)
    requires DistinctNames(c.users)
    ensures (Targets(c, src, sender).Some? && a in Targets(c, src, sender).value)
            <==> exists u :: u in c.users && u.addr == a && Served(c, src, sender, u)
  {
    RelayLookup(c, src);
    SessionLookup(c, src, sender);
    if FromRelay(c, src) {
      AddrsMember(Filter(ServerServed(sender), c.users), a);
    } else if FromServedSession(c, src, sender) {
      SenderNotRelay(c, src, sender);
      AddrsMember(Filter(NotLocatedAt(src), c.users), a);
    } else if FromSession(c, src, sender) {
      SenderNotRelay(c, src, sender);
      RelayMembership(c);
    }
  }

  /** With distinct addresses nobody is sent the line twice. */
  lemma TargetsOnce(c: ChannelState, src: Addr, sender: Name)
    requires DistinctAddrs(c.users) && Targets(c, src, sender).Some?
    ensures var dests := Targets(c, src, sender).value; forall i, j :: 0 <= i < j < |dests| ==> dests[i] != dests[j]
  {
    FilterKeeps(ServerServed(sender), c.users);
    FilterKeeps(NotLocatedAt(src), c.users);
  }

  lemma SenderNotRelay(c: ChannelState, src: Addr, sender: Name)
    requires DistinctNames(c.users) && FromSession(c, src, sender) && !FromRelay(c, src)
    ensures c.relay != Some(sender)
  {
  }

  lemma RelayMembership(c: ChannelState)
    ensures RelayUser(c).Some? <==> exists u :: u in c.users && c.relay == Some(u.name)
    ensures RelayUser(c).Some? ==> RelayUser(c).value in c.users && c.relay == Some(RelayUser(c).value.name)
  {
    if c.relay.Some? {
      FindIsFirst(Named(c.relay.value), c.users);
      if u :| u in c.users && c.relay == Some(u.name) {
        assert Named(c.relay.value)(u);
      }
    }
  }

  lemma AddrsMember(users: seq<User>, a: Addr)
    ensures a in Addrs(users) <==> exists u :: u in users && u.addr == a
  {
    if u :| u in users && u.addr == a {
      var i :| 0 <= i < |users| && users[i] == u;
      assert Addrs(users)[i] == a;
    }
  }

  /** With distinct names the branch "the sender is the relay" never decides: the
      branch "the packet comes from the relay's address" has decided before it. */
  lemma SenderIsRelayBranchIdle(c: ChannelState, src: Addr, sender: Name)
    requires DistinctNames(c.users) && c.relay == Some(sender)
    requires Position(IsSession(sender, src), c.users) < |c.users|
    ensures RelayUser(c).Some? && RelayUser(c).value.addr == src
  {
    var i := Position(IsSession(sender, src), c.users);
    RelayMembership(c);
    SameName(c.users, RelayUser(c).value, c.users[i]);
  }
}
