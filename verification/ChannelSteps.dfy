/** What each lock section of the server does to one channel, as functions on the
    channel's value, and what those steps keep. The methods of `Channels` are
    proved to compute them. */
module ChannelSteps {
  import opened Ints
  import opened Seqs
  import opened Structures
  import opened Wrappers

  // CONNECT (src/signaling/handlers/connect.rs, utils.rs)

  predicate HasSession(c: ChannelState, name: Name, addr: Addr) {
    Position(IsSession(name, addr), c.users) < |c.users|
  }

  function Refresh(c: ChannelState, name: Name, addr: Addr, now: Time): ChannelState {
    var i := Position(IsSession(name, addr), c.users);
    if i == |c.users| then c else c.(users := c.users[i := c.users[i].(lastPong := now)])
  }

  function Admit(c: ChannelState, name: Name, addr: Addr, nat_: NatKind, now: Time): ChannelState {
    c.(users := Filter(NotStale(name, addr), c.users) + [NewUser(name, addr, nat_, c.nextPeerId, now)],
       nextPeerId := Succ32(c.nextPeerId))
  }

  /** A lone user in a channel without a relay becomes the relay unless it is Symmetric. */
  function SettleLone(c: ChannelState): ChannelState {
    if c.relay.None? && |c.users| == 1 && c.users[0].natKind != Symmetric
    then c.(relay := Some(c.users[0].name))
    else c
  }

  function LoneNotice(c: ChannelState): seq<Datagram> {
    if c.relay.None? && |c.users| == 1 then
      var u := c.users[0];
      [Datagram(u.addr, [if u.natKind == Symmetric then ModeServerRelay(u.name) else ModeRelay])]
    else []
  }

  function AddNew(c: ChannelState, name: Name, addr: Addr, nat_: NatKind, now: Time): ChannelState {
    SettleLone(Admit(c, name, addr, nat_, now))
  }

  function WithId(c: ChannelState, freshId: u64): ChannelState {
    if c.channelId == 0 then c.(channelId := freshId) else c
  }

  /** The lock section of CONNECT. */
  function Enter(c: ChannelState, name: Name, addr: Addr, nat_: NatKind, now: Time, freshId: u64): ChannelState {
    var d := WithId(c, freshId);
    if HasSession(d, name, addr) then Refresh(d, name, addr, now) else AddNew(d, name, addr, nat_, now)
  }

  // DISCONNECT (src/signaling/handlers/disconnect.rs, utils.rs, notifications.rs)

  predicate LeavingRelay(c: ChannelState, name: Name, addr: Addr) {
    HasSession(c, name, addr) && c.relay == Some(name)
  }

  /** The lock section of DISCONNECT, with its provisional relay. */
  function Leave(c: ChannelState, name: Name, addr: Addr): ChannelState {
    var i := Position(IsSession(name, addr), c.users);
    if i == |c.users| then c
    else
      var users := RemoveAt(c.users, i);
      if c.relay != Some(name) then c.(users := users)
      else if users == [] then c.(users := users, relay := None)
      else c.(users := users, relay := Some(users[0].name))
  }

  // PEER_TIMEOUT, REQUEST_RELAY, refreshes, moving to another channel

  function DropPeer(c: ChannelState, name: Name): ChannelState {
    var users := Filter(NotNamed(name), c.users);
    if |users| == 1 then c.(users := users, relay := Some(users[0].name)) else c.(users := users)
  }

  /** REQUEST_RELAY latches `needs_server_relay` of the first user of that name. */
  function Latch(c: ChannelState, name: Name): ChannelState {
    var i := Position(Named(name), c.users);
    if i == |c.users| then c else c.(users := c.users[i := c.users[i].(needsServerRelay := true)])
  }

  function Touch(c: ChannelState, addr: Addr, now: Time): ChannelState {
    var i := Position(LocatedAt(addr), c.users);
    if i == |c.users| then c else c.(users := c.users[i := c.users[i].(lastPong := now)])
  }

  /** What a CONNECT to another channel does to this one. */
  function MoveAway(c: ChannelState, name: Name, addr: Addr): ChannelState {
    c.(users := Filter(NotSession(name, addr), c.users))
  }

  // Evolution of a channel

  ghost predicate SameIdentity(u: User, v: User) {
    u.peerId == v.peerId && u.name == v.name && u.addr == v.addr && u.natKind == v.natKind
  }

  /** `d` can come after `c`: the channel's id, once given, is the same; peer ids only
      grow; whoever has an old id is the old session, and a session that needed the server
      relay still does. */
  ghost predicate Evolves(c: ChannelState, d: ChannelState) {
    && c.nextPeerId <= d.nextPeerId && (c.channelId != 0 ==> d.channelId == c.channelId)
    && forall v :: v in d.users ==>
         || v.peerId >= c.nextPeerId
         || exists u :: u in c.users && SameIdentity(u, v) && (u.needsServerRelay ==> v.needsServerRelay)
  }

  lemma EvolvesTransitive(c: ChannelState, d: ChannelState, e: ChannelState)
    requires Evolves(c, d) && Evolves(d, e)
    ensures Evolves(c, e)
  {
  }

  lemma EvolvesWhenUsersRemain(c: ChannelState, d: ChannelState)
    requires d.nextPeerId == c.nextPeerId && d.channelId == c.channelId
    requires forall v :: v in d.users ==> v in c.users
    ensures Evolves(c, d)
  {
    forall v | v in d.users
      ensures exists u :: u in c.users && SameIdentity(u, v) && (u.needsServerRelay ==> v.needsServerRelay)
    {
      assert v in c.users && SameIdentity(v, v);
    }
  }

  /** An id names one session for as long as the channel exists. */
  lemma IdentityIsStable(c: ChannelState, d: ChannelState, u: User, v: User)
    requires WellFormed(c) && Evolves(c, d)
    requires u in c.users && v in d.users && u.peerId == v.peerId
    ensures SameIdentity(u, v)
    ensures u.needsServerRelay ==> v.needsServerRelay
  {
    var w :| w in c.users && SameIdentity(w, v) && (w.needsServerRelay ==> v.needsServerRelay);
    var i :| 0 <= i < |c.users| && c.users[i] == u;
    var j :| 0 <= j < |c.users| && c.users[j] == w;
  }

  /** Changing only the time stamp or setting the latch of one user. */
  lemma UpdateKeeps(c: ChannelState, i: nat, v: User)
    requires i < |c.users| && SameIdentity(c.users[i], v)
    requires c.users[i].needsServerRelay ==> v.needsServerRelay
    ensures Evolves(c, c.(users := c.users[i := v]))
    ensures WellFormed(c) ==> WellFormed(c.(users := c.users[i := v]))
  {
    var d := c.(users := c.users[i := v]);
    forall w | w in d.users
      ensures exists u :: u in c.users && SameIdentity(u, w) && (u.needsServerRelay ==> w.needsServerRelay)
    {
      var k :| 0 <= k < |d.users| && d.users[k] == w;
      assert c.users[k] in c.users && SameIdentity(c.users[k], w);
    }
  }

  lemma FilterStepKeeps(c: ChannelState, p: User -> bool)
    ensures Evolves(c, c.(users := Filter(p, c.users)))
    ensures WellFormed(c) ==> WellFormed(c.(users := Filter(p, c.users)))
  {
    EvolvesWhenUsersRemain(c, c.(users := Filter(p, c.users)));
    FilterKeeps(p, c.users);
  }

  /** Appending a session with the next id. */
  lemma AppendEvolves(c: ChannelState, u: User)
    requires u.peerId == c.nextPeerId < U32_MAX
    ensures Evolves(c, c.(users := c.users + [u], nextPeerId := c.nextPeerId + 1))
  {
    var d := c.(users := c.users + [u], nextPeerId := c.nextPeerId + 1);
    forall v | v in d.users && v != u ensures v in c.users && SameIdentity(v, v) {
      var i :| 0 <= i < |d.users| && d.users[i] == v;
      assert c.users[i] == v;
    }
  }

  lemma AppendWellFormed(c: ChannelState, u: User)
    requires u.peerId == c.nextPeerId < U32_MAX && WellFormed(c)
    requires u.natKind == Symmetric ==> u.needsServerRelay
    requires forall v :: v in c.users ==> v.name != u.name
    ensures WellFormed(c.(users := c.users + [u], nextPeerId := c.nextPeerId + 1))
  {
    var d := c.(users := c.users + [u], nextPeerId := c.nextPeerId + 1);
    forall v | v in d.users ensures v in c.users || v == u {
      var i :| 0 <= i < |d.users| && d.users[i] == v;
      if i < |c.users| { assert c.users[i] == v; }
    }
    forall i, j | 0 <= i < j < |d.users|
      ensures d.users[i].name != d.users[j].name && d.users[i].peerId < d.users[j].peerId
    {
      assert d.users[i] == c.users[i] && c.users[i] in c.users;
    }
  }

  lemma AdmitKeeps(c: ChannelState, name: Name, addr: Addr, nat_: NatKind, now: Time)
    requires !HasSession(c, name, addr) && c.nextPeerId < U32_MAX
    ensures Evolves(c, Admit(c, name, addr, nat_, now))
    ensures WellFormed(c) ==> WellFormed(Admit(c, name, addr, nat_, now))
  {
    var b := c.(users := Filter(NotStale(name, addr), c.users));
    FilterStepKeeps(c, NotStale(name, addr));
    NoOneLeftNamed(c, name, addr);
    AppendEvolves(b, NewUser(name, addr, nat_, c.nextPeerId, now));
    if WellFormed(c) {
      AppendWellFormed(b, NewUser(name, addr, nat_, c.nextPeerId, now));
    }
    EvolvesTransitive(c, b, Admit(c, name, addr, nat_, now));
  }

  lemma NoOneLeftNamed(c: ChannelState, name: Name, addr: Addr)
    requires !HasSession(c, name, addr)
    ensures forall u :: u in Filter(NotStale(name, addr), c.users) <==> u in c.users && u.name != name
  {
    forall u | u in c.users ensures NotStale(name, addr)(u) <==> u.name != name {
      var i :| 0 <= i < |c.users| && c.users[i] == u;
      assert !IsSession(name, addr)(c.users[i]);
    }
  }

  /** The id counter is where the invariant can end: admitting a session keeps it
      exactly when the u32 does not wrap. */
  lemma AdmitKeepsIdsUnlessWrapped(c: ChannelState, name: Name, addr: Addr, nat_: NatKind, now: Time)
    requires WellFormed(c) && !HasSession(c, name, addr)
    ensures IdsOrdered(Admit(c, name, addr, nat_, now)) <==> c.nextPeerId != U32_MAX
  {
    var d := Admit(c, name, addr, nat_, now);
    if c.nextPeerId == U32_MAX {
      assert NewUser(name, addr, nat_, c.nextPeerId, now) in d.users;
    } else {
      AdmitKeeps(c, name, addr, nat_, now);
    }
  }

  /** CONNECT's lock section. */
  lemma EnterKeeps(c: ChannelState, name: Name, addr: Addr, nat_: NatKind, now: Time, freshId: u64)
    requires c.nextPeerId < U32_MAX
    ensures var d := Enter(c, name, addr, nat_, now, freshId);
            && Evolves(c, d) && (WellFormed(c) ==> WellFormed(d)) && HasSession(d, name, addr)
            && (HasSession(c, name, addr) ==> d.nextPeerId == c.nextPeerId)
            && (!HasSession(c, name, addr) ==>
                  |d.users| > 0 && d.users[|d.users| - 1].peerId == c.nextPeerId && d.nextPeerId == c.nextPeerId + 1)
  {
    WithIdKeeps(c, freshId);
    if HasSession(c, name, addr) {
      RefreshKeeps(WithId(c, freshId), name, addr, now);
    } else {
      AddNewKeeps(WithId(c, freshId), name, addr, nat_, now);
    }
  }

  lemma WithIdKeeps(c: ChannelState, freshId: u64)
    ensures var b := WithId(c, freshId);
            && b.users == c.users && b.nextPeerId == c.nextPeerId && b.relay == c.relay
            && (WellFormed(c) ==> WellFormed(b))
    ensures forall d :: Evolves(WithId(c, freshId), d) ==> Evolves(c, d)
  {
  }

  lemma RefreshKeeps(c: ChannelState, name: Name, addr: Addr, now: Time)
    requires HasSession(c, name, addr)
    ensures var d := Refresh(c, name, addr, now);
            && Evolves(c, d) && (WellFormed(c) ==> WellFormed(d)) && HasSession(d, name, addr)
            && d.nextPeerId == c.nextPeerId
  {
    var i := Position(IsSession(name, addr), c.users);
    UpdateKeeps(c, i, c.users[i].(lastPong := now));
    assert IsSession(name, addr)(Refresh(c, name, addr, now).users[i]);
  }

  lemma AddNewKeeps(c: ChannelState, name: Name, addr: Addr, nat_: NatKind, now: Time)
    requires !HasSession(c, name, addr) && c.nextPeerId < U32_MAX
    ensures var d := AddNew(c, name, addr, nat_, now);
            && Evolves(c, d) && (WellFormed(c) ==> WellFormed(d)) && HasSession(d, name, addr)
            && |d.users| > 0 && d.users[|d.users| - 1].peerId == c.nextPeerId && d.nextPeerId == c.nextPeerId + 1
  {
    var a := Admit(c, name, addr, nat_, now);
    AdmitKeeps(c, name, addr, nat_, now);
    SettleLoneKeeps(c, a);
    LastIsSession(a, name, addr);
  }

  lemma SettleLoneKeeps(c: ChannelState, a: ChannelState)
    ensures SettleLone(a).users == a.users && SettleLone(a).nextPeerId == a.nextPeerId
    ensures (Evolves(c, a) ==> Evolves(c, SettleLone(a))) && (WellFormed(a) ==> WellFormed(SettleLone(a)))
  {
  }

  lemma LastIsSession(a: ChannelState, name: Name, addr: Addr)
    requires a.users != [] && IsSession(name, addr)(a.users[|a.users| - 1])
    ensures HasSession(SettleLone(a), name, addr)
  {
  }

  /** A session that comes back under its name and address is found as it was, with its id. */
  lemma ReturningSession(c: ChannelState, name: Name, addr: Addr, nat_: NatKind, now: Time, freshId: u64)
    requires HasSession(c, name, addr)
    ensures var d, i := Enter(c, name, addr, nat_, now, freshId), Position(IsSession(name, addr), c.users);
            && |d.users| == |c.users| && Position(IsSession(name, addr), d.users) == i
            && d.users[i] == c.users[i].(lastPong := now)
            && forall j :: 0 <= j < |c.users| && j != i ==> d.users[j] == c.users[j]
  {
    var i := Position(IsSession(name, addr), c.users);
    var users := Enter(c, name, addr, nat_, now, freshId).users;
    assert users == c.users[i := c.users[i].(lastPong := now)];
    var k := Position(IsSession(name, addr), users);
    assert IsSession(name, addr)(users[i]);
    assert forall j :: 0 <= j < i ==> users[j] == c.users[j];
  }

  lemma LeaveKeeps(c: ChannelState, name: Name, addr: Addr)
    ensures Evolves(c, Leave(c, name, addr))
    ensures WellFormed(c) ==> WellFormed(Leave(c, name, addr))
  {
    var i, d := Position(IsSession(name, addr), c.users), Leave(c, name, addr);
    if i < |c.users| {
      RemoveAtMembers(c.users, i);
    }
    assert d.nextPeerId == c.nextPeerId && d.channelId == c.channelId && forall v :: v in d.users ==> v in c.users;
    EvolvesWhenUsersRemain(c, d);
  }

  lemma RemoveAtMembers(users: seq<User>, i: nat)
    requires i < |users|
    ensures forall u :: u in RemoveAt(users, i) ==> u in users
    ensures DistinctNames(users) ==> DistinctNames(RemoveAt(users, i))
    ensures IdsAscend(users) ==> IdsAscend(RemoveAt(users, i))
  {
    var r := RemoveAt(users, i);
    assert forall j :: 0 <= j < |r| ==> r[j] == users[if j < i then j else j + 1];
  }

  lemma LatchKeeps(c: ChannelState, name: Name)
    ensures Evolves(c, Latch(c, name))
    ensures WellFormed(c) ==> WellFormed(Latch(c, name))
  {
    var i := Position(Named(name), c.users);
    if i < |c.users| {
      UpdateKeeps(c, i, c.users[i].(needsServerRelay := true));
    } else {
      EvolvesWhenUsersRemain(c, c);
    }
  }
}
