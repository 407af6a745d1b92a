/** CONNECT, DISCONNECT, PEER_TIMEOUT and REQUEST_RELAY carried through without
    interruption: the channel they leave, the datagrams they send, and exactly
    when they keep the relay the first eligible user. */
module ChannelRounds {
  import opened ChannelSteps
  import opened Election
  import opened Ints
  import opened Seqs
  import opened Structures
  import opened Wrappers

  // CONNECT

  function Announce(c: ChannelState): ChannelState {
    if |c.users| > 1 then c.(relay := NameOf(PickOnNotify(c.users))) else c
  }

  function Connect(c: ChannelState, name: Name, addr: Addr, nat_: NatKind, now: Time, freshId: u64): ChannelState {
    var d := Enter(c, name, addr, nat_, now, freshId);
    if HasSession(c, name, addr) then d else Announce(d)
  }

  function DirectPeerOf(name: Name): User -> bool { (u: User) => u.name != name && !u.needsServerRelay }
  function ServerPeerOf(name: Name): User -> bool { (u: User) => u.name != name && u.needsServerRelay }
  function Introduce(dst: Addr): User -> Datagram { (p: User) => Datagram(dst, [ModeDirect(p.name, p.addr)]) }
  function IntroduceTo(r: User): User -> Datagram { (p: User) => Datagram(p.addr, [ModeDirect(r.name, r.addr)]) }
  function ServerRelayFor(name: Name): User -> Datagram { (p: User) => Datagram(p.addr, [ModeServerRelay(name)]) }
  function LeftNotice(name: Name, addr: Addr): User -> Datagram {
    (p: User) => Datagram(p.addr, [UserLeft(name, addr)])
  }

  function ServerRelayPair(r: User): User -> seq<Datagram> {
    (s: User) =>
      [Datagram(s.addr, [ModeServerRelay(s.name)])]
      + (if r.addr != s.addr then [Datagram(r.addr, [ModeServerRelay(s.name)])] else [])
  }

  function ServerRelayToAll(users: seq<User>): User -> seq<Datagram> {
    (u: User) => Map(ServerRelayFor(u.name), users)
  }

  /** The server takes over as relay for everyone. */
  function ServerRelays(users: seq<User>): seq<Datagram> {
    FlatMap(ServerRelayToAll(users), users)
  }

  function MutualIntroduction(name: Name, addr: Addr): User -> seq<Datagram> {
    (u: User) =>
      if u.addr != addr
      then [Datagram(u.addr, [ModeDirect(name, addr)]), Datagram(addr, [ModeDirect(u.name, u.addr)])]
      else []
  }

  /** The relay and its direct peers are introduced to each other; a new relay is told so. */
  function RelayNotices(users: seq<User>, r: User, changed: bool): seq<Datagram> {
    var direct := Filter(DirectPeerOf(r.name), users);
    Map(Introduce(r.addr), direct) + Map(IntroduceTo(r), direct)
        + (if changed then [Datagram(r.addr, [ModeRelay])] else [])
  }

  /** Served members and the relay hear that the server relays for them. */
  function ServedNotices(users: seq<User>, r: User): seq<Datagram> {
    FlatMap(ServerRelayPair(r), Filter(ServerPeerOf(r.name), users))
  }

  /** What the election among several users announces, `relay` being the relay before it. */
  function ElectionNotices(users: seq<User>, relay: Option<Name>): seq<Datagram> {
    match PickOnNotify(users)
    case Some(r) => RelayNotices(users, r, relay != Some(r.name)) + ServedNotices(users, r)
    case None => ServerRelays(users)
  }

  /** What `handle_connect_notifications` sends, `relay` being the channel's relay at that moment. */
  function AnnounceNotices(users: seq<User>, relay: Option<Name>, name: Name, addr: Addr): seq<Datagram> {
    if |users| > 1 then ElectionNotices(users, relay) else FlatMap(MutualIntroduction(name, addr), users)
  }

  function ConnectNotices(c: ChannelState, name: Name, addr: Addr, nat_: NatKind, now: Time,
                          freshId: u64): seq<Datagram> {
    var b, d := WithId(c, freshId), Enter(c, name, addr, nat_, now, freshId);
    var i := Position(IsSession(name, addr), c.users);
    if i < |c.users| then [Datagram(addr, [Welcome(d.channelId, c.users[i].peerId)])]
    else
      LoneNotice(Admit(b, name, addr, nat_, now))
      + [Datagram(addr, [Welcome(d.channelId, c.nextPeerId)])]
      + AnnounceNotices(d.users, d.relay, name, addr)
  }

  lemma ConnectNoticesParts(c: ChannelState, name: Name, addr: Addr, nat_: NatKind, now: Time, freshId: u64,
                            before: seq<Datagram>)
    ensures var d, i := Enter(c, name, addr, nat_, now, freshId), Position(IsSession(name, addr), c.users);
            before + ConnectNotices(c, name, addr, nat_, now, freshId)
            == if i < |c.users| then before + [Datagram(addr, [Welcome(d.channelId, c.users[i].peerId)])]
               else before + LoneNotice(Admit(WithId(c, freshId), name, addr, nat_, now))
                    + [Datagram(addr, [Welcome(d.channelId, c.nextPeerId)])]
                    + AnnounceNotices(d.users, d.relay, name, addr)
  {
    var d := Enter(c, name, addr, nat_, now, freshId);
    var x, y := LoneNotice(Admit(WithId(c, freshId), name, addr, nat_, now)),
                [Datagram(addr, [Welcome(d.channelId, c.nextPeerId)])];
    var z := AnnounceNotices(d.users, d.relay, name, addr);
    assert before + (x + y + z) == before + x + y + z;
  }

  // DISCONNECT

  /** `handle_disconnect_notifications`: a relay's departure that leaves one user
      keeps the provisional choice, any other departure of a relay re-elects. */
  function Resettle(c: ChannelState, wasRelay: bool): ChannelState {
    if wasRelay && |c.users| != 1 then c.(relay := NameOf(PickOnNotify(c.users))) else c
  }

  function Disconnect(c: ChannelState, name: Name, addr: Addr): ChannelState {
    Resettle(Leave(c, name, addr), LeavingRelay(c, name, addr))
  }

  function TransitionNotices(users: seq<User>): seq<Datagram> {
    match PickOnNotify(users)
    case Some(r) => PromotionNotices(r, Filter(NotNamed(r.name), users))
    case None => ServerRelays(users)
  }

  function PromotionNotices(r: User, peers: seq<User>): seq<Datagram> {
    [Datagram(r.addr, [ModeRelay])] + Map(IntroduceTo(r), peers) + Map(Introduce(r.addr), peers)
  }

  function DepartureNotices(users: seq<User>, wasRelay: bool): seq<Datagram> {
    if !wasRelay then []
    else if |users| == 1 then [Datagram(users[0].addr, [ModeRelay])]
    else TransitionNotices(users)
  }

  function DisconnectNotices(c: ChannelState, name: Name, addr: Addr): seq<Datagram> {
    var users := Leave(c, name, addr).users;
    DepartureNotices(users, LeavingRelay(c, name, addr))
    + Map(LeftNotice(name, if HasSession(c, name, addr) then addr else UNSPECIFIED), users)
  }

  lemma DisconnectNoticesParts(c: ChannelState, name: Name, addr: Addr, before: seq<Datagram>)
    ensures var users := Leave(c, name, addr).users;
            before + DisconnectNotices(c, name, addr)
            == before + DepartureNotices(users, LeavingRelay(c, name, addr))
               + Map(LeftNotice(name, if HasSession(c, name, addr) then addr else UNSPECIFIED), users)
  {
    var users := Leave(c, name, addr).users;
    var x, y := DepartureNotices(users, LeavingRelay(c, name, addr)),
                Map(LeftNotice(name, if HasSession(c, name, addr) then addr else UNSPECIFIED), users);
    assert before + (x + y) == before + x + y;
  }

  // Exactness

  lemma AnnounceExact(c: ChannelState)
    requires SymmetricNeedsRelay(c.users) && |c.users| > 1
    ensures RelayExact(Announce(c))
  {
    PickOnNotifyIsFirst(c.users);
  }

  /** A user list with the same names and eligibility elects the same relay. */
  lemma SameElection(users: seq<User>, i: nat, v: User, relay: Option<Name>)
    requires i < |users| && v.name == users[i].name && v.needsServerRelay == users[i].needsServerRelay
    ensures ExactRelay(users, relay) ==> ExactRelay(users[i := v], relay)
  {
    if ExactRelay(users, relay) {
      var r :| FirstEligible(users, r) && NameOf(r) == relay;
      if r.Some? {
        var k :| 0 <= k < |users| && users[k] == r.value && Eligible(r.value)
                 && forall j :: 0 <= j < k ==> !Eligible(users[j]);
        var w := users[i := v];
        assert FirstEligible(w, Some(w[k]));
      } else {
        forall u | u in users[i := v] ensures !Eligible(u) {
          var k :| 0 <= k < |users| && users[i := v][k] == u;
          assert users[k] in users;
        }
        assert FirstEligible(users[i := v], None);
      }
    }
  }

  lemma ExactUnique(users: seq<User>, a: Option<Name>, b: Option<Name>)
    requires ExactRelay(users, a) && ExactRelay(users, b)
    ensures a == b
  {
  }

  /** Self-repair: from any relay value, a CONNECT of a new session that ends with
      two or more users elects the first eligible one. */
  lemma ConnectRepairs(c: ChannelState, name: Name, addr: Addr, nat_: NatKind, now: Time, freshId: u64)
    requires WellFormed(c) && c.nextPeerId < U32_MAX && !HasSession(c, name, addr)
    ensures |Connect(c, name, addr, nat_, now, freshId).users| >= 2
            ==> RelayExact(Connect(c, name, addr, nat_, now, freshId))
  {
    EnterKeeps(c, name, addr, nat_, now, freshId);
    var d := Enter(c, name, addr, nat_, now, freshId);
    if |d.users| > 1 {
      AnnounceExact(d);
    }
  }

  /** The one CONNECT that breaks the relay: the lone relay comes back under its
      name from a new address, now behind a Symmetric NAT. */
  ghost predicate LoneRelayTurnsSymmetric(c: ChannelState, name: Name, addr: Addr, nat_: NatKind) {
    && !HasSession(c, name, addr) && nat_ == Symmetric && c.relay == Some(name)
    && forall u :: u in c.users ==> u.name == name
  }

  lemma ConnectExact(c: ChannelState, name: Name, addr: Addr, nat_: NatKind, now: Time, freshId: u64)
    requires WellFormed(c) && c.nextPeerId < U32_MAX && RelayExact(c)
    ensures RelayExact(Connect(c, name, addr, nat_, now, freshId)) <==> !LoneRelayTurnsSymmetric(c, name, addr, nat_)
  {
    var b, d := WithId(c, freshId), Enter(c, name, addr, nat_, now, freshId);
    if HasSession(c, name, addr) {
      var i := Position(IsSession(name, addr), c.users);
      SameElection(c.users, i, c.users[i].(lastPong := now), c.relay);
    } else {
      ConnectRepairs(c, name, addr, nat_, now, freshId);
      NoOneLeftNamed(b, name, addr);
      var kept := Filter(NotStale(name, addr), c.users);
      if kept != [] {
        assert kept[0] in kept;
      } else {
        assert forall u :: u in c.users ==> u.name == name;
        LoneConnectExact(c, name, addr, nat_, now, freshId);
      }
    }
  }

  lemma LoneConnectExact(c: ChannelState, name: Name, addr: Addr, nat_: NatKind, now: Time, freshId: u64)
    requires RelayExact(c) && !HasSession(c, name, addr) && Filter(NotStale(name, addr), c.users) == []
    requires forall u :: u in c.users ==> u.name == name
    ensures RelayExact(Connect(c, name, addr, nat_, now, freshId)) <==> !(nat_ == Symmetric && c.relay == Some(name))
  {
    var e, u := Connect(c, name, addr, nat_, now, freshId), NewUser(name, addr, nat_, c.nextPeerId, now);
    assert e.users == [u];
    assert c.relay.Some? ==> c.relay == Some(name);
    LoneExact(u, e.relay);
  }

  lemma ExactRelayIsMember(users: seq<User>, name: Name)
    ensures ExactRelay(users, Some(name)) ==> exists u :: u in users && u.name == name && Eligible(u)
  {
  }

  lemma LoneExact(u: User, relay: Option<Name>)
    ensures ExactRelay([u], relay) <==> relay == if Eligible(u) then Some(u.name) else None
  {
    var r := if Eligible(u) then Some(u) else None;
    assert [u][0] == u;
    assert FirstEligible([u], r);
    if ExactRelay([u], relay) {
      ExactUnique([u], relay, NameOf(r));
    }
  }

  /** Newcomers queue up behind the relay. */
  lemma AppendElection(users: seq<User>, u: User, relay: Option<Name>)
    requires ExactRelay(users, relay) && relay.Some?
    ensures ExactRelay(users + [u], relay)
  {
    var r :| FirstEligible(users, r) && NameOf(r) == relay;
    assert FirstEligible(users + [u], r) by {
      var k :| 0 <= k < |users| && users[k] == r.value && forall j :: 0 <= j < k ==> !Eligible(users[j]);
      assert (users + [u])[k] == r.value;
    }
  }

  /** Incumbency: a CONNECT under a fresh name leaves an exact relay in place and
      sends no MODE RELAY. */
  lemma RelayStays(c: ChannelState, name: Name, addr: Addr, nat_: NatKind, now: Time, freshId: u64)
    requires WellFormed(c) && RelayExact(c) && c.relay.Some?
    requires forall u :: u in c.users ==> u.name != name
    ensures Connect(c, name, addr, nat_, now, freshId).relay == c.relay
    ensures forall d :: d in ConnectNotices(c, name, addr, nat_, now, freshId) ==> ModeRelay !in d.lines
  {
    var d := Enter(c, name, addr, nat_, now, freshId);
    EnterFresh(c, name, addr, nat_, now, freshId);
    NewcomerKeepsPick(c, name, addr, nat_, now, freshId);
    NoModeRelay(d.users, PickOnNotify(d.users).value);
  }

  /** The list after a CONNECT under a fresh name. */
  lemma EnterFresh(c: ChannelState, name: Name, addr: Addr, nat_: NatKind, now: Time, freshId: u64)
    requires forall u :: u in c.users ==> u.name != name
    ensures var d := Enter(c, name, addr, nat_, now, freshId);
            && !HasSession(c, name, addr)
            && d.users == c.users + [NewUser(name, addr, nat_, c.nextPeerId, now)]
            && d.nextPeerId == Succ32(c.nextPeerId)
            && (c.users != [] || c.relay.Some? ==> d.relay == c.relay)
  {
    assert !HasSession(c, name, addr);
    FilterAll(NotStale(name, addr), c.users);
  }

  /** A CONNECT under a fresh name to a channel with a relay elects that relay. */
  lemma NewcomerKeepsPick(c: ChannelState, name: Name, addr: Addr, nat_: NatKind, now: Time, freshId: u64)
    requires SymmetricNeedsRelay(c.users) && RelayExact(c) && c.relay.Some?
    requires forall u :: u in c.users ==> u.name != name
    ensures NameOf(PickOnNotify(Enter(c, name, addr, nat_, now, freshId).users)) == c.relay
    ensures |c.users| > 0
  {
    var d, u := Enter(c, name, addr, nat_, now, freshId), NewUser(name, addr, nat_, c.nextPeerId, now);
    EnterFresh(c, name, addr, nat_, now, freshId);
    AppendElection(c.users, u, c.relay);
    PickOnNotifyIsFirst(c.users + [u]);
    ExactUnique(c.users + [u], c.relay, NameOf(PickOnNotify(c.users + [u])));
  }

  lemma NoModeRelay(users: seq<User>, r: User)
    ensures forall d :: d in RelayNotices(users, r, false) ==> ModeRelay !in d.lines
    ensures forall d :: d in ServedNotices(users, r) ==> ModeRelay !in d.lines
  {
    FlatMapMembers(ServerRelayPair(r), Filter(ServerPeerOf(r.name), users));
  }

  /** DISCONNECT keeps the relay exact, except when the relay's departure leaves
      one ineligible user. */
  lemma DisconnectExact(c: ChannelState, name: Name, addr: Addr)
    requires WellFormed(c) && RelayExact(c)
    ensures RelayExact(Disconnect(c, name, addr)) <==>
            !(LeavingRelay(c, name, addr) && |c.users| == 2
              && forall u :: u in c.users && u.name != name ==> u.needsServerRelay)
  {
    var i := Position(IsSession(name, addr), c.users);
    if i < |c.users| {
      RemoveAtIsFilter(c.users, i);
      if c.relay == Some(name) {
        RelayDepartureExact(c, i);
      } else {
        DropElection(c.users, name, c.relay);
      }
    }
  }

  lemma RelayDepartureExact(c: ChannelState, i: nat)
    requires WellFormed(c) && i < |c.users| && c.relay == Some(c.users[i].name)
    requires i == Position(IsSession(c.users[i].name, c.users[i].addr), c.users)
    ensures RelayExact(Disconnect(c, c.users[i].name, c.users[i].addr)) <==>
            !(|c.users| == 2 && forall u :: u in c.users && u.name != c.users[i].name ==> u.needsServerRelay)
  {
    var name, addr := c.users[i].name, c.users[i].addr;
    var d := Leave(c, name, addr);
    LeaveKeeps(c, name, addr);
    assert d.users == RemoveAt(c.users, i);
    if |c.users| == 2 {
      OnlyOther(c.users, i);
      assert d.users == [c.users[1 - i]] && Disconnect(c, name, addr) == d;
      LoneExact(c.users[1 - i], Some(c.users[1 - i].name));
    } else {
      ResettleExact(d);
    }
  }

  lemma OnlyOther(users: seq<User>, i: nat)
    requires i < |users| == 2 && DistinctNames(users)
    ensures RemoveAt(users, i) == [users[1 - i]]
    ensures forall u :: u in users && u.name != users[i].name <==> u == users[1 - i]
  {
  }

  /** Dropping everyone of a name other than the relay's keeps the election. */
  lemma DropElection(users: seq<User>, name: Name, relay: Option<Name>)
    requires ExactRelay(users, relay) && relay != Some(name)
    ensures ExactRelay(Filter(NotNamed(name), users), relay)
  {
    ExactIsPick(users, relay);
    FindFilter(NoRelayNeeded(), NotNamed(name), users);
    ExactIsPick(Filter(NotNamed(name), users), relay);
  }

  /** Whatever the provisional choice, two or more remaining users end up with the
      first eligible one, or none. */
  lemma ProvisionalRelayOverwritten(c: ChannelState, name: Name, addr: Addr)
    requires WellFormed(c) && LeavingRelay(c, name, addr) && |c.users| > 2
    ensures Leave(c, name, addr).relay == Some(Leave(c, name, addr).users[0].name)
    ensures RelayExact(Disconnect(c, name, addr))
  {
    LeaveKeeps(c, name, addr);
    ResettleExact(Leave(c, name, addr));
  }

  lemma ResettleExact(d: ChannelState)
    requires SymmetricNeedsRelay(d.users) && |d.users| != 1
    ensures RelayExact(Resettle(d, true))
  {
    PickOnNotifyIsFirst(d.users);
  }

  /** PEER_TIMEOUT keeps the relay exact just when it does not name the relay, or
      leaves one eligible user; and when it leaves one user, only if eligible. */
  lemma PeerTimeoutExact(c: ChannelState, name: Name)
    requires WellFormed(c) && RelayExact(c)
    ensures RelayExact(DropPeer(c, name)) <==>
            var users := Filter(NotNamed(name), c.users);
            if |users| == 1 then Eligible(users[0]) else c.relay != Some(name)
  {
    var users := Filter(NotNamed(name), c.users);
    if |users| == 1 {
      LoneExact(users[0], Some(users[0].name));
    } else if c.relay != Some(name) {
      DropElection(c.users, name, c.relay);
    }
  }

  /** REQUEST_RELAY keeps the relay exact just when it does not name the relay. */
  lemma LatchExact(c: ChannelState, name: Name)
    requires WellFormed(c) && RelayExact(c)
    ensures RelayExact(Latch(c, name)) <==> c.relay != Some(name)
  {
    var d, i := Latch(c, name), Position(Named(name), c.users);
    ExactIsPick(c.users, c.relay);
    FindIsAtPosition(NoRelayNeeded(), c.users);
    if i < |c.users| {
      if c.relay == Some(name) {
        forall u | u in d.users && u.name == name ensures !Eligible(u) {
          var m :| 0 <= m < |d.users| && d.users[m] == u;
          assert c.users[m].name == name;
        }
        ExactRelayIsMember(d.users, name);
      } else {
        FindUpdate(NoRelayNeeded(), c.users, i, d.users[i]);
        ExactIsPick(d.users, d.relay);
      }
    } else {
      ExactRelayIsMember(c.users, name);
    }
  }

  /** A session that moves away breaks the channel it leaves just when it was its relay. */
  lemma MoveAwayExact(c: ChannelState, name: Name, addr: Addr)
    requires WellFormed(c) && RelayExact(c)
    ensures RelayExact(MoveAway(c, name, addr)) <==> !LeavingRelay(c, name, addr)
  {
    var i := Position(IsSession(name, addr), c.users);
    if i == |c.users| {
      forall u | u in c.users ensures NotSession(name, addr)(u) {
        var k :| 0 <= k < |c.users| && c.users[k] == u;
      }
      FilterAll(NotSession(name, addr), c.users);
    } else {
      forall u | u in c.users && !NotSession(name, addr)(u) ensures u == c.users[i] {
        SameName(c.users, u, c.users[i]);
      }
      SessionFilterIsNameFilter(c.users, name, addr);
      if c.relay != Some(name) {
        DropElection(c.users, name, c.relay);
      }
    }
  }

  lemma {:induction false} SessionFilterIsNameFilter(users: seq<User>, name: Name, addr: Addr)
    requires forall u :: u in users && u.name == name ==> u.addr == addr
    ensures Filter(NotSession(name, addr), users) == Filter(NotNamed(name), users)
  {
    if users != [] {
      assert forall u :: u in users[1..] ==> u in users;
      SessionFilterIsNameFilter(users[1..], name, addr);
    }
  }
}
