/** Exactly what each request of a client makes the server send, and how much. */
module Tellings {
  import opened ChannelRounds
  import opened ChannelSteps
  import opened Election
  import opened Ints
  import opened Seqs
  import opened Structures
  import opened Wrappers

  // The parts

  lemma MapMembers<T(!new), U(!new)>(f: T -> U, s: seq<T>, y: U)
    ensures y in Map(f, s) <==> exists x :: x in s && y == f(x)
  {
    if x :| x in s && y == f(x) {
      MapHas(f, s, x);
    }
    if y in Map(f, s) {
      var i :| 0 <= i < |s| && y == f(s[i]);
      assert s[i] in s;
    }
  }

  /** Those of whom the new or confirmed relay `r` hears, and who hear of it. */
  ghost predicate Introduces(users: seq<User>, r: User, p: User, g: Datagram) {
    && p in users && p.name != r.name
    && (g == Datagram(r.addr, [ModeDirect(p.name, p.addr)]) || g == Datagram(p.addr, [ModeDirect(r.name, r.addr)]))
  }

  ghost predicate SaysServed(users: seq<User>, r: User, s: User, g: Datagram) {
    && s in users && s.name != r.name && s.needsServerRelay
    && (g == Datagram(s.addr, [ModeServerRelay(s.name)]) || g == Datagram(r.addr, [ModeServerRelay(s.name)]))
  }

  /** The server relays for everyone: each user hears so of each user. */
  ghost predicate SaysAllServed(users: seq<User>, g: Datagram) {
    exists p, s :: p in users && s in users && g == Datagram(p.addr, [ModeServerRelay(s.name)])
  }

  /** What an election among several users of a channel tells them, `relay` being the relay before it. */
  ghost predicate ElectionSays(users: seq<User>, relay: Option<Name>, g: Datagram) {
    match PickOnNotify(users)
    case Some(r) =>
      || (exists p :: Introduces(users, r, p, g) && !p.needsServerRelay)
      || (relay != Some(r.name) && g == Datagram(r.addr, [ModeRelay]))
      || (exists s :: SaysServed(users, r, s, g))
    case None => SaysAllServed(users, g)
  }

  lemma IntroductionsTell(users: seq<User>, r: User, changed: bool, g: Datagram)
    ensures g in RelayNotices(users, r, changed) <==>
            || (exists p :: Introduces(users, r, p, g) && !p.needsServerRelay)
            || (changed && g == Datagram(r.addr, [ModeRelay]))
  {
    var direct := Filter(DirectPeerOf(r.name), users);
    MapMembers(Introduce(r.addr), direct, g);
    MapMembers(IntroduceTo(r), direct, g);
    if p :| Introduces(users, r, p, g) && !p.needsServerRelay {
      assert p in direct && (g == Introduce(r.addr)(p) || g == IntroduceTo(r)(p));
    }
    if p :| p in direct && (g == Introduce(r.addr)(p) || g == IntroduceTo(r)(p)) {
      assert Introduces(users, r, p, g) && !p.needsServerRelay;
    }
  }

  lemma ServedTell(users: seq<User>, r: User, g: Datagram)
    ensures g in ServedNotices(users, r) <==> exists s :: SaysServed(users, r, s, g)
  {
    var served := Filter(ServerPeerOf(r.name), users);
    FlatMapMembers(ServerRelayPair(r), served);
    if s :| SaysServed(users, r, s, g) {
      assert s in served && g in ServerRelayPair(r)(s);
    }
    if s :| s in served && g in ServerRelayPair(r)(s) {
      assert SaysServed(users, r, s, g);
    }
  }

  lemma AllServedTell(users: seq<User>, g: Datagram)
    ensures g in ServerRelays(users) <==> SaysAllServed(users, g)
  {
    FlatMapMembers(ServerRelayToAll(users), users);
    if p, s :| p in users && s in users && g == Datagram(p.addr, [ModeServerRelay(s.name)]) {
      MapHas(ServerRelayFor(s.name), users, p);
      assert g in ServerRelayToAll(users)(s);
    }
    if s :| s in users && g in ServerRelayToAll(users)(s) {
      MapMembers(ServerRelayFor(s.name), users, g);
    }
  }

  /** Both directions: nobody is left out and nothing else is said. */
  lemma ElectionTells(users: seq<User>, relay: Option<Name>, g: Datagram)
    ensures g in ElectionNotices(users, relay) <==> ElectionSays(users, relay, g)
  {
    match PickOnNotify(users)
    case Some(r) =>
      IntroductionsTell(users, r, relay != Some(r.name), g);
      ServedTell(users, r, g);
    case None => AllServedTell(users, g);
  }

  lemma {:induction false} PairCount(r: User, served: seq<User>)
    ensures |FlatMap(ServerRelayPair(r), served)| == 2 * |served| - |Filter(LocatedAt(r.addr), served)|
  {
    if served != [] {
      PairCount(r, served[1..]);
    }
  }

  lemma {:induction false} AllServedCount(users: seq<User>, some: seq<User>)
    ensures |FlatMap(ServerRelayToAll(users), some)| == |some| * |users|
  {
    if some != [] {
      AllServedCount(users, some[1..]);
      assert |some| * |users| == |users| + |some[1..]| * |users|;
    }
  }

  /** Nothing is said twice: two datagrams per direct peer, two per served peer, or one for
      a served peer at the relay's own address, and one for a new relay. */
  lemma ElectionCount(users: seq<User>, relay: Option<Name>)
    ensures var n := |ElectionNotices(users, relay)|;
            match PickOnNotify(users)
            case Some(r) =>
              n == 2 * |Filter((u: User) => u.name != r.name && !u.needsServerRelay, users)|
                   + 2 * |Filter((u: User) => u.name != r.name && u.needsServerRelay, users)|
                   - |Filter((u: User) => u.addr == r.addr,
                             Filter((u: User) => u.name != r.name && u.needsServerRelay, users))|
                   + if relay != Some(r.name) then 1 else 0
            case None => n == |users| * |users|
  {
    match PickOnNotify(users)
    case Some(r) =>
      var served := (u: User) => u.name != r.name && u.needsServerRelay;
      FilterSame(DirectPeerOf(r.name), (u: User) => u.name != r.name && !u.needsServerRelay, users);
      FilterSame(ServerPeerOf(r.name), served, users);
      PairCount(r, Filter(served, users));
      FilterSame(LocatedAt(r.addr), (u: User) => u.addr == r.addr, Filter(served, users));
    case None => AllServedCount(users, users);
  }

  // CONNECT

  /** A CONNECT of a present session is answered with WELCOME and nothing else. */
  lemma ReturnTells(c: ChannelState, name: Name, addr: Addr, nat_: NatKind, now: Time, freshId: u64, i: nat)
    requires i < |c.users| && c.users[i].name == name && c.users[i].addr == addr
    requires forall j :: 0 <= j < i ==> !(c.users[j].name == name && c.users[j].addr == addr)
    ensures ConnectNotices(c, name, addr, nat_, now, freshId)
            == [Datagram(addr, [Welcome(if c.channelId == 0 then freshId else c.channelId, c.users[i].peerId)])]
  {
    assert IsSession(name, addr)(c.users[i]);
    assert Position(IsSession(name, addr), c.users) == i;
  }

  /** A CONNECT of a new session: WELCOME with its id; alone in a channel without relay the
      newcomer is told how it will be served; among others, what the election says. */
  lemma ArrivalTells(c: ChannelState, name: Name, addr: Addr, nat_: NatKind, now: Time, freshId: u64, g: Datagram)
    requires forall u :: u in c.users ==> !(u.name == name && u.addr == addr)
    ensures var users := Connect(c, name, addr, nat_, now, freshId).users;
            g in ConnectNotices(c, name, addr, nat_, now, freshId) <==>
            || g == Datagram(addr, [Welcome(if c.channelId == 0 then freshId else c.channelId, c.nextPeerId)])
            || (|users| == 1 && c.relay.None?
                && g == Datagram(addr, [if nat_ == Symmetric then ModeServerRelay(name) else ModeRelay]))
            || (|users| > 1 && ElectionSays(users, c.relay, g))
  {
    var users, w := Connect(c, name, addr, nat_, now, freshId).users, WithId(c, freshId);
    NotHere(c, name, addr);
    var a := Admit(w, name, addr, nat_, now);
    assert a.users == users && a.relay == c.relay && a.users != [];
    if |users| == 1 {
      LoneIntroducesNobody(users, name, addr);
    } else {
      ElectionTells(users, c.relay, g);
    }
  }

  lemma NotHere(c: ChannelState, name: Name, addr: Addr)
    requires forall u :: u in c.users ==> !(u.name == name && u.addr == addr)
    ensures !HasSession(c, name, addr)
  {
  }

  lemma {:induction false} LoneIntroducesNobody(users: seq<User>, name: Name, addr: Addr)
    requires |users| == 1
    requires users[0].addr == addr
    ensures FlatMap(MutualIntroduction(name, addr), users) == []
  {
    var f := MutualIntroduction(name, addr);
    assert FlatMap(f, users) == f(users[0]) + FlatMap(f, users[1..]);
    assert f(users[0]) == [];
  }

  /** One WELCOME, at most one line to a lone newcomer, and the election's datagrams once. */
  lemma ArrivalCount(c: ChannelState, name: Name, addr: Addr, nat_: NatKind, now: Time, freshId: u64)
    requires forall u :: u in c.users ==> !(u.name == name && u.addr == addr)
    ensures var users := Connect(c, name, addr, nat_, now, freshId).users;
            |ConnectNotices(c, name, addr, nat_, now, freshId)|
            == 1 + if |users| > 1 then |ElectionNotices(users, c.relay)| else if c.relay.None? then 1 else 0
  {
    var users, w := Connect(c, name, addr, nat_, now, freshId).users, WithId(c, freshId);
    NotHere(c, name, addr);
    var a := Admit(w, name, addr, nat_, now);
    assert a.users == users && a.relay == c.relay && a.users != [];
    if |users| == 1 {
      LoneIntroducesNobody(users, name, addr);
    }
  }

  /** Among others the newcomer is welcomed before anyone is told anything; alone in a
      channel without relay it is first told how it will be served. */
  lemma ArrivalOrder(c: ChannelState, name: Name, addr: Addr, nat_: NatKind, now: Time, freshId: u64)
    requires forall u :: u in c.users ==> !(u.name == name && u.addr == addr)
    ensures var users, sent := Connect(c, name, addr, nat_, now, freshId).users,
                ConnectNotices(c, name, addr, nat_, now, freshId);
            var welcome := Datagram(addr, [Welcome(if c.channelId == 0 then freshId else c.channelId, c.nextPeerId)]);
            && (|users| > 1 ==> |sent| > 0 && sent[0] == welcome && sent[1..] == ElectionNotices(users, c.relay))
            && (|users| == 1 && c.relay.None? ==> |sent| == 2 && sent[1] == welcome)
  {
    var users, w := Connect(c, name, addr, nat_, now, freshId).users, WithId(c, freshId);
    NotHere(c, name, addr);
    var a := Admit(w, name, addr, nat_, now);
    assert a.users == users && a.relay == c.relay && a.users != [];
    if |users| == 1 {
      LoneIntroducesNobody(users, name, addr);
    }
  }

  /** A new relay hears of its direct peers and they of it before it is told that it is the
      relay; the served ones are announced last. */
  lemma ElectionOrder(users: seq<User>, relay: Option<Name>, r: User)
    requires PickOnNotify(users) == Some(r)
    ensures var sent, direct := ElectionNotices(users, relay),
                Filter((u: User) => u.name != r.name && !u.needsServerRelay, users);
            && |sent| >= 2 * |direct|
            && (forall k :: 0 <= k < |direct| ==>
                  && sent[k] == Datagram(r.addr, [ModeDirect(direct[k].name, direct[k].addr)])
                  && sent[|direct| + k] == Datagram(direct[k].addr, [ModeDirect(r.name, r.addr)]))
            && (relay != Some(r.name) ==>
                  |sent| > 2 * |direct| && sent[2 * |direct|] == Datagram(r.addr, [ModeRelay]))
  {
    FilterSame(DirectPeerOf(r.name), (u: User) => u.name != r.name && !u.needsServerRelay, users);
  }

  /** Users elsewhere and the newcomer are introduced to each other. */
  lemma {:induction false} MutualTells(users: seq<User>, name: Name, addr: Addr, g: Datagram)
    ensures g in FlatMap(MutualIntroduction(name, addr), users) <==>
            exists u :: u in users && u.addr != addr
                        && (g == Datagram(u.addr, [ModeDirect(name, addr)])
                            || g == Datagram(addr, [ModeDirect(u.name, u.addr)]))
  {
    FlatMapMembers(MutualIntroduction(name, addr), users);
    if u :| u in users && u.addr != addr
            && (g == Datagram(u.addr, [ModeDirect(name, addr)]) || g == Datagram(addr, [ModeDirect(u.name, u.addr)])) {
      assert g in MutualIntroduction(name, addr)(u);
    }
  }

  // DISCONNECT

  /** Everyone left hears of the departure, with the session's address if there was such a
      session and 0.0.0.0:0 if not; a relay's departure tells a lone user that it is the
      relay, and more users what the election says. */
  lemma DepartureTells(c: ChannelState, name: Name, addr: Addr, g: Datagram)
    ensures var users, here := Disconnect(c, name, addr).users,
                exists u :: u in c.users && u.name == name && u.addr == addr;
            g in DisconnectNotices(c, name, addr) <==>
            || (exists p :: p in users
                            && g == Datagram(p.addr, [UserLeft(name, if here then addr else Addr(0, 0))]))
            || (here && c.relay == Some(name) && |users| == 1 && g == Datagram(users[0].addr, [ModeRelay]))
            || (here && c.relay == Some(name) && |users| > 1 && SuccessionSays(users, g))
  {
    HereIff(c, name, addr);
    var here := HasSession(c, name, addr);
    var users := Leave(c, name, addr).users;
    MapMembers(LeftNotice(name, if here then addr else UNSPECIFIED), users, g);
    if here && c.relay == Some(name) && |users| != 1 {
      SuccessionTells(users, g);
      if users == [] {
        assert ServerRelays([]) == [];
      }
    }
  }

  lemma HereIff(c: ChannelState, name: Name, addr: Addr)
    ensures HasSession(c, name, addr) <==> exists u :: u in c.users && u.name == name && u.addr == addr
  {
    if u :| u in c.users && u.name == name && u.addr == addr {
      var i :| 0 <= i < |c.users| && c.users[i] == u;
      assert IsSession(name, addr)(c.users[i]);
    }
  }

  /** The successor alone is appointed, and it and each other user are introduced to each
      other, whether served or not. */
  ghost predicate SuccessionSays(users: seq<User>, g: Datagram) {
    match PickOnNotify(users)
    case Some(r) => g == Datagram(r.addr, [ModeRelay]) || exists p :: Introduces(users, r, p, g)
    case None => SaysAllServed(users, g)
  }

  lemma SuccessionTells(users: seq<User>, g: Datagram)
    ensures g in TransitionNotices(users) <==> SuccessionSays(users, g)
  {
    match PickOnNotify(users)
    case Some(r) => PromotionTells(users, r, g);
    case None => AllServedTell(users, g);
  }

  lemma PromotionTells(users: seq<User>, r: User, g: Datagram)
    ensures g in PromotionNotices(r, Filter(NotNamed(r.name), users)) <==>
            g == Datagram(r.addr, [ModeRelay]) || exists p :: Introduces(users, r, p, g)
  {
    var peers := Filter(NotNamed(r.name), users);
    MapMembers(Introduce(r.addr), peers, g);
    MapMembers(IntroduceTo(r), peers, g);
    if p :| Introduces(users, r, p, g) {
      assert p in peers && (g == Introduce(r.addr)(p) || g == IntroduceTo(r)(p));
    }
    if p :| p in peers && (g == Introduce(r.addr)(p) || g == IntroduceTo(r)(p)) {
      assert Introduces(users, r, p, g);
    }
  }

  /** One USER_LEFT per user left, one datagram to a lone heir, and of a succession one
      appointment and two introductions per other user. */
  lemma DepartureCount(c: ChannelState, name: Name, addr: Addr)
    ensures var users, n := Disconnect(c, name, addr).users, |DisconnectNotices(c, name, addr)|;
            n == |users| + if !LeavingRelay(c, name, addr) then 0
                           else if |users| == 1 then 1
                           else
                             match PickOnNotify(users)
                             case Some(r) => 1 + 2 * |Filter((u: User) => u.name != r.name, users)|
                             case None => |users| * |users|
  {
    var users := Leave(c, name, addr).users;
    AllServedCount(users, users);
    match PickOnNotify(users)
    case Some(r) => FilterSame(NotNamed(r.name), (u: User) => u.name != r.name, users);
    case None =>
  }

  /** The USER_LEFTs come last, in list order. */
  lemma DepartureOrder(c: ChannelState, name: Name, addr: Addr, k: nat)
    requires k < |Disconnect(c, name, addr).users|
    ensures var users, sent := Disconnect(c, name, addr).users, DisconnectNotices(c, name, addr);
            && |sent| >= |users|
            && var g := sent[|sent| - |users| + k];
               g.dst == users[k].addr && |g.lines| == 1 && g.lines[0].UserLeft? && g.lines[0].name == name
  {
  }

  // PEER_TIMEOUT and REQUEST_RELAY

  /** After PEER_TIMEOUT everyone of another name hears once that the name has left. */
  lemma TimeoutTells(c: ChannelState, name: Name, g: Datagram)
    ensures var sent := Map(LeftNotice(name, UNSPECIFIED), DropPeer(c, name).users);
            && (g in sent <==>
                exists p :: p in c.users && p.name != name && g == Datagram(p.addr, [UserLeft(name, Addr(0, 0))]))
            && |sent| == |Filter((u: User) => u.name != name, c.users)|
  {
    MapMembers(LeftNotice(name, UNSPECIFIED), DropPeer(c, name).users, g);
    FilterSame(NotNamed(name), (u: User) => u.name != name, c.users);
  }

  /** After REQUEST_RELAY every member hears once that the server relays for the name. */
  lemma RequestTells(c: ChannelState, name: Name, g: Datagram)
    ensures var sent := Map(ServerRelayFor(name), Latch(c, name).users);
            && (g in sent <==> exists p :: p in c.users && g == Datagram(p.addr, [ModeServerRelay(name)]))
            && |sent| == |c.users|
  {
    var d := Latch(c, name);
    MapMembers(ServerRelayFor(name), d.users, g);
    if p :| p in c.users && g == Datagram(p.addr, [ModeServerRelay(name)]) {
      var i :| 0 <= i < |c.users| && c.users[i] == p;
      assert d.users[i] in d.users && d.users[i].addr == p.addr;
    }
    if p :| p in d.users && g == Datagram(p.addr, [ModeServerRelay(name)]) {
      var i :| 0 <= i < |d.users| && d.users[i] == p;
      assert c.users[i] in c.users && c.users[i].addr == p.addr;
    }
  }
}
