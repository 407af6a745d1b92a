/** The CONNECT of a client, with the delivery of what it makes the server send. */
module Joining {
  import opened Agreement
  import opened Announcements
  import opened ChannelRounds
  import opened ChannelSteps
  import opened ClientSteps
  import opened Election
  import opened Hearing
  import opened Ints
  import opened Seqs
  import opened Structures
  import opened Views
  import opened Wrappers

  // What a CONNECT with two or more users announces

  lemma IntroductionsSound(c: ChannelState, r: User, changed: bool)
    requires DistinctAddrs(c.users) && r in c.users && c.relay == Some(r.name)
    ensures AllSound(c, RelayNotices(c.users, r, changed))
  {
    var direct := Filter(DirectPeerOf(r.name), c.users);
    forall d, u, l | d in RelayNotices(c.users, r, changed) && u in c.users && u.addr == d.dst && l in d.lines
      ensures Sound(c, u, l)
    {
      if d in Map(Introduce(r.addr), direct) {
        var i :| 0 <= i < |direct| && d == Introduce(r.addr)(direct[i]);
        assert direct[i] in direct;
        SameAddr(c.users, u, r);
      } else if d in Map(IntroduceTo(r), direct) {
        var i :| 0 <= i < |direct| && d == IntroduceTo(r)(direct[i]);
        assert direct[i] in direct;
        SameAddr(c.users, u, direct[i]);
      } else {
        SameAddr(c.users, u, r);
      }
    }
  }

  lemma ServedNoticesSound(c: ChannelState, r: User)
    requires DistinctNames(c.users) && DistinctAddrs(c.users) && r in c.users
    ensures AllSound(c, ServedNotices(c.users, r))
  {
    forall g | g in ServedNotices(c.users, r) ensures SoundFor(c, g) {
      var s := ServedBehind(c.users, r, g);
      ServedSound(c, s, g);
    }
  }

  lemma ServedBehind(users: seq<User>, r: User, g: Datagram) returns (s: User)
    requires g in ServedNotices(users, r)
    ensures s in users && s.needsServerRelay && g.lines == [ModeServerRelay(s.name)]
  {
    var served := Filter(ServerPeerOf(r.name), users);
    FlatMapMembers(ServerRelayPair(r), served);
    s :| s in served && g in ServerRelayPair(r)(s);
  }

  /** Anyone may be told of a served member. */
  lemma ServedSound(c: ChannelState, s: User, g: Datagram)
    requires DistinctNames(c.users) && s in c.users && s.needsServerRelay && g.lines == [ModeServerRelay(s.name)]
    ensures SoundFor(c, g)
  {
    forall v | v in c.users && v.name == s.name ensures v.needsServerRelay { SameName(c.users, v, s); }
  }

  lemma ServerRelaysSound(c: ChannelState)
    requires forall u :: u in c.users ==> u.needsServerRelay
    ensures AllSound(c, ServerRelays(c.users))
  {
    FlatMapMembers(ServerRelayToAll(c.users), c.users);
    forall d, u, l | d in ServerRelays(c.users) && u in c.users && u.addr == d.dst && l in d.lines
      ensures Sound(c, u, l)
    {
      var s :| s in c.users && d in ServerRelayToAll(c.users)(s);
      assert l == ModeServerRelay(s.name);
    }
  }

  /** All notices of such a CONNECT, `first` being what precedes them. */
  function Notices(first: seq<Datagram>, users: seq<User>, r: User, changed: bool): seq<Datagram> {
    first + RelayNotices(users, r, changed) + ServedNotices(users, r)
  }

  ghost predicate Elected(c: ChannelState, r: User) {
    DistinctNames(c.users) && DistinctAddrs(c.users) && r in c.users && c.relay == Some(r.name) && Eligible(r)
  }

  lemma NoticesSound(c: ChannelState, first: seq<Datagram>, r: User, changed: bool)
    requires Elected(c, r) && AllSound(c, first)
    ensures AllSound(c, Notices(first, c.users, r, changed))
  {
    IntroductionsSound(c, r, changed);
    ServedNoticesSound(c, r);
  }

  /** The relay hears of every eligible member, that it is the relay, and of every served member. */
  lemma RelayHears(c: ChannelState, first: seq<Datagram>, r: User, changed: bool, v: User)
    requires Elected(c, r) && v in c.users && v != r
    ensures changed ==> ModeRelay in Inbox(r.addr, first + RelayNotices(c.users, r, changed))
    ensures Eligible(v) ==> ModeDirect(v.name, v.addr) in Inbox(r.addr, first + RelayNotices(c.users, r, changed))
    ensures !Eligible(v) ==> ModeServerRelay(v.name) in Inbox(r.addr, ServedNotices(c.users, r))
  {
    var sent := first + RelayNotices(c.users, r, changed);
    if v.name == r.name { SameName(c.users, v, r); }
    if v.addr == r.addr { SameAddr(c.users, v, r); }
    if changed {
      Received(r.addr, sent, Datagram(r.addr, [ModeRelay]), ModeRelay);
    }
    if Eligible(v) {
      var d := Introduce(r.addr)(v);
      MapHas(Introduce(r.addr), Filter(DirectPeerOf(r.name), c.users), v);
      Received(r.addr, sent, d, ModeDirect(v.name, v.addr));
    } else {
      var d := Datagram(r.addr, [ModeServerRelay(v.name)]);
      FlatMapMembers(ServerRelayPair(r), Filter(ServerPeerOf(r.name), c.users));
      assert d in ServerRelayPair(r)(v);
      Received(r.addr, ServedNotices(c.users, r), d, ModeServerRelay(v.name));
    }
  }

  lemma HeardIsFine(c: ChannelState, u: User, lines: seq<Line>)
    requires forall l :: l in lines ==> Sound(c, u, l)
    ensures Fine(c, u, lines) && IntroducesOnly(c.users, lines)
  {
    SoundIsFine(c, u, lines);
    SoundIntroduces(c, u, lines, c.users);
  }

  lemma ChangeHeard(first: seq<Datagram>, users: seq<User>, r: User)
    ensures ModeRelay in Inbox(r.addr, first + RelayNotices(users, r, true))
  {
    Received(r.addr, first + RelayNotices(users, r, true), Datagram(r.addr, [ModeRelay]), ModeRelay);
  }

  lemma RelayInformed(c: ChannelState, first: seq<Datagram>, r: User, changed: bool, k: ClientState, now: Time)
    requires Elected(c, r) && AllSound(c, first) && Truthful(c, r, k) && (changed || k.isRelay)
    ensures Informed(c, r, Hear(k, Inbox(r.addr, Notices(first, c.users, r, changed)), now))
  {
    var front, back := first + RelayNotices(c.users, r, changed), ServedNotices(c.users, r);
    var x, y := Inbox(r.addr, front), Inbox(r.addr, back);
    NoticesSound(c, first, r, changed);
    InboxSound(c, r, front);
    InboxSound(c, r, back);
    HeardIsFine(c, r, x);
    HeardIsFine(c, r, y);
    FlatMapAppend(LinesTo(r.addr), front, back);
    HearAppend(k, x, y, now);
    var m := Hear(k, x, now);
    HearGains(k, x, now);
    HearGains(m, y, now);
    if changed {
      ChangeHeard(first, c.users, r);
      HearRelay(k, x, now);
    }
    forall v | v in c.users && v.name != r.name && Eligible(v) ensures Knows(Hear(m, y, now), v.addr) {
      RelayHears(c, first, r, changed, v);
      BecomesListed(c, c, r, k, x, now, v);
      StaysListed(c, r, m, y, now, v);
    }
    if v :| v in c.users && v.needsServerRelay {
      RelayHears(c, first, r, changed, v);
      if v.name == r.name { SameName(c.users, v, r); }
      HearOthersServed(m, y, now, v.name);
    }
  }

  lemma DirectInformed(c: ChannelState, first: seq<Datagram>, r: User, changed: bool, u: User, k: ClientState,
                       now: Time)
    requires Elected(c, r) && AllSound(c, first) && u in c.users && u != r && Eligible(u) && Truthful(c, u, k)
    ensures Informed(c, u, Hear(k, Inbox(u.addr, Notices(first, c.users, r, changed)), now))
  {
    var sent := Notices(first, c.users, r, changed);
    NoticesSound(c, first, r, changed);
    InboxSound(c, u, sent);
    if u.name == r.name { SameName(c.users, u, r); }
    var d := IntroduceTo(r)(u);
    MapHas(IntroduceTo(r), Filter(DirectPeerOf(r.name), c.users), u);
    Received(u.addr, sent, d, ModeDirect(r.name, r.addr));
    HeardIsFine(c, u, Inbox(u.addr, sent));
    BecomesListed(c, c, u, k, Inbox(u.addr, sent), now, r);
    forall q | q in c.users && c.relay == Some(q.name) ensures q == r { SameName(c.users, q, r); }
  }

  lemma ServedInformed(c: ChannelState, first: seq<Datagram>, r: User, changed: bool, u: User, k: ClientState,
                       now: Time)
    requires Elected(c, r) && AllSound(c, first) && u in c.users && !Eligible(u) && k.me == u.name
    ensures Informed(c, u, Hear(k, Inbox(u.addr, Notices(first, c.users, r, changed)), now))
  {
    var sent := Notices(first, c.users, r, changed);
    NoticesSound(c, first, r, changed);
    InboxSound(c, u, sent);
    if u.name == r.name { SameName(c.users, u, r); }
    var d := Datagram(u.addr, [ModeServerRelay(u.name)]);
    FlatMapMembers(ServerRelayPair(r), Filter(ServerPeerOf(r.name), c.users));
    assert d in ServerRelayPair(r)(u);
    Received(u.addr, sent, d, ModeServerRelay(u.name));
    assert !Sound(c, u, ModeRelay);
    HearServed(k, Inbox(u.addr, sent), now);
  }

  /** Every member has a client that believes nothing wrong of `c`. */
  ghost predicate AllTruthful(c: ChannelState, clients: map<Addr, ClientState>, server: Addr) {
    forall u :: u in c.users ==>
      u.addr != server && u.addr in clients && clients[u.addr].server == server && Truthful(c, u, clients[u.addr])
  }

  lemma TruthRecovers(c: ChannelState, clients: map<Addr, ClientState>, server: Addr, sent: seq<Datagram>)
    requires AllTruthful(c, clients, server)
    ensures AllRecover(c, clients, server, sent)
  {
  }

  lemma AgreedWithRelay(c: ChannelState, clients: map<Addr, ClientState>, server: Addr, first: seq<Datagram>, r: User,
                        changed: bool, now: Time)
    requires AllTruthful(c, clients, server) && Elected(c, r) && AllSound(c, first)
    requires changed || clients[r.addr].isRelay
    ensures Agreed(c, HearAll(clients, Notices(first, c.users, r, changed), now), server)
  {
    forall u | u in c.users
      ensures InformedBy(c, clients, Notices(first, c.users, r, changed), now, u)
    {
      if u == r {
        RelayInformed(c, first, r, changed, clients[u.addr], now);
      } else if Eligible(u) {
        DirectInformed(c, first, r, changed, u, clients[u.addr], now);
      } else {
        ServedInformed(c, first, r, changed, u, clients[u.addr], now);
      }
    }
    NoticesSound(c, first, r, changed);
    TruthRecovers(c, clients, server, Notices(first, c.users, r, changed));
    SoundSentFine(c, Notices(first, c.users, r, changed));
    AgreedAfter(c, clients, server, Notices(first, c.users, r, changed), now);
  }

  /** Without an eligible member everyone is told that the server serves it. */
  lemma AgreedWithoutRelay(c: ChannelState, clients: map<Addr, ClientState>, server: Addr, first: seq<Datagram>,
                           now: Time)
    requires AllTruthful(c, clients, server) && AllSound(c, first)
    requires c.relay.None? && forall u :: u in c.users ==> u.needsServerRelay
    ensures Agreed(c, HearAll(clients, first + ServerRelays(c.users), now), server)
  {
    var sent := first + ServerRelays(c.users);
    ServerRelaysSound(c);
    forall u | u in c.users ensures InformedBy(c, clients, sent, now, u) {
      InboxSound(c, u, sent);
      FlatMapMembers(ServerRelayToAll(c.users), c.users);
      MapHas(ServerRelayFor(u.name), c.users, u);
      assert ServerRelayFor(u.name)(u) in ServerRelayToAll(c.users)(u);
      Received(u.addr, sent, ServerRelayFor(u.name)(u), ModeServerRelay(u.name));
      assert !Sound(c, u, ModeRelay);
      HearServed(clients[u.addr], Inbox(u.addr, sent), now);
    }
    TruthRecovers(c, clients, server, sent);
    SoundSentFine(c, sent);
    AgreedAfter(c, clients, server, sent, now);
  }

  // CONNECT of a new client

  /** A first member told its part has it right. */
  lemma FirstAgrees(d: ChannelState, u: User, clients: map<Addr, ClientState>, server: Addr, cid: u64, pid: u32,
                    now: Time)
    requires d.users == [u] && d.relay == (if u.needsServerRelay then None else Some(u.name)) && u.addr != server
    ensures Agreed(d, HearAll(clients[u.addr := FreshClient(u.name, server)], FirstNotices(u, cid, pid), now), server)
  {
    var sent, k := FirstNotices(u, cid, pid), FreshClient(u.name, server);
    var told := if u.needsServerRelay then ModeServerRelay(u.name) else ModeRelay;
    Received(u.addr, sent, sent[0], told);
    assert AllSound(d, sent);
    assert u in d.users;
    InboxSound(d, u, sent);
    if u.needsServerRelay {
      assert !Sound(d, u, ModeRelay);
      HearServed(k, Inbox(u.addr, sent), now);
    } else {
      HearRelay(k, Inbox(u.addr, sent), now);
    }
    TruthRecovers(d, clients[u.addr := k], server, sent);
    SoundSentFine(d, sent);
    AgreedAfter(d, clients[u.addr := k], server, sent, now);
  }

  function FirstNotices(u: User, cid: u64, pid: u32): seq<Datagram> {
    [Datagram(u.addr, [if u.needsServerRelay then ModeServerRelay(u.name) else ModeRelay]),
     Datagram(u.addr, [Welcome(cid, pid)])]
  }

  /** The CONNECT of a lone member, everyone else being a stale session of its name. */
  lemma LoneConnect(c: ChannelState, name: Name, addr: Addr, nat_: NatKind, now: Time, freshId: u64)
    requires !HasSession(c, name, addr) && Filter(NotStale(name, addr), c.users) == [] && c.relay.None?
    ensures var u, d := NewUser(name, addr, nat_, c.nextPeerId, now), Connect(c, name, addr, nat_, now, freshId);
            && d.users == [u] && d.relay == (if u.needsServerRelay then None else Some(u.name))
            && ConnectNotices(c, name, addr, nat_, now, freshId) == FirstNotices(u, d.channelId, c.nextPeerId)
  {
    var u := NewUser(name, addr, nat_, c.nextPeerId, now);
    assert Admit(WithId(c, freshId), name, addr, nat_, now).users == [u];
    assert [u][1..] == [];
    assert FlatMap(MutualIntroduction(name, addr), [u]) == MutualIntroduction(name, addr)(u) + [];
  }

  /** What follows `first` once the channel has two or more users. */
  function NextNotices(e: ChannelState, first: seq<Datagram>): seq<Datagram> {
    match PickOnNotify(e.users)
    case Some(r) => Notices(first, e.users, r, e.relay != Some(r.name))
    case None => first + ServerRelays(e.users)
  }

  lemma AnnouncedNext(e: ChannelState, first: seq<Datagram>, name: Name, addr: Addr)
    requires |e.users| > 1
    ensures first + AnnounceNotices(e.users, e.relay, name, addr) == NextNotices(e, first)
  {
    match PickOnNotify(e.users)
    case Some(r) =>
      var x, y := RelayNotices(e.users, r, e.relay != Some(r.name)), ServedNotices(e.users, r);
      assert AnnounceNotices(e.users, e.relay, name, addr) == x + y;
      assert first + (x + y) == first + x + y;
    case None =>
  }

  /** The users of `c` that a CONNECT under `name` leaves listed. */
  function Others(c: ChannelState, name: Name, addr: Addr): seq<User> {
    Filter(NotStale(name, addr), c.users)
  }

  lemma {:induction false} StaleIsNamed(users: seq<User>, name: Name, addr: Addr)
    requires forall u :: u in users ==> !(u.name == name && u.addr == addr)
    ensures Filter(NotStale(name, addr), users) == Filter(NotNamed(name), users)
  {
    if users != [] {
      assert users[0] in users && forall u :: u in users[1..] ==> u in users;
      StaleIsNamed(users[1..], name, addr);
    }
  }

  lemma OthersAre(c: ChannelState, name: Name, addr: Addr)
    requires !HasSession(c, name, addr)
    ensures Others(c, name, addr) == Filter(NotNamed(name), c.users)
  {
    forall u | u in c.users ensures !(u.name == name && u.addr == addr) {
      var i :| 0 <= i < |c.users| && c.users[i] == u;
      assert !IsSession(name, addr)(c.users[i]);
    }
    StaleIsNamed(c.users, name, addr);
  }

  /** The CONNECT of a further member. */
  lemma NextConnect(c: ChannelState, name: Name, addr: Addr, nat_: NatKind, now: Time, freshId: u64)
    requires !HasSession(c, name, addr) && Others(c, name, addr) != []
    ensures var e := Enter(c, name, addr, nat_, now, freshId);
            && e.users == Others(c, name, addr) + [NewUser(name, addr, nat_, c.nextPeerId, now)] && e.relay == c.relay
            && Connect(c, name, addr, nat_, now, freshId) == Announce(e)
            && ConnectNotices(c, name, addr, nat_, now, freshId)
               == NextNotices(e, [Datagram(addr, [Welcome(e.channelId, c.nextPeerId)])])
  {
    var e := Enter(c, name, addr, nat_, now, freshId);
    NextEnters(c, name, addr, nat_, now, freshId);
    CrowdedConnect(c, name, addr, nat_, now, freshId);
    AnnouncedNext(e, [Datagram(addr, [Welcome(e.channelId, c.nextPeerId)])], name, addr);
  }

  lemma NextEnters(c: ChannelState, name: Name, addr: Addr, nat_: NatKind, now: Time, freshId: u64)
    requires !HasSession(c, name, addr) && Others(c, name, addr) != []
    ensures var e := Enter(c, name, addr, nat_, now, freshId);
            && e.users == Others(c, name, addr) + [NewUser(name, addr, nat_, c.nextPeerId, now)] && e.relay == c.relay
            && |e.users| >= 2
  {
  }

  lemma IncumbentKnows(c: ChannelState, clients: map<Addr, ClientState>, server: Addr, r: User)
    requires Agreed(c, clients, server) && r in c.users && c.relay == Some(r.name)
    ensures r.addr in clients && clients[r.addr].isRelay
  {
    assert InTune(c, clients, server, r);
  }

  // Who may join

  /** No other member's client lists someone of that name. */
  ghost predicate Unlisted(c: ChannelState, clients: map<Addr, ClientState>, name: Name) {
    forall u, p :: u in c.users && u.name != name && u.addr in clients && p in clients[u.addr].peers ==>
      p.username != name
  }

  /** If the name is the relay's, someone else takes over: an eligible member, or the
      server because the newcomer is behind a Symmetric NAT. */
  ghost predicate Succeeded(c: ChannelState, name: Name, nat_: NatKind) {
    c.relay == Some(name) ==> exists u :: u in c.users && u.name != name && (Eligible(u) || nat_ == Symmetric)
  }

  /** The condition under which the CONNECT of a new client leaves everyone in agreement:
      its session is not present, the id counter has room, the address is its own, and
      nobody relies on an older session of its name. */
  ghost predicate JoinSpares(c: ChannelState, clients: map<Addr, ClientState>, server: Addr, name: Name, addr: Addr,
                             nat_: NatKind) {
    && !HasSession(c, name, addr) && c.nextPeerId < U32_MAX && addr != server
    && (forall u :: u in c.users && u.name != name ==> u.addr != addr)
    && Unlisted(c, clients, name) && Succeeded(c, name, nat_)
  }

  function Newcomer(clients: map<Addr, ClientState>, server: Addr, name: Name, addr: Addr): map<Addr, ClientState> {
    clients[addr := FreshClient(name, server)]
  }

  /** Before anyone is told, nobody believes anything wrong of the channel as it is now. */
  lemma JoinTruthful(c: ChannelState, d: ChannelState, u: User, clients: map<Addr, ClientState>, server: Addr)
    requires Agreed(c, clients, server) && u.addr != server && Unlisted(c, clients, u.name)
    requires forall v :: v in c.users && v.name != u.name ==> v.addr != u.addr
    requires d.users == Filter(NotNamed(u.name), c.users) + [u]
    requires forall v :: v in c.users && v.name != u.name && c.relay == Some(v.name) ==> d.relay == c.relay
    ensures AllTruthful(d, Newcomer(clients, server, u.name, u.addr), server)
  {
    var others := Filter(NotNamed(u.name), c.users);
    forall v | v in others
      ensures v.addr != server && v.addr in clients && clients[v.addr].server == server && v.addr != u.addr
      ensures Truthful(d, v, clients[v.addr])
    {
      assert InTune(c, clients, server, v);
      forall p | p in clients[v.addr].peers ensures Describes(p, v, d.users) {
        assert Describes(p, v, c.users);
        var w :| w in c.users && w.name != v.name && w.name == p.username && w.addr == p.addr
            && (p.useServerRelay ==> w.needsServerRelay);
        assert w in others && w in d.users;
      }
    }
  }

  /** Members that were eligible come before the newcomer. */
  lemma EarlierElected(others: seq<User>, u: User, r: User, w: User)
    requires FirstEligible(others + [u], Some(r)) && w in others && Eligible(w)
    ensures r in others
  {
    var i :| 0 <= i < |others + [u]| && (others + [u])[i] == r
             && forall j :: 0 <= j < i ==> !Eligible((others + [u])[j]);
    var j :| 0 <= j < |others| && others[j] == w;
    assert (others + [u])[j] == w;
  }

  /** A relay of another name stays. */
  lemma RelayRemains(c: ChannelState, others: seq<User>, u: User)
    requires RelayExact(c) && c.relay.Some? && c.relay != Some(u.name) && others == Filter(NotNamed(u.name), c.users)
    requires SymmetricNeedsRelay(others + [u])
    ensures NameOf(PickOnNotify(others + [u])) == c.relay
  {
    DropElection(c.users, u.name, c.relay);
    AppendElection(others, u, c.relay);
    PickOnNotifyIsFirst(others + [u]);
    ExactUnique(others + [u], c.relay, NameOf(PickOnNotify(others + [u])));
  }

  /** The relay elected, if it is the one recorded, has a client that knows. */
  lemma ElectedKnows(c: ChannelState, e: ChannelState, u: User, nat_: NatKind, clients: map<Addr, ClientState>,
                     server: Addr, r: User)
    requires Settled(c, clients, server) && WellFormed(e) && e.relay == c.relay
    requires e.users == Filter(NotNamed(u.name), c.users) + [u]
    requires (forall v :: v in c.users && v.name != u.name ==> v.addr != u.addr) && Succeeded(c, u.name, nat_)
    requires (nat_ == Symmetric ==> u.needsServerRelay) && PickOnNotify(e.users) == Some(r) && e.relay == Some(r.name)
    ensures r in e.users && Newcomer(clients, server, u.name, u.addr)[u.addr].me == u.name
    ensures r.addr in clients && r.addr != u.addr && clients[r.addr].isRelay
  {
    var others := Filter(NotNamed(u.name), c.users);
    PickOnNotifyIsFirst(e.users);
    if r.name == u.name {
      assert u in e.users;
      SameName(e.users, r, u);
      var w :| w in c.users && w.name != u.name && (Eligible(w) || nat_ == Symmetric);
      EarlierElected(others, u, r, w);
    }
    assert r in others;
    IncumbentKnows(c, clients, server, r);
  }

  lemma NextAgrees(c: ChannelState, e: ChannelState, u: User, nat_: NatKind, clients: map<Addr, ClientState>,
                   server: Addr, first: seq<Datagram>, now: Time)
    requires Settled(c, clients, server) && WellFormed(e) && e.relay == c.relay && u.addr != server
    requires e.users == Filter(NotNamed(u.name), c.users) + [u] && DistinctAddrs(e.users)
    requires (forall v :: v in c.users && v.name != u.name ==> v.addr != u.addr) && Unlisted(c, clients, u.name)
    requires Succeeded(c, u.name, nat_) && (nat_ == Symmetric ==> u.needsServerRelay)
    requires |e.users| > 1 && AllSound(Announce(e), first)
    ensures Agreed(Announce(e), HearAll(Newcomer(clients, server, u.name, u.addr), NextNotices(e, first), now), server)
  {
    var d, more := Announce(e), Newcomer(clients, server, u.name, u.addr);
    PickOnNotifyIsFirst(e.users);
    if c.relay.Some? && c.relay != Some(u.name) {
      RelayRemains(c, Filter(NotNamed(u.name), c.users), u);
    }
    JoinTruthful(c, d, u, clients, server);
    match PickOnNotify(e.users)
    case Some(r) =>
      if e.relay == Some(r.name) {
        ElectedKnows(c, e, u, nat_, clients, server, r);
      }
      AgreedWithRelay(d, more, server, first, r, e.relay != Some(r.name), now);
    case None =>
      AgreedWithoutRelay(d, more, server, first, now);
  }

  lemma JoinDistinct(others: seq<User>, u: User)
    requires DistinctAddrs(others) && forall v :: v in others ==> v.addr != u.addr
    ensures DistinctAddrs(others + [u])
  {
    var all := others + [u];
    forall i, j | 0 <= i < j < |all| ensures all[i].addr != all[j].addr {
      assert all[i] == others[i] && others[i] in others;
    }
  }

  lemma NextJoinKeeps(c: ChannelState, clients: map<Addr, ClientState>, server: Addr, name: Name, addr: Addr,
                      nat_: NatKind, now: Time, freshId: u64)
    requires WellFormed(c) && Settled(c, clients, server) && JoinSpares(c, clients, server, name, addr, nat_)
    requires Others(c, name, addr) != []
    ensures Settled(Connect(c, name, addr, nat_, now, freshId),
                    HearAll(Newcomer(clients, server, name, addr),
                            ConnectNotices(c, name, addr, nat_, now, freshId), now),
                    server)
  {
    var e, u := Enter(c, name, addr, nat_, now, freshId), NewUser(name, addr, nat_, c.nextPeerId, now);
    OthersAre(c, name, addr);
    EnterKeeps(c, name, addr, nat_, now, freshId);
    NextConnect(c, name, addr, nat_, now, freshId);
    FilterKeeps(NotNamed(name), c.users);
    JoinDistinct(Others(c, name, addr), u);
    WelcomeSound(Announce(e), addr, e.channelId, c.nextPeerId);
    AnnounceExact(e);
    NextAgrees(c, e, u, nat_, clients, server, [Datagram(addr, [Welcome(e.channelId, c.nextPeerId)])], now);
  }

  lemma FirstJoinKeeps(c: ChannelState, clients: map<Addr, ClientState>, server: Addr, name: Name, addr: Addr,
                       nat_: NatKind, now: Time, freshId: u64)
    requires Settled(c, clients, server) && JoinSpares(c, clients, server, name, addr, nat_)
    requires Others(c, name, addr) == []
    ensures Settled(Connect(c, name, addr, nat_, now, freshId),
                    HearAll(Newcomer(clients, server, name, addr),
                            ConnectNotices(c, name, addr, nat_, now, freshId), now),
                    server)
  {
    var d, u := Connect(c, name, addr, nat_, now, freshId), NewUser(name, addr, nat_, c.nextPeerId, now);
    OthersAre(c, name, addr);
    LoneHasNoRelay(c, name, nat_);
    LoneConnect(c, name, addr, nat_, now, freshId);
    LoneExact(u, d.relay);
    FirstAgrees(d, u, clients, server, d.channelId, c.nextPeerId, now);
  }

  lemma LoneHasNoRelay(c: ChannelState, name: Name, nat_: NatKind)
    requires RelayExact(c) && Filter(NotNamed(name), c.users) == [] && Succeeded(c, name, nat_)
    ensures c.relay.None?
  {
    assert forall u :: u in c.users ==> u !in Filter(NotNamed(name), c.users);
    if c.relay.Some? {
      ExactRelayIsMember(c.users, c.relay.value);
    }
  }

  lemma WelcomeSound(d: ChannelState, addr: Addr, cid: u64, pid: u32)
    ensures AllSound(d, [Datagram(addr, [Welcome(cid, pid)])])
  {
  }

  // Who may not

  /** No line of `sent` makes anyone forget anyone. */
  ghost predicate ForgetsNobody(sent: seq<Datagram>) {
    forall g, l :: g in sent && l in g.lines ==> !l.UserLeft?
  }

  lemma ElectionForgetsNobody(users: seq<User>, relay: Option<Name>)
    ensures ForgetsNobody(ElectionNotices(users, relay))
  {
    match PickOnNotify(users)
    case Some(r) =>
      FlatMapMembers(ServerRelayPair(r), Filter(ServerPeerOf(r.name), users));
      assert ForgetsNobody(ServedNotices(users, r)) && ForgetsNobody(RelayNotices(users, r, relay != Some(r.name)));
    case None => FlatMapMembers(ServerRelayToAll(users), users);
  }

  lemma AnnouncementForgetsNobody(users: seq<User>, relay: Option<Name>, name: Name, addr: Addr)
    ensures ForgetsNobody(AnnounceNotices(users, relay, name, addr))
  {
    if |users| > 1 {
      ElectionForgetsNobody(users, relay);
    } else {
      FlatMapMembers(MutualIntroduction(name, addr), users);
    }
  }

  lemma ThreeForgetNobody(x: seq<Datagram>, y: seq<Datagram>, z: seq<Datagram>)
    requires ForgetsNobody(x) && ForgetsNobody(y) && ForgetsNobody(z)
    ensures ForgetsNobody(x + y + z)
  {
  }

  /** A CONNECT makes nobody forget anyone. */
  lemma ConnectForgetsNobody(c: ChannelState, name: Name, addr: Addr, nat_: NatKind, now: Time, freshId: u64)
    requires !HasSession(c, name, addr)
    ensures ForgetsNobody(ConnectNotices(c, name, addr, nat_, now, freshId))
  {
    var e, lone := Enter(c, name, addr, nat_, now, freshId),
        LoneNotice(Admit(WithId(c, freshId), name, addr, nat_, now));
    var welcome := [Datagram(addr, [Welcome(e.channelId, c.nextPeerId)])];
    AnnouncementForgetsNobody(e.users, e.relay, name, addr);
    ThreeForgetNobody(lone, welcome, AnnounceNotices(e.users, e.relay, name, addr));
  }

  /** An entry of an older session of the name stays on the list and is wrong from then on. */
  lemma StaleEntryStays(c: ChannelState, clients: map<Addr, ClientState>, server: Addr, name: Name, addr: Addr,
                        nat_: NatKind, now: Time, freshId: u64, u: User, p: PeerInfo)
    requires Settled(c, clients, server) && !HasSession(c, name, addr)
    requires u in c.users && u.name != name && u.addr in clients && u.addr != addr && p in clients[u.addr].peers
    requires p.username == name
    ensures !Agreed(Connect(c, name, addr, nat_, now, freshId),
                    HearAll(Newcomer(clients, server, name, addr),
                            ConnectNotices(c, name, addr, nat_, now, freshId), now),
                    server)
  {
    var d, sent := Connect(c, name, addr, nat_, now, freshId), ConnectNotices(c, name, addr, nat_, now, freshId);
    var after := HearAll(Newcomer(clients, server, name, addr), sent, now);
    assert InTune(c, clients, server, u) && Describes(p, u, c.users);
    ConnectForgetsNobody(c, name, addr, nat_, now, freshId);
    EntryStays(clients[u.addr], sent, u.addr, now, p);
    OldAddressGone(c, name, addr, nat_, now, freshId, p.addr);
    WrongEntryUntruthful(d, u, after[u.addr], name, p.addr);
    assert u in d.users && !InTune(d, after, server, u);
  }

  lemma EntryStays(k: ClientState, sent: seq<Datagram>, a: Addr, now: Time, p: PeerInfo)
    requires p in k.peers && ForgetsNobody(sent)
    ensures Lists(Hear(k, Inbox(a, sent), now), p.username, p.addr)
  {
    forall l | l in Inbox(a, sent) ensures !l.UserLeft? { InboxHas(a, sent, l); }
    HearKeepsListed(k, Inbox(a, sent), now, p.username, p.addr);
  }

  lemma WrongEntryUntruthful(d: ChannelState, u: User, k: ClientState, name: Name, a: Addr)
    requires Lists(k, name, a) && forall v :: v in d.users && v.name == name ==> v.addr != a
    ensures !Truthful(d, u, k)
  {
    var q :| q in k.peers && q.username == name && q.addr == a;
    assert !Describes(q, u, d.users);
  }

  lemma ConnectUsers(c: ChannelState, name: Name, addr: Addr, nat_: NatKind, now: Time, freshId: u64)
    requires !HasSession(c, name, addr)
    ensures Connect(c, name, addr, nat_, now, freshId).users
            == Filter(NotNamed(name), c.users) + [NewUser(name, addr, nat_, c.nextPeerId, now)]
  {
    OthersAre(c, name, addr);
  }

  lemma OldAddressGone(c: ChannelState, name: Name, addr: Addr, nat_: NatKind, now: Time, freshId: u64, a: Addr)
    requires !HasSession(c, name, addr) && exists v :: v in c.users && v.name == name && v.addr == a
    ensures forall v :: v in Connect(c, name, addr, nat_, now, freshId).users && v.name == name ==> v.addr != a
    ensures forall v :: v in c.users && v.name != name ==> v in Connect(c, name, addr, nat_, now, freshId).users
  {
    var w :| w in c.users && w.name == name && w.addr == a;
    var i :| 0 <= i < |c.users| && c.users[i] == w;
    assert !IsSession(name, addr)(c.users[i]) && a != addr;
    ConnectUsers(c, name, addr, nat_, now, freshId);
    LastOfName(c.users, NewUser(name, addr, nat_, c.nextPeerId, now));
  }

  lemma LastOfName(users: seq<User>, u: User)
    ensures forall v :: v in Filter(NotNamed(u.name), users) + [u] <==> (v in users && v.name != u.name) || v == u
  {
  }

  lemma {:induction false} HearNoRelay(k: ClientState, lines: seq<Line>, now: Time)
    requires ModeRelay !in lines
    ensures Hear(k, lines, now).isRelay == k.isRelay
    decreases |lines|
  {
    if lines != [] {
      assert lines[0] != ModeRelay && forall l :: l in lines[1..] ==> l in lines;
      HearNoRelay(FromServer(k, lines[0], now), lines[1..], now);
    }
  }

  /** A relay that comes back from another address is not told that it is still the relay. */
  lemma RelayReturnsUntold(c: ChannelState, clients: map<Addr, ClientState>, server: Addr, name: Name, addr: Addr,
                           nat_: NatKind, now: Time, freshId: u64)
    requires WellFormed(c) && Settled(c, clients, server) && !HasSession(c, name, addr) && c.nextPeerId < U32_MAX
    requires !Succeeded(c, name, nat_)
    ensures !Settled(Connect(c, name, addr, nat_, now, freshId),
                     HearAll(Newcomer(clients, server, name, addr),
                             ConnectNotices(c, name, addr, nat_, now, freshId), now), server)
  {
    var d, sent := Connect(c, name, addr, nat_, now, freshId), ConnectNotices(c, name, addr, nat_, now, freshId);
    var u, after := NewUser(name, addr, nat_, c.nextPeerId, now),
        HearAll(Newcomer(clients, server, name, addr), sent, now);
    OthersAre(c, name, addr);
    if Others(c, name, addr) == [] {
      LoneRelayReturns(c, name, addr, nat_, now, freshId);
    } else {
      CrowdedRelayReturns(c, name, addr, nat_, now, freshId);
    }
    assert u in d.users && d.relay == Some(u.name);
    if ModeRelay in Inbox(addr, sent) {
      InboxHas(addr, sent, ModeRelay);
    }
    HearNoRelay(FreshClient(name, server), Inbox(addr, sent), now);
    assert !InTune(d, after, server, u);
  }

  lemma LoneRelayReturns(c: ChannelState, name: Name, addr: Addr, nat_: NatKind, now: Time, freshId: u64)
    requires !HasSession(c, name, addr) && Others(c, name, addr) == [] && c.relay == Some(name)
    ensures var d := Connect(c, name, addr, nat_, now, freshId);
            d.users == [NewUser(name, addr, nat_, c.nextPeerId, now)] && d.relay == Some(name)
    ensures forall g :: g in ConnectNotices(c, name, addr, nat_, now, freshId) ==> ModeRelay !in g.lines
  {
    var u := NewUser(name, addr, nat_, c.nextPeerId, now);
    assert Admit(WithId(c, freshId), name, addr, nat_, now).users == [u];
    assert [u][1..] == [];
    assert FlatMap(MutualIntroduction(name, addr), [u]) == MutualIntroduction(name, addr)(u) + [];
  }

  lemma CrowdedRelayReturns(c: ChannelState, name: Name, addr: Addr, nat_: NatKind, now: Time, freshId: u64)
    requires WellFormed(c) && !HasSession(c, name, addr) && c.nextPeerId < U32_MAX && Others(c, name, addr) != []
    requires !Succeeded(c, name, nat_)
    ensures var d, u := Connect(c, name, addr, nat_, now, freshId), NewUser(name, addr, nat_, c.nextPeerId, now);
            u in d.users && d.relay == Some(name)
    ensures forall g :: g in ConnectNotices(c, name, addr, nat_, now, freshId) ==> ModeRelay !in g.lines
  {
    var e, u := Enter(c, name, addr, nat_, now, freshId), NewUser(name, addr, nat_, c.nextPeerId, now);
    var others := Others(c, name, addr);
    OthersAre(c, name, addr);
    EnterKeeps(c, name, addr, nat_, now, freshId);
    NextConnect(c, name, addr, nat_, now, freshId);
    ReturnerElected(others, u);
    NoModeRelay(e.users, u);
  }

  lemma ReturnerElected(others: seq<User>, u: User)
    requires Eligible(u) && (forall v :: v in others ==> !Eligible(v)) && SymmetricNeedsRelay(others + [u])
    ensures PickOnNotify(others + [u]) == Some(u)
  {
    NoneButLast(others, u);
    PickOnNotifyIsFirst(others + [u]);
    FirstEligibleUnique(others + [u], PickOnNotify(others + [u]), Some(u));
  }

  lemma NoneButLast(others: seq<User>, u: User)
    requires Eligible(u) && forall v :: v in others ==> !Eligible(v)
    ensures FirstEligible(others + [u], Some(u))
  {
    assert (others + [u])[|others|] == u;
  }

  /** A new client of a session that is present already hears WELCOME and nothing else. */
  lemma RestartDisagrees(c: ChannelState, clients: map<Addr, ClientState>, server: Addr, name: Name, addr: Addr,
                         nat_: NatKind, now: Time, freshId: u64)
    requires Settled(c, clients, server) && HasSession(c, name, addr)
    ensures !Agreed(Connect(c, name, addr, nat_, now, freshId),
                    HearAll(Newcomer(clients, server, name, addr),
                            ConnectNotices(c, name, addr, nat_, now, freshId), now),
                    server)
  {
    var d, sent := Connect(c, name, addr, nat_, now, freshId), ConnectNotices(c, name, addr, nat_, now, freshId);
    var after, i := HearAll(Newcomer(clients, server, name, addr), sent, now), Position(IsSession(name, addr), c.users);
    WelcomeHeard(FreshClient(name, server), sent, addr, d.channelId, c.users[i].peerId, now);
    ExactServes(c);
    ReturningSession(c, name, addr, nat_, now, freshId);
    assert d.relay == c.relay;
    RefreshServes(c, d, i);
    FreshUninformed(d, d.users[i], name, server);
    assert d.users[i] in d.users && !InTune(d, after, server, d.users[i]);
  }

  lemma RefreshServes(c: ChannelState, d: ChannelState, i: nat)
    requires RelayServes(c) && d.relay == c.relay && i < |c.users| == |d.users|
    requires forall j :: 0 <= j < |c.users| ==>
               d.users[j].name == c.users[j].name && d.users[j].needsServerRelay == c.users[j].needsServerRelay
    ensures RelayServes(d)
  {
    match c.relay
    case None =>
      forall u | u in d.users ensures !Eligible(u) {
        var j :| 0 <= j < |d.users| && d.users[j] == u;
        assert c.users[j] in c.users;
      }
    case Some(n) =>
      var r :| r in c.users && r.name == n && Eligible(r);
      var j :| 0 <= j < |c.users| && c.users[j] == r;
      assert d.users[j] in d.users;
  }

  /** A client that has heard nothing is not informed about any channel that is served. */
  lemma FreshUninformed(d: ChannelState, u: User, name: Name, server: Addr)
    requires RelayServes(d) && u in d.users
    ensures !Informed(d, u, FreshClient(name, server))
  {
    if Eligible(u) {
      var r :| r in d.users && d.relay == Some(r.name);
      assert !Knows(FreshClient(name, server), r.addr);
    }
  }

  lemma WelcomeHeard(k: ClientState, sent: seq<Datagram>, a: Addr, cid: u64, pid: u32, now: Time)
    requires sent == [Datagram(a, [Welcome(cid, pid)])]
    ensures Hear(k, Inbox(a, sent), now) == k
  {
    assert sent[1..] == [] && FlatMap(LinesTo(a), sent[1..]) == [];
    assert Inbox(a, sent) == [Welcome(cid, pid)] && [Welcome(cid, pid)][1..] == [];
  }

  lemma JoinCollides(c: ChannelState, clients: map<Addr, ClientState>, server: Addr, name: Name, addr: Addr,
                     nat_: NatKind, now: Time, freshId: u64, after: map<Addr, ClientState>)
    requires !HasSession(c, name, addr)
    requires addr == server || exists u :: u in c.users && u.name != name && u.addr == addr
    ensures !Settled(Connect(c, name, addr, nat_, now, freshId), after, server)
  {
    var d, w := Connect(c, name, addr, nat_, now, freshId), NewUser(name, addr, nat_, c.nextPeerId, now);
    NoOneLeftNamed(c, name, addr);
    assert d.users == Others(c, name, addr) + [w];
    assert w in d.users;
    if addr == server {
      assert !InTune(d, after, server, w);
    } else {
      var u :| u in c.users && u.name != name && u.addr == addr;
      assert u in d.users;
      if DistinctAddrs(d.users) { SameAddr(d.users, u, w); }
    }
  }

  lemma JoinWraps(c: ChannelState, name: Name, addr: Addr, nat_: NatKind, now: Time, freshId: u64)
    requires WellFormed(c) && !HasSession(c, name, addr) && c.nextPeerId == U32_MAX
    ensures !WellFormed(Connect(c, name, addr, nat_, now, freshId))
  {
    AdmitKeepsIdsUnlessWrapped(WithId(c, freshId), name, addr, nat_, now);
    var a, d := Admit(WithId(c, freshId), name, addr, nat_, now), Connect(c, name, addr, nat_, now, freshId);
    assert d.users == a.users && d.nextPeerId == a.nextPeerId;
  }

  lemma JoinUnsparing(c: ChannelState, clients: map<Addr, ClientState>, server: Addr, name: Name, addr: Addr,
                      nat_: NatKind, now: Time, freshId: u64)
    requires WellFormed(c) && Settled(c, clients, server) && !JoinSpares(c, clients, server, name, addr, nat_)
    ensures var d := Connect(c, name, addr, nat_, now, freshId);
            !(WellFormed(d) && Settled(d, HearAll(Newcomer(clients, server, name, addr),
                                                  ConnectNotices(c, name, addr, nat_, now, freshId), now), server))
  {
    var after := HearAll(Newcomer(clients, server, name, addr), ConnectNotices(c, name, addr, nat_, now, freshId), now);
    if HasSession(c, name, addr) {
      RestartDisagrees(c, clients, server, name, addr, nat_, now, freshId);
    } else if c.nextPeerId == U32_MAX {
      JoinWraps(c, name, addr, nat_, now, freshId);
    } else if addr == server || exists u :: u in c.users && u.name != name && u.addr == addr {
      JoinCollides(c, clients, server, name, addr, nat_, now, freshId, after);
    } else if !Unlisted(c, clients, name) {
      var u, p :| u in c.users && u.name != name && u.addr in clients && p in clients[u.addr].peers
          && p.username == name;
      StaleEntryStays(c, clients, server, name, addr, nat_, now, freshId, u, p);
    } else {
      RelayReturnsUntold(c, clients, server, name, addr, nat_, now, freshId);
    }
  }

  /** The CONNECT of a new client, once its notices are delivered, leaves a well-formed
      channel with server and clients in agreement if and only if that condition holds. */
  lemma JoinAgrees(c: ChannelState, clients: map<Addr, ClientState>, server: Addr, name: Name, addr: Addr,
                   nat_: NatKind, now: Time, freshId: u64)
    requires WellFormed(c) && Settled(c, clients, server)
    ensures var d := Connect(c, name, addr, nat_, now, freshId);
            WellFormed(d) && Settled(d, HearAll(Newcomer(clients, server, name, addr),
                                                ConnectNotices(c, name, addr, nat_, now, freshId), now), server)
            <==> JoinSpares(c, clients, server, name, addr, nat_)
  {
    if JoinSpares(c, clients, server, name, addr, nat_) {
      EnterKeeps(c, name, addr, nat_, now, freshId);
      ConnectWellFormed(c, name, addr, nat_, now, freshId);
      if Others(c, name, addr) == [] {
        FirstJoinKeeps(c, clients, server, name, addr, nat_, now, freshId);
      } else {
        NextJoinKeeps(c, clients, server, name, addr, nat_, now, freshId);
      }
    } else {
      JoinUnsparing(c, clients, server, name, addr, nat_, now, freshId);
    }
  }

  lemma ConnectWellFormed(c: ChannelState, name: Name, addr: Addr, nat_: NatKind, now: Time, freshId: u64)
    requires WellFormed(Enter(c, name, addr, nat_, now, freshId))
    ensures WellFormed(Connect(c, name, addr, nat_, now, freshId))
  {
  }
}
