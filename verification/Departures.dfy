/** Members that leave a channel, and what the others make of it: DISCONNECT and
    PEER_TIMEOUT, with the delivery of what they make the server send. */
module Departures {
  import opened Agreement
  import opened Announcements
  import opened ChannelRounds
  import opened ChannelSteps
  import opened ClientSteps
  import opened Election
  import opened Hearing
  import opened Joining
  import opened Seqs
  import opened Structures
  import opened Views
  import opened Wrappers

  // USER_LEFT and nothing else

  function Forget(k: ClientState, name: Name): ClientState {
    k.(peers := Filter(PeerNotNamed(name), k.peers))
  }

  lemma {:induction false} HearLeft(k: ClientState, lines: seq<Line>, now: Time, name: Name)
    requires lines != [] && forall l :: l in lines ==> l.UserLeft? && l.name == name
    ensures Hear(k, lines, now) == Forget(k, name)
    decreases |lines|
  {
    assert FromServer(k, lines[0], now) == Forget(k, name) by {
      assert lines[0] in lines;
    }
    if |lines| > 1 {
      assert forall l :: l in lines[1..] ==> l in lines;
      HearLeft(Forget(k, name), lines[1..], now, name);
      FilterAll(PeerNotNamed(name), Forget(k, name).peers);
    }
  }

  /** Everyone told of the departure of `name` forgets that name. */
  lemma NoticeForgets(users: seq<User>, u: User, k: ClientState, name: Name, addr: Addr, now: Time)
    requires u in users
    ensures Hear(k, Inbox(u.addr, Map(LeftNotice(name, addr), users)), now) == Forget(k, name)
  {
    var sent := Map(LeftNotice(name, addr), users);
    MapHas(LeftNotice(name, addr), users, u);
    Received(u.addr, sent, LeftNotice(name, addr)(u), UserLeft(name, addr));
    forall l | l in Inbox(u.addr, sent) ensures l == UserLeft(name, addr) {
      InboxHas(u.addr, sent, l);
    }
    HearLeft(k, Inbox(u.addr, sent), now, name);
  }

  /** No two members that need to know each other would be parted by forgetting `name`. */
  ghost predicate Dispensable(users: seq<User>, name: Name) {
    forall u, v :: u in users && v in users && u.name == name && v.name != name ==> !Eligible(u) || !Eligible(v)
  }

  /** `d` is `c` without some of those named `name`. */
  ghost predicate Without(c: ChannelState, d: ChannelState, name: Name) {
    (forall u :: u in d.users ==> u in c.users) && (forall u :: u in c.users && u.name != name ==> u in d.users)
  }

  lemma ForgetTruthful(c: ChannelState, d: ChannelState, u: User, k: ClientState, name: Name)
    requires Truthful(c, u, k) && Without(c, d, name) && (c.relay == Some(u.name) ==> d.relay == Some(u.name))
    ensures Truthful(d, u, Forget(k, name))
  {
    forall p | p in Forget(k, name).peers ensures Describes(p, u, d.users) {
      assert Describes(p, u, c.users);
      var v :| v in c.users && v.name != u.name && v.name == p.username && v.addr == p.addr
          && (p.useServerRelay ==> v.needsServerRelay);
      assert v in d.users;
    }
  }

  lemma ForgetKnows(c: ChannelState, u: User, k: ClientState, name: Name, v: User)
    requires Truthful(c, u, k) && DistinctAddrs(c.users) && v in c.users && Knows(k, v.addr) && v.name != name
    ensures Knows(Forget(k, name), v.addr)
  {
    KnownIsListed(c, u, k, v);
    var p :| p in k.peers && p.username == v.name && p.addr == v.addr;
    assert p in Forget(k, name).peers;
  }

  /** Whoever must be known is known by an eligible member, and eligible. */
  lemma ForgetInformed(c: ChannelState, d: ChannelState, u: User, k: ClientState, name: Name)
    requires Truthful(c, u, k) && Informed(c, u, k) && DistinctNames(c.users) && DistinctAddrs(c.users)
    requires Without(c, d, name) && u in d.users && d.relay == c.relay && RelayServes(d) && Dispensable(d.users, name)
    ensures Informed(d, u, Forget(k, name))
  {
    var m := Forget(k, name);
    if d.relay.Some? {
      var r :| r in d.users && d.relay == Some(r.name) && Eligible(r);
      forall v | v in d.users && v.name != u.name && Eligible(v) && Eligible(u) && Knows(k, v.addr)
        ensures Knows(m, v.addr)
      {
        assert v.name != name;
        ForgetKnows(c, u, k, name, v);
      }
      forall v | v in d.users && d.relay == Some(v.name) ensures v == r {
        SameName(c.users, v, r);
      }
    }
  }

  lemma ForgetAgrees(c: ChannelState, d: ChannelState, clients: map<Addr, ClientState>, server: Addr, name: Name,
                     addr: Addr, now: Time)
    requires Agreed(c, clients, server) && DistinctNames(c.users) && DistinctAddrs(c.users)
    requires Without(c, d, name) && d.relay == c.relay && RelayServes(d) && Dispensable(d.users, name)
    ensures Agreed(d, HearAll(clients, Map(LeftNotice(name, addr), d.users), now), server)
  {
    var after := HearAll(clients, Map(LeftNotice(name, addr), d.users), now);
    forall u | u in d.users ensures InTune(d, after, server, u) {
      assert InTune(c, clients, server, u);
      NoticeForgets(d.users, u, clients[u.addr], name, addr, now);
      ForgetTruthful(c, d, u, clients[u.addr], name);
      ForgetInformed(c, d, u, clients[u.addr], name);
    }
  }

  /** Forgetting a member that is needed undoes agreement. */
  lemma ForgetDisagrees(c: ChannelState, clients: map<Addr, ClientState>, server: Addr, name: Name, addr: Addr,
                        now: Time)
    requires Agreed(c, clients, server) && DistinctNames(c.users) && DistinctAddrs(c.users) && RelayServes(c)
    requires Agreed(c, HearAll(clients, Map(LeftNotice(name, addr), c.users), now), server)
    ensures Dispensable(c.users, name)
  {
    var after := HearAll(clients, Map(LeftNotice(name, addr), c.users), now);
    forall u, v | u in c.users && v in c.users && u.name == name && v.name != name && Eligible(u)
      ensures !Eligible(v)
    {
      if Eligible(v) {
        var r :| r in c.users && c.relay == Some(r.name) && Eligible(r);
        var x := if r == u then v else r;
        if r.name == name { SameName(c.users, r, u); }
        assert InTune(c, clients, server, x) && InTune(c, after, server, x);
        NoticeForgets(c.users, x, clients[x.addr], name, addr, now);
        ForgottenUnknown(c, x, clients[x.addr], u);
      }
    }
  }

  lemma ForgottenUnknown(c: ChannelState, x: User, k: ClientState, u: User)
    requires Truthful(c, x, k) && DistinctAddrs(c.users) && u in c.users
    ensures !Knows(Forget(k, u.name), u.addr)
  {
    if p :| p in Forget(k, u.name).peers && p.addr == u.addr {
      assert Describes(p, x, c.users);
      var v :| v in c.users && v.name == p.username && v.addr == p.addr;
      SameAddr(c.users, u, v);
    }
  }

  // PEER_TIMEOUT

  /** The condition under which a PEER_TIMEOUT leaves everyone in agreement. */
  ghost predicate TimeoutSpares(c: ChannelState, name: Name) {
    var users := Filter(NotNamed(name), c.users);
    c.relay != Some(name) && (|users| == 1 ==> Eligible(users[0]))
  }

  lemma DroppedSettles(c: ChannelState, name: Name)
    requires WellFormed(c) && RelayExact(c) && TimeoutSpares(c, name)
    ensures DropPeer(c, name).relay == c.relay && RelayExact(DropPeer(c, name)) && Without(c, DropPeer(c, name), name)
  {
    var d, users := DropPeer(c, name), Filter(NotNamed(name), c.users);
    PeerTimeoutExact(c, name);
    DropElection(c.users, name, c.relay);
    ExactUnique(users, c.relay, d.relay);
  }

  lemma TimeoutAgrees(c: ChannelState, clients: map<Addr, ClientState>, server: Addr, name: Name, now: Time)
    requires WellFormed(c) && Settled(c, clients, server) && TimeoutSpares(c, name)
    ensures var d := DropPeer(c, name);
            Settled(d, HearAll(clients, Map(LeftNotice(name, UNSPECIFIED), d.users), now), server)
  {
    var d := DropPeer(c, name);
    DroppedSettles(c, name);
    ExactServes(d);
    FilterKeeps(NotNamed(name), c.users);
    ForgetAgrees(c, d, clients, server, name, UNSPECIFIED, now);
  }

  /** A relay dropped by PEER_TIMEOUT has no successor that knows of it. */
  lemma TimeoutDisagrees(c: ChannelState, clients: map<Addr, ClientState>, server: Addr, name: Name, now: Time)
    requires WellFormed(c) && Settled(c, clients, server) && !TimeoutSpares(c, name)
    ensures var d := DropPeer(c, name);
            !Settled(d, HearAll(clients, Map(LeftNotice(name, UNSPECIFIED), d.users), now), server)
  {
    var d, users := DropPeer(c, name), Filter(NotNamed(name), c.users);
    PeerTimeoutExact(c, name);
    if |users| == 1 && Eligible(users[0]) {
      var u := users[0];
      assert u in d.users && InTune(c, clients, server, u);
      NoticeForgets(d.users, u, clients[u.addr], name, UNSPECIFIED, now);
      var after := HearAll(clients, Map(LeftNotice(name, UNSPECIFIED), d.users), now);
      assert !after[u.addr].isRelay && d.relay == Some(u.name);
      assert !InTune(d, after, server, u);
    }
  }

  // DISCONNECT of someone other than the relay

  lemma DisconnectUnmatched(c: ChannelState, name: Name, addr: Addr)
    requires !HasSession(c, name, addr)
    ensures Disconnect(c, name, addr) == c
    ensures DisconnectNotices(c, name, addr) == Map(LeftNotice(name, UNSPECIFIED), c.users)
  {
    assert [] + Map(LeftNotice(name, UNSPECIFIED), c.users) == Map(LeftNotice(name, UNSPECIFIED), c.users);
  }

  lemma DisconnectOther(c: ChannelState, name: Name, addr: Addr)
    requires WellFormed(c) && RelayExact(c) && HasSession(c, name, addr) && c.relay != Some(name)
    ensures var d := Disconnect(c, name, addr);
            && d.users == Filter(NotNamed(name), c.users) && d.relay == c.relay && RelayExact(d)
            && DisconnectNotices(c, name, addr) == Map(LeftNotice(name, addr), d.users)
  {
    var d := Disconnect(c, name, addr);
    RemoveAtIsFilter(c.users, Position(IsSession(name, addr), c.users));
    DropElection(c.users, name, c.relay);
    assert [] + Map(LeftNotice(name, addr), d.users) == Map(LeftNotice(name, addr), d.users);
  }

  lemma UnmatchedAgrees(c: ChannelState, clients: map<Addr, ClientState>, server: Addr, name: Name, addr: Addr,
                        now: Time)
    requires Settled(c, clients, server) && !HasSession(c, name, addr)
    ensures Settled(Disconnect(c, name, addr), HearAll(clients, DisconnectNotices(c, name, addr), now), server)
            <==> Dispensable(c.users, name)
  {
    DisconnectUnmatched(c, name, addr);
    ExactServes(c);
    if Dispensable(c.users, name) {
      ForgetAgrees(c, c, clients, server, name, UNSPECIFIED, now);
    }
    if Agreed(c, HearAll(clients, DisconnectNotices(c, name, addr), now), server) {
      ForgetDisagrees(c, clients, server, name, UNSPECIFIED, now);
    }
  }

  lemma OtherAgrees(c: ChannelState, clients: map<Addr, ClientState>, server: Addr, name: Name, addr: Addr, now: Time)
    requires WellFormed(c) && Settled(c, clients, server) && HasSession(c, name, addr) && c.relay != Some(name)
    ensures Settled(Disconnect(c, name, addr), HearAll(clients, DisconnectNotices(c, name, addr), now), server)
  {
    var d := Disconnect(c, name, addr);
    DisconnectOther(c, name, addr);
    ExactServes(d);
    FilterKeeps(NotNamed(name), c.users);
    ForgetAgrees(c, d, clients, server, name, addr, now);
  }

  // DISCONNECT of the relay

  lemma DisconnectRelay(c: ChannelState, name: Name, addr: Addr)
    requires WellFormed(c) && LeavingRelay(c, name, addr)
    ensures var d := Disconnect(c, name, addr);
            && d.users == Leave(c, name, addr).users == Filter(NotNamed(name), c.users)
            && d.relay == (if |d.users| == 1 then Some(d.users[0].name) else NameOf(PickOnNotify(d.users)))
            && DisconnectNotices(c, name, addr) == DepartureNotices(d.users, true)
                + Map(LeftNotice(name, addr), d.users)
  {
    RemoveAtIsFilter(c.users, Position(IsSession(name, addr), c.users));
  }

  lemma LeaverSound(d: ChannelState, name: Name, addr: Addr)
    requires forall u :: u in d.users ==> u.name != name
    ensures AllSound(d, Map(LeftNotice(name, addr), d.users))
  {
  }

  lemma PromotionSound(d: ChannelState, r: User)
    requires Elected(d, r)
    ensures AllSound(d, PromotionNotices(r, Filter(NotNamed(r.name), d.users)))
  {
    var peers := Filter(NotNamed(r.name), d.users);
    forall n, u, l | n in PromotionNotices(r, peers) && u in d.users && u.addr == n.dst && l in n.lines
      ensures Sound(d, u, l)
    {
      if n in Map(IntroduceTo(r), peers) {
        var i :| 0 <= i < |peers| && n == IntroduceTo(r)(peers[i]);
        assert peers[i] in peers;
        SameAddr(d.users, u, peers[i]);
      } else {
        SameAddr(d.users, u, r);
        if n in Map(Introduce(r.addr), peers) {
          var i :| 0 <= i < |peers| && n == Introduce(r.addr)(peers[i]);
          assert peers[i] in peers;
        }
      }
    }
  }

  /** Everyone is told of the relay's departure, and nobody else took itself for the relay. */
  lemma RelayLeftRecovers(c: ChannelState, d: ChannelState, clients: map<Addr, ClientState>, server: Addr,
                          first: seq<Datagram>, name: Name, addr: Addr)
    requires Agreed(c, clients, server) && c.relay == Some(name) && d.users == Filter(NotNamed(name), c.users)
    ensures AllRecover(d, clients, server, first + Map(LeftNotice(name, addr), d.users))
  {
    var sent := first + Map(LeftNotice(name, addr), d.users);
    forall u | u in d.users ensures Recovering(d, clients, server, sent, u) {
      assert InTune(c, clients, server, u);
      var k, lines := clients[u.addr], Inbox(u.addr, sent);
      MapHas(LeftNotice(name, addr), d.users, u);
      Received(u.addr, sent, LeftNotice(name, addr)(u), UserLeft(name, addr));
      assert LeftIn(lines, name);
      forall p | p in k.peers ensures Describes(p, u, d.users) || LeftIn(lines, p.username) {
        assert Describes(p, u, c.users);
      }
    }
  }

  /** The relay of `d` needs no word about served members, or has had it. */
  ghost predicate MirrorsOrNeedNot(d: ChannelState, clients: map<Addr, ClientState>, r: User) {
    (forall v :: v in d.users ==> Eligible(v)) || (r.addr in clients && clients[r.addr].channelHasServerRelays)
  }

  lemma SuccessorInformed(c: ChannelState, d: ChannelState, clients: map<Addr, ClientState>, sent: seq<Datagram>,
                          r: User, now: Time)
    requires Elected(d, r) && AllSound(d, sent) && AnnouncedRelay(d.users, r, sent) && r.addr in clients
    requires DistinctAddrs(c.users) && (forall u :: u in d.users ==> u in c.users) && Truthful(c, r, clients[r.addr])
    requires MirrorsOrNeedNot(d, clients, r)
    ensures InformedBy(d, clients, sent, now, r)
  {
    var k, lines := clients[r.addr], Inbox(r.addr, sent);
    InboxSound(d, r, sent);
    SoundIsFine(d, r, lines);
    SoundIntroduces(d, r, lines, c.users);
    Received(r.addr, sent, Datagram(r.addr, [ModeRelay]), ModeRelay);
    HearRelay(k, lines, now);
    HearGains(k, lines, now);
    forall v | v in d.users && v.name != r.name ensures Knows(Hear(k, lines, now), v.addr) {
      Received(r.addr, sent, Datagram(r.addr, [ModeDirect(v.name, v.addr)]), ModeDirect(v.name, v.addr));
      BecomesListed(c, d, r, k, lines, now, v);
    }
  }

  lemma FollowerInformed(c: ChannelState, d: ChannelState, clients: map<Addr, ClientState>, sent: seq<Datagram>,
                         r: User, u: User, now: Time)
    requires Elected(d, r) && AllSound(d, sent) && AnnouncedRelay(d.users, r, sent) && u in d.users && u != r
             && u.addr in clients
    requires DistinctAddrs(c.users) && (forall x :: x in d.users ==> x in c.users)
    requires Truthful(c, u, clients[u.addr]) && Informed(c, u, clients[u.addr])
    ensures InformedBy(d, clients, sent, now, u)
  {
    var k, lines := clients[u.addr], Inbox(u.addr, sent);
    if u.name == r.name { SameName(d.users, u, r); }
    InboxSound(d, u, sent);
    Received(u.addr, sent, Datagram(u.addr, [ModeDirect(r.name, r.addr)]), ModeDirect(r.name, r.addr));
    SoundIsFine(d, u, lines);
    SoundIntroduces(d, u, lines, c.users);
    BecomesListed(c, d, u, k, lines, now, r);
    forall q | q in d.users && d.relay == Some(q.name) ensures q == r { SameName(d.users, q, r); }
    assert !Sound(d, u, ModeRelay);
    if u.needsServerRelay { HearServed(k, lines, now); }
  }

  /** The successor is appointed and introduced to all that remain. */
  lemma SuccessionAgrees(c: ChannelState, d: ChannelState, clients: map<Addr, ClientState>, server: Addr,
                         sent: seq<Datagram>, r: User, now: Time)
    requires Agreed(c, clients, server) && DistinctAddrs(c.users) && forall u :: u in d.users ==> u in c.users
    requires Elected(d, r) && AllSound(d, sent) && AnnouncedRelay(d.users, r, sent)
             && AllRecover(d, clients, server, sent)
    requires MirrorsOrNeedNot(d, clients, r)
    ensures Agreed(d, HearAll(clients, sent, now), server)
  {
    forall u | u in d.users ensures u.addr in clients && InformedBy(d, clients, sent, now, u) {
      assert InTune(c, clients, server, u);
      if u == r {
        SuccessorInformed(c, d, clients, sent, r, now);
      } else {
        FollowerInformed(c, d, clients, sent, r, u, now);
      }
    }
    SoundSentFine(d, sent);
    AgreedAfter(d, clients, server, sent, now);
  }

  lemma LoneSuccessorAnnounced(users: seq<User>, more: seq<Datagram>)
    requires |users| == 1 && AppointsNobody(more)
    ensures AnnouncedRelay(users, users[0], [Datagram(users[0].addr, [ModeRelay])] + more)
  {
  }

  lemma SuccessionAnnounced(c: ChannelState, name: Name, addr: Addr, r: User)
    requires WellFormed(c) && LeavingRelay(c, name, addr) && Elected(Disconnect(c, name, addr), r)
    ensures AnnouncedRelay(Disconnect(c, name, addr).users, r, DisconnectNotices(c, name, addr))
  {
    var d, sent := Disconnect(c, name, addr), DisconnectNotices(c, name, addr);
    DisconnectRelay(c, name, addr);
    if |d.users| == 1 {
      LoneSuccessorAnnounced(d.users, Map(LeftNotice(name, addr), d.users));
    } else {
      assert |c.users| > 2;
      DepartureAnnounced(c, name, addr);
      var x :| x in d.users && x.name == r.name && Eligible(x) && AnnouncedRelay(d.users, x, sent);
      SameName(d.users, x, r);
    }
  }

  /** Served members stay served; nothing else is asked of a channel without a relay. */
  lemma ServedStayInformed(d: ChannelState, clients: map<Addr, ClientState>, sent: seq<Datagram>, u: User, now: Time)
    requires d.relay.None? && u in d.users && u.addr in clients && clients[u.addr].sendViaServer && AllSound(d, sent)
    ensures InformedBy(d, clients, sent, now, u)
  {
    var lines := Inbox(u.addr, sent);
    InboxSound(d, u, sent);
    assert !Sound(d, u, ModeRelay);
    HearServed(clients[u.addr], lines, now);
  }

  lemma NoSuccessorAgrees(c: ChannelState, clients: map<Addr, ClientState>, server: Addr, name: Name, addr: Addr,
                          now: Time)
    requires WellFormed(c) && Settled(c, clients, server) && LeavingRelay(c, name, addr)
    requires var users := Leave(c, name, addr).users; PickOnNotify(users).None? && |users| != 1
    ensures Settled(Disconnect(c, name, addr), HearAll(clients, DisconnectNotices(c, name, addr), now), server)
  {
    var d, sent := Disconnect(c, name, addr), DisconnectNotices(c, name, addr);
    DisconnectRelay(c, name, addr);
    LeaveKeeps(c, name, addr);
    PickOnNotifyIsFirst(d.users);
    FilterKeeps(NotNamed(name), c.users);
    ServerRelaysSound(d);
    LeaverSound(d, name, addr);
    RelayLeftRecovers(c, d, clients, server, DepartureNotices(d.users, true), name, addr);
    forall u | u in d.users ensures u.addr in clients && InformedBy(d, clients, sent, now, u) {
      assert InTune(c, clients, server, u);
      ServedStayInformed(d, clients, sent, u, now);
    }
    SoundSentFine(d, sent);
    AgreedAfter(d, clients, server, sent, now);
  }

  lemma SuccessorElected(c: ChannelState, name: Name, addr: Addr, r: User)
    requires WellFormed(c) && DistinctAddrs(c.users) && LeavingRelay(c, name, addr)
    requires PickOnNotify(Leave(c, name, addr).users) == Some(r)
    ensures Elected(Disconnect(c, name, addr), r) && RelayExact(Disconnect(c, name, addr))
    ensures forall u :: u in Disconnect(c, name, addr).users ==> u in c.users
  {
    var d := Disconnect(c, name, addr);
    DisconnectRelay(c, name, addr);
    LeaveKeeps(c, name, addr);
    PickOnNotifyIsFirst(d.users);
    FilterKeeps(NotNamed(name), c.users);
    if |d.users| == 1 {
      LoneExact(d.users[0], d.relay);
    }
  }

  lemma RelayLeftSound(c: ChannelState, name: Name, addr: Addr, r: User)
    requires WellFormed(c) && LeavingRelay(c, name, addr) && Elected(Disconnect(c, name, addr), r)
    requires PickOnNotify(Leave(c, name, addr).users) == Some(r)
    ensures AllSound(Disconnect(c, name, addr), DisconnectNotices(c, name, addr))
  {
    var d := Disconnect(c, name, addr);
    DisconnectRelay(c, name, addr);
    LeaverSound(d, name, addr);
    if |d.users| != 1 {
      PromotionSound(d, r);
    }
  }

  lemma SuccessorAgrees(c: ChannelState, clients: map<Addr, ClientState>, server: Addr, name: Name, addr: Addr,
                        now: Time, r: User)
    requires WellFormed(c) && Settled(c, clients, server) && LeavingRelay(c, name, addr)
    requires PickOnNotify(Leave(c, name, addr).users) == Some(r)
             && MirrorsOrNeedNot(Disconnect(c, name, addr), clients, r)
    ensures Settled(Disconnect(c, name, addr), HearAll(clients, DisconnectNotices(c, name, addr), now), server)
  {
    var d, sent := Disconnect(c, name, addr), DisconnectNotices(c, name, addr);
    SuccessorElected(c, name, addr, r);
    RelayLeftSound(c, name, addr, r);
    SuccessionAnnounced(c, name, addr, r);
    DisconnectRelay(c, name, addr);
    RelayLeftRecovers(c, d, clients, server, DepartureNotices(d.users, true), name, addr);
    SuccessionAgrees(c, d, clients, server, sent, r, now);
  }

  lemma {:induction false} HearNobodyServed(k: ClientState, lines: seq<Line>, now: Time)
    requires forall l :: l in lines ==> !l.ModeServerRelay?
    ensures Hear(k, lines, now).channelHasServerRelays == k.channelHasServerRelays
    decreases |lines|
  {
    if lines != [] {
      assert lines[0] in lines && forall l :: l in lines[1..] ==> l in lines;
      HearNobodyServed(FromServer(k, lines[0], now), lines[1..], now);
    }
  }

  /** Nobody is told that the server relays for someone. */
  ghost predicate NamesNobodyServed(sent: seq<Datagram>) {
    forall g, l :: g in sent && l in g.lines ==> !l.ModeServerRelay?
  }

  lemma DepartureNamesNobodyServed(users: seq<User>, name: Name, addr: Addr)
    requires |users| == 1 || PickOnNotify(users).Some?
    ensures NamesNobodyServed(DepartureNotices(users, true)) && NamesNobodyServed(Map(LeftNotice(name, addr), users))
  {
    if |users| != 1 {
      var r := PickOnNotify(users).value;
      PromotionNamesNobodyServed(r, Filter(NotNamed(r.name), users));
    }
  }

  lemma PromotionNamesNobodyServed(r: User, peers: seq<User>)
    ensures NamesNobodyServed(PromotionNotices(r, peers))
  {
  }

  lemma BothNameNobodyServed(x: seq<Datagram>, y: seq<Datagram>, a: Addr)
    requires NamesNobodyServed(x) && NamesNobodyServed(y)
    ensures forall l :: l in Inbox(a, x + y) ==> !l.ModeServerRelay?
  {
    forall l | l in Inbox(a, x + y) ensures !l.ModeServerRelay? {
      InboxHas(a, x + y, l);
    }
  }

  /** The server never tells a successor of the members it serves. */
  lemma SuccessorNotTold(c: ChannelState, name: Name, addr: Addr, r: User)
    requires WellFormed(c) && LeavingRelay(c, name, addr) && PickOnNotify(Leave(c, name, addr).users) == Some(r)
    ensures forall l :: l in Inbox(r.addr, DisconnectNotices(c, name, addr)) ==> !l.ModeServerRelay?
  {
    var users := Disconnect(c, name, addr).users;
    DisconnectRelay(c, name, addr);
    DepartureNamesNobodyServed(users, name, addr);
    BothNameNobodyServed(DepartureNotices(users, true), Map(LeftNotice(name, addr), users), r.addr);
  }

  lemma SuccessorDisagrees(c: ChannelState, clients: map<Addr, ClientState>, server: Addr, name: Name, addr: Addr,
                           now: Time, r: User)
    requires WellFormed(c) && Settled(c, clients, server) && LeavingRelay(c, name, addr)
    requires PickOnNotify(Leave(c, name, addr).users) == Some(r)
             && !MirrorsOrNeedNot(Disconnect(c, name, addr), clients, r)
    ensures !Agreed(Disconnect(c, name, addr), HearAll(clients, DisconnectNotices(c, name, addr), now), server)
  {
    var d, after := Disconnect(c, name, addr), HearAll(clients, DisconnectNotices(c, name, addr), now);
    SuccessorElected(c, name, addr, r);
    assert InTune(c, clients, server, r);
    SuccessorNotTold(c, name, addr, r);
    HearNobodyServed(clients[r.addr], Inbox(r.addr, DisconnectNotices(c, name, addr)), now);
    assert !InTune(d, after, server, r);
  }

  /** The condition under which a DISCONNECT leaves everyone in agreement: an unmatched
      one names nobody that is needed; and the relay leaves nobody, or served members
      only but not just one, or a successor with eligible members only (or one whose
      client mirrors already). */
  ghost predicate DepartureSpares(c: ChannelState, clients: map<Addr, ClientState>, name: Name, addr: Addr) {
    if !HasSession(c, name, addr) then Dispensable(c.users, name)
    else if c.relay != Some(name) then true
    else
      var users := Leave(c, name, addr).users;
      match PickOnNotify(users)
      case None => |users| != 1
      case Some(r) => MirrorsOrNeedNot(c.(users := users), clients, r)
  }

  lemma RelayDepartureAgrees(c: ChannelState, clients: map<Addr, ClientState>, server: Addr, name: Name, addr: Addr,
                             now: Time)
    requires WellFormed(c) && Settled(c, clients, server) && LeavingRelay(c, name, addr)
    ensures Settled(Disconnect(c, name, addr), HearAll(clients, DisconnectNotices(c, name, addr), now), server)
            <==> DepartureSpares(c, clients, name, addr)
  {
    var users := Leave(c, name, addr).users;
    DisconnectRelay(c, name, addr);
    match PickOnNotify(users)
    case None =>
      if |users| != 1 {
        NoSuccessorAgrees(c, clients, server, name, addr, now);
      } else {
        LeaveKeeps(c, name, addr);
        PickOnNotifyIsFirst(users);
        LoneExact(users[0], Some(users[0].name));
      }
    case Some(r) =>
      if MirrorsOrNeedNot(c.(users := users), clients, r) {
        SuccessorAgrees(c, clients, server, name, addr, now, r);
      } else {
        SuccessorDisagrees(c, clients, server, name, addr, now, r);
      }
  }

  /** A DISCONNECT, once its notices are delivered, leaves server and clients in agreement
      if and only if that condition holds. */
  lemma DepartureAgrees(c: ChannelState, clients: map<Addr, ClientState>, server: Addr, name: Name, addr: Addr,
                        now: Time)
    requires WellFormed(c) && Settled(c, clients, server)
    ensures Settled(Disconnect(c, name, addr), HearAll(clients, DisconnectNotices(c, name, addr), now), server)
            <==> DepartureSpares(c, clients, name, addr)
  {
    if !HasSession(c, name, addr) {
      UnmatchedAgrees(c, clients, server, name, addr, now);
    } else if c.relay != Some(name) {
      OtherAgrees(c, clients, server, name, addr, now);
    } else {
      RelayDepartureAgrees(c, clients, server, name, addr, now);
    }
  }
}
