/** Who is told of a change of relay by CONNECT and DISCONNECT, and that nobody else is. */
module Announcements {
  import opened ChannelRounds
  import opened ChannelSteps
  import opened Election
  import opened Ints
  import opened Seqs
  import opened Structures
  import opened Wrappers

  /** `sent` makes `u` the relay, and no one else. */
  ghost predicate Appoints(sent: seq<Datagram>, u: User) {
    && Datagram(u.addr, [ModeRelay]) in sent
    && forall d :: d in sent && ModeRelay in d.lines ==> d == Datagram(u.addr, [ModeRelay])
  }

  ghost predicate AppointsNobody(sent: seq<Datagram>) {
    forall d :: d in sent ==> ModeRelay !in d.lines
  }

  /** `sent` introduces the two to each other. */
  ghost predicate Introduces(sent: seq<Datagram>, u: User, v: User) {
    Datagram(u.addr, [ModeDirect(v.name, v.addr)]) in sent && Datagram(v.addr, [ModeDirect(u.name, u.addr)]) in sent
  }

  // DISCONNECT

  /** The relay alone is appointed, everyone else is introduced to it and it to
      everyone else; without a relay nobody is appointed and everyone is told that the
      server relays for everyone. */
  ghost predicate Announced(users: seq<User>, relay: Option<Name>, sent: seq<Datagram>) {
    match relay
    case Some(n) => exists r :: r in users && r.name == n && Eligible(r) && AnnouncedRelay(users, r, sent)
    case None => AnnouncedServer(users, sent)
  }

  ghost predicate AnnouncedRelay(users: seq<User>, r: User, sent: seq<Datagram>) {
    Appoints(sent, r) && forall u :: u in users && u.name != r.name ==> Introduces(sent, u, r)
  }

  ghost predicate AnnouncedServer(users: seq<User>, sent: seq<Datagram>) {
    && AppointsNobody(sent)
    && forall u, v :: u in users && v in users ==> Datagram(u.addr, [ModeServerRelay(v.name)]) in sent
  }

  lemma PromotionAnnounced(users: seq<User>, r: User)
    ensures AnnouncedRelay(users, r, PromotionNotices(r, Filter(NotNamed(r.name), users)))
  {
    var peers := Filter(NotNamed(r.name), users);
    var sent := PromotionNotices(r, peers);
    assert sent[0] == Datagram(r.addr, [ModeRelay]);
    forall u | u in users && u.name != r.name ensures Introduces(sent, u, r) {
      MapHas(IntroduceTo(r), peers, u);
      MapHas(Introduce(r.addr), peers, u);
    }
  }

  lemma ServerAnnounced(users: seq<User>)
    ensures AnnouncedServer(users, ServerRelays(users))
  {
    forall u, v | u in users && v in users ensures Datagram(u.addr, [ModeServerRelay(v.name)]) in ServerRelays(users) {
      ServerRelaysReach(users, u, v);
    }
    ServerRelaysAppointNobody(users);
  }

  lemma TransitionAnnounced(users: seq<User>)
    requires SymmetricNeedsRelay(users)
    ensures Announced(users, NameOf(PickOnNotify(users)), TransitionNotices(users))
  {
    PickOnNotifyIsFirst(users);
    match PickOnNotify(users)
    case Some(r) => PromotionAnnounced(users, r);
    case None => ServerAnnounced(users);
  }

  lemma AnnouncedStill(users: seq<User>, relay: Option<Name>, sent: seq<Datagram>, more: seq<Datagram>)
    requires Announced(users, relay, sent) && AppointsNobody(more)
    ensures Announced(users, relay, sent + more)
  {
    match relay
    case Some(n) =>
      var r :| r in users && r.name == n && Eligible(r) && AnnouncedRelay(users, r, sent);
      assert AnnouncedRelay(users, r, sent + more);
    case None => assert AnnouncedServer(users, sent + more);
  }

  /** When the relay disconnects and two or more remain, the new relay is announced. */
  lemma DepartureAnnounced(c: ChannelState, name: Name, addr: Addr)
    requires WellFormed(c) && LeavingRelay(c, name, addr) && |c.users| > 2
    ensures Announced(Disconnect(c, name, addr).users, Disconnect(c, name, addr).relay,
                      DisconnectNotices(c, name, addr))
  {
    var users := Leave(c, name, addr).users;
    LeaveKeeps(c, name, addr);
    CrowdedDeparture(c, name, addr);
    TransitionAnnounced(users);
    DeparturesAppointNobody(users, name, addr);
    AnnouncedStill(users, NameOf(PickOnNotify(users)), TransitionNotices(users), Map(LeftNotice(name, addr), users));
  }

  lemma DeparturesAppointNobody(users: seq<User>, name: Name, addr: Addr)
    ensures AppointsNobody(Map(LeftNotice(name, addr), users))
  {
  }

  lemma CrowdedDeparture(c: ChannelState, name: Name, addr: Addr)
    requires LeavingRelay(c, name, addr) && |c.users| > 2
    ensures var users, d := Leave(c, name, addr).users, Disconnect(c, name, addr);
            && d.users == users && d.relay == NameOf(PickOnNotify(users))
            && DisconnectNotices(c, name, addr) == TransitionNotices(users) + Map(LeftNotice(name, addr), users)
  {
  }

  lemma ServerRelaysReach(users: seq<User>, u: User, v: User)
    requires u in users && v in users
    ensures Datagram(u.addr, [ModeServerRelay(v.name)]) in ServerRelays(users)
  {
    FlatMapMembers(ServerRelayToAll(users), users);
    MapHas(ServerRelayFor(v.name), users, u);
    assert Datagram(u.addr, [ModeServerRelay(v.name)]) in ServerRelayToAll(users)(v);
  }

  lemma ServerRelaysAppointNobody(users: seq<User>)
    ensures AppointsNobody(ServerRelays(users))
  {
    FlatMapMembers(ServerRelayToAll(users), users);
  }

  // CONNECT

  lemma RelayNoticesAppoint(users: seq<User>, r: User)
    ensures Appoints(RelayNotices(users, r, true), r)
  {
    var direct := Filter(DirectPeerOf(r.name), users);
    var sent := RelayNotices(users, r, true);
    assert sent[|sent| - 1] == Datagram(r.addr, [ModeRelay]);
    assert sent == RelayNotices(users, r, false) + [Datagram(r.addr, [ModeRelay])];
    NoModeRelay(users, r);
  }

  lemma AnnounceAppoints(users: seq<User>, relay: Option<Name>, name: Name, addr: Addr)
    requires SymmetricNeedsRelay(users) && |users| > 1
    ensures Appointed(users, relay, NameOf(PickOnNotify(users)), AnnounceNotices(users, relay, name, addr))
  {
    PickOnNotifyIsFirst(users);
    match PickOnNotify(users)
    case Some(r) =>
      NoModeRelay(users, r);
      RelayNoticesAppoint(users, r);
      var sent := RelayNotices(users, r, relay != Some(r.name)) + ServedNotices(users, r);
      assert relay != Some(r.name) ==> Appoints(sent, r);
    case None => ServerRelaysAppointNobody(users);
  }

  /** The new relay, and it alone, is appointed if the relay changes; otherwise nobody is. */
  ghost predicate Appointed(users: seq<User>, before: Option<Name>, after: Option<Name>, sent: seq<Datagram>) {
    if after == before || after.None? then AppointsNobody(sent)
    else exists r :: r in users && after == Some(r.name) && Eligible(r) && Appoints(sent, r)
  }

  lemma AppointedStill(users: seq<User>, before: Option<Name>, after: Option<Name>, sent: seq<Datagram>, d: Datagram)
    requires Appointed(users, before, after, sent) && ModeRelay !in d.lines
    ensures Appointed(users, before, after, [d] + sent)
  {
    if after != before && after.Some? {
      var r :| r in users && after == Some(r.name) && Eligible(r) && Appoints(sent, r);
      assert Appoints([d] + sent, r);
    }
  }

  lemma CrowdedConnect(c: ChannelState, name: Name, addr: Addr, nat_: NatKind, now: Time, freshId: u64)
    requires !HasSession(c, name, addr) && |Enter(c, name, addr, nat_, now, freshId).users| >= 2
    ensures var e := Enter(c, name, addr, nat_, now, freshId);
            && Connect(c, name, addr, nat_, now, freshId) == e.(relay := NameOf(PickOnNotify(e.users)))
            && ConnectNotices(c, name, addr, nat_, now, freshId)
               == [Datagram(addr, [Welcome(e.channelId, c.nextPeerId)])] + AnnounceNotices(e.users, c.relay, name, addr)
  {
    var e := Enter(c, name, addr, nat_, now, freshId);
    CrowdedEnter(WithId(c, freshId), name, addr, nat_, now);
    ConnectNoticesParts(c, name, addr, nat_, now, freshId, []);
    WelcomeFirst([Datagram(addr, [Welcome(e.channelId, c.nextPeerId)])], AnnounceNotices(e.users, c.relay, name, addr),
                 ConnectNotices(c, name, addr, nat_, now, freshId));
  }

  /** With two or more users nobody is settled as a lone user. */
  lemma CrowdedEnter(b: ChannelState, name: Name, addr: Addr, nat_: NatKind, now: Time)
    requires |AddNew(b, name, addr, nat_, now).users| >= 2
    ensures AddNew(b, name, addr, nat_, now).relay == b.relay && LoneNotice(Admit(b, name, addr, nat_, now)) == []
  {
  }

  lemma WelcomeFirst(welcome: seq<Datagram>, more: seq<Datagram>, sent: seq<Datagram>)
    requires [] + sent == [] + [] + welcome + more
    ensures sent == welcome + more
  {
    assert [] + sent == sent && [] + [] + welcome == welcome;
  }

  /** A CONNECT of a new session that ends with two or more users. */
  lemma ConnectAppoints(c: ChannelState, name: Name, addr: Addr, nat_: NatKind, now: Time, freshId: u64)
    requires WellFormed(c) && c.nextPeerId < U32_MAX && !HasSession(c, name, addr)
    requires |Connect(c, name, addr, nat_, now, freshId).users| >= 2
    ensures var d := Connect(c, name, addr, nat_, now, freshId);
            Appointed(d.users, c.relay, d.relay, ConnectNotices(c, name, addr, nat_, now, freshId))
  {
    var e := Enter(c, name, addr, nat_, now, freshId);
    EnteredServed(c, name, addr, nat_, now, freshId);
    CrowdedConnect(c, name, addr, nat_, now, freshId);
    WelcomedAppoints(e.users, c.relay, name, addr, Datagram(addr, [Welcome(e.channelId, c.nextPeerId)]));
  }

  lemma EnteredServed(c: ChannelState, name: Name, addr: Addr, nat_: NatKind, now: Time, freshId: u64)
    requires WellFormed(c) && c.nextPeerId < U32_MAX
    ensures SymmetricNeedsRelay(Enter(c, name, addr, nat_, now, freshId).users)
  {
    EnterKeeps(c, name, addr, nat_, now, freshId);
  }

  lemma WelcomedAppoints(users: seq<User>, relay: Option<Name>, name: Name, addr: Addr, welcome: Datagram)
    requires SymmetricNeedsRelay(users) && |users| > 1 && ModeRelay !in welcome.lines
    ensures Appointed(users, relay, NameOf(PickOnNotify(users)), [welcome] + AnnounceNotices(users, relay, name, addr))
  {
    AnnounceAppoints(users, relay, name, addr);
    AppointedStill(users, relay, NameOf(PickOnNotify(users)), AnnounceNotices(users, relay, name, addr), welcome);
  }
}
