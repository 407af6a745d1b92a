/** How long the server keeps a user, in nanoseconds, and what refreshes it. */
module Lifetimes {
  import opened ChannelRounds
  import opened ChannelSteps
  import opened Ints
  import opened Outcomes
  import opened Seqs
  import opened ServerRounds
  import opened ServerSteps
  import opened Structures
  import opened Sweep

  /** A sweep keeps exactly the users heard from in the last 40 seconds. */
  lemma KeptForFortySeconds(c: ChannelState, now: Time, u: User)
    ensures u in SweepChannel(c, now).users <==> u in c.users && now - u.lastPong <= 40_000_000_000
  {
    SweepFilters(c, now);
  }

  /** `c` has a user of that name and address that was heard from at `now`. */
  ghost predicate HeardFrom(c: ChannelState, name: Name, addr: Addr, now: Time) {
    exists u :: u in c.users && u.name == name && u.addr == addr && u.lastPong == now
  }

  lemma StaysForFortySeconds(c: ChannelState, name: Name, addr: Addr, now: Time, later: Time)
    requires HeardFrom(c, name, addr, now) && later <= now + 40_000_000_000
    ensures exists u :: u in SweepChannel(c, later).users && u.name == name && u.addr == addr
  {
    var u :| u in c.users && u.name == name && u.addr == addr && u.lastPong == now;
    KeptForFortySeconds(c, later, u);
  }

  // CONNECT

  /** The user that a CONNECT of a new session lists, field by field, at the end of the list. */
  lemma NewSession(c: ChannelState, name: Name, addr: Addr, nat_: NatKind, now: Time, freshId: u64)
    requires !HasSession(c, name, addr)
    ensures var users := Connect(c, name, addr, nat_, now, freshId).users;
            && users != []
            && var u := users[|users| - 1];
               && u.name == name && u.addr == addr && u.peerId == c.nextPeerId && u.lastPong == now
               && u.natKind == nat_ && (u.needsServerRelay <==> nat_ == Symmetric)
  {
  }

  lemma ConnectHeard(c: ChannelState, name: Name, addr: Addr, nat_: NatKind, now: Time, freshId: u64)
    ensures HeardFrom(Connect(c, name, addr, nat_, now, freshId), name, addr, now)
  {
    var d := Connect(c, name, addr, nat_, now, freshId);
    if HasSession(c, name, addr) {
      ReturningSession(c, name, addr, nat_, now, freshId);
      assert d.users[Position(IsSession(name, addr), c.users)] in d.users;
    } else {
      NewSession(c, name, addr, nat_, now, freshId);
      assert d.users[|d.users| - 1] in d.users;
    }
  }

  /** After a CONNECT, of a new or a returning session, no sweep of the next 40 seconds
      removes the session. */
  lemma ConnectedForFortySeconds(c: ChannelState, name: Name, addr: Addr, nat_: NatKind, now: Time, freshId: u64,
                                 later: Time)
    requires now <= later <= now + 40_000_000_000
    ensures exists u :: u in SweepChannel(Connect(c, name, addr, nat_, now, freshId), later).users
                        && u.name == name && u.addr == addr
  {
    ConnectHeard(c, name, addr, nat_, now, freshId);
    StaysForFortySeconds(Connect(c, name, addr, nat_, now, freshId), name, addr, now, later);
  }

  /** CONNECT sends WELCOME once, to the session, with the channel's id and the session's own. */
  lemma WelcomeIsRight(c: ChannelState, name: Name, addr: Addr, nat_: NatKind, now: Time, freshId: u64)
    ensures var d := Connect(c, name, addr, nat_, now, freshId);
            var sent := ConnectNotices(c, name, addr, nat_, now, freshId);
            exists u :: u in d.users && u.name == name && u.addr == addr
                        && Datagram(addr, [Welcome(d.channelId, u.peerId)]) in sent
  {
    var d, sent := Connect(c, name, addr, nat_, now, freshId), ConnectNotices(c, name, addr, nat_, now, freshId);
    ConnectNoticesParts(c, name, addr, nat_, now, freshId, []);
    assert [] + sent == sent;
    if HasSession(c, name, addr) {
      var i := Position(IsSession(name, addr), c.users);
      ReturningSession(c, name, addr, nat_, now, freshId);
      assert d.users[i] in d.users && d.users[i].peerId == c.users[i].peerId;
      assert Datagram(addr, [Welcome(d.channelId, c.users[i].peerId)]) in sent;
    } else {
      NewSession(c, name, addr, nat_, now, freshId);
      assert d.users[|d.users| - 1] in d.users;
      assert Datagram(addr, [Welcome(d.channelId, c.nextPeerId)]) in sent;
    }
  }

  // PONG and HB

  /** `d` is `c` with the user at position `i` heard from at `now` and nothing else changed. */
  ghost predicate Refreshed(c: ChannelState, d: ChannelState, i: nat, now: Time) {
    && OneTouched(c, d, i) && d.channelId == c.channelId
    && d.users[i].lastPong == now && d.users[i].needsServerRelay == c.users[i].needsServerRelay
  }

  /** A PONG refreshes the first user at its address, in every channel of the server. */
  lemma PongRefreshes(st: ServerMap, addr: Addr, now: Time, sid: string, cname: string, i: nat)
    requires HasChannel(st, sid, cname) && i < |st[sid][cname].users| && st[sid][cname].users[i].addr == addr
    requires forall j :: 0 <= j < i ==> st[sid][cname].users[j].addr != addr
    ensures HasChannel(Handle(st, ReceivePong(addr, now)), sid, cname)
    ensures Refreshed(st[sid][cname], Handle(st, ReceivePong(addr, now))[sid][cname], i, now)
  {
    RunOne(st, PongFrom(addr, now));
    var k := Position(LocatedAt(addr), st[sid][cname].users);
    assert LocatedAt(addr)(st[sid][cname].users[i]);
    assert k == i;
  }

  /** A PONG changes no channel without a user at its address. */
  lemma PongOfStranger(st: ServerMap, addr: Addr, now: Time, sid: string, cname: string)
    requires HasChannel(st, sid, cname) && forall u :: u in st[sid][cname].users ==> u.addr != addr
    ensures HasChannel(Handle(st, ReceivePong(addr, now)), sid, cname)
    ensures Handle(st, ReceivePong(addr, now))[sid][cname] == st[sid][cname]
  {
    RunOne(st, PongFrom(addr, now));
  }

  /** A heartbeat refreshes its session, in the channel it names only. */
  lemma BeatRefreshes(st: ServerMap, sid: string, cname: string, name: Name, addr: Addr, now: Time, i: nat)
    requires HasChannel(st, sid, cname) && i < |st[sid][cname].users|
    requires st[sid][cname].users[i].name == name && st[sid][cname].users[i].addr == addr
    requires forall j :: 0 <= j < i ==> !(st[sid][cname].users[j].name == name && st[sid][cname].users[j].addr == addr)
    ensures var after := Handle(st, ReceiveBeat(sid, cname, name, addr, now));
            var d := ChannelOr(after, sid, cname);
            OnlyChannel(st, after, sid, cname, d) && Refreshed(st[sid][cname], d, i, now)
  {
    RunOne(st, AtChannel(sid, cname, Heartbeat(name, addr, now)));
    WorkOnly(st, sid, cname, Heartbeat(name, addr, now));
    var k := Position(IsSession(name, addr), st[sid][cname].users);
    assert IsSession(name, addr)(st[sid][cname].users[i]);
    assert k == i;
  }

  // The lone survivor of a sweep

  /** A sweep pings a lone eligible survivor and nobody else. */
  lemma LoneSurvivorPinged(c: ChannelState, now: Time, g: Datagram)
    ensures var left := SweepChannel(c, now).users;
            g in Map(Pinging(), SoloPing(left)) <==>
            |left| == 1 && !left[0].needsServerRelay && g == Datagram(left[0].addr, [Ping])
  {
    var left := SweepChannel(c, now).users;
    if |left| == 1 && !left[0].needsServerRelay && g == Datagram(left[0].addr, [Ping]) {
      MapHas(Pinging(), SoloPing(left), left[0].addr);
    }
  }

  /** A sweep tells a lone survivor that needs the server that the server relays for it. */
  lemma LoneSurvivorServed(c: ChannelState, now: Time)
    requires var left := SweepChannel(c, now).users; |left| == 1 && left[0].needsServerRelay
    ensures var u := SweepChannel(c, now).users[0];
            Datagram(u.addr, [ModeServerRelay(u.name)]) in SweepNotices(c, now) && SweepChannel(c, now).relay.None?
  {
    var u, notes := SweepChannel(c, now).users[0], SweepPass(c, now).notes;
    var n := notes[|notes| - 1];
    assert n == Notification([u.addr], [ModeServerRelay(u.name)]) && n in notes;
    FlatMapMembers(Outgoing(), notes);
    MapHas(Carrying(n.lines), n.dests, u.addr);
    assert Datagram(u.addr, [ModeServerRelay(u.name)]) in Outgoing()(n);
  }
}
