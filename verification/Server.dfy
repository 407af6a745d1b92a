/** The signaling server: the handlers of src/signaling/handlers and the heartbeat
    task of src/signaling/heartbeat.rs, working in place on the shared map. Each
    handler is proved to run the lock sections of `ServerRounds` and to send the
    datagrams of `ChannelRounds`. */
module Server {
  import opened ChannelRounds
  import opened ChannelSteps
  import opened Channels
  import opened Election
  import opened HeartbeatRounds
  import opened Ints
  import opened Lifetimes
  import opened Notifications
  import opened Routing
  import opened Seqs
  import opened ServerRounds
  import opened ServerSteps
  import opened Structures
  import opened Sweep
  import opened Wrappers

  class SignalingServer {
    var st: ServerMap
    const socket: UdpSocket

    constructor (socket: UdpSocket)
      ensures st == map[] && this.socket == socket
    {
      st := map[];
      this.socket := socket;
    }

    // CONNECT

    method RemoveUserFromOtherChannels(sid: string, cname: string, name: Name, addr: Addr)
      modifies this`st
      ensures st == if sid in old(st) then old(st)[sid := MoveOthers(old(st)[sid], cname, name, addr)] else old(st)
    {
      if sid in st {
        var chans, todo := st[sid], st[sid].Keys;
        while todo != {}
          invariant todo <= chans.Keys == old(st)[sid].Keys
          invariant forall cn :: cn in chans ==>
                      chans[cn] == if cn in todo || cn == cname
                          then old(st)[sid][cn] else MoveAway(old(st)[sid][cn], name, addr)
          decreases |todo|
        {
          var cn :| cn in todo;
          todo := todo - {cn};
          if cn != cname {
            var users := Filter(NotSession(name, addr), chans[cn].users);
            chans := chans[cn := chans[cn].(users := users)];
          }
        }
        assert chans == MoveOthers(old(st)[sid], cname, name, addr);
        st := st[sid := chans];
      }
    }

    /** The lock section of CONNECT. */
    method AdmitUser(sid: string, cname: string, name: Name, addr: Addr, nat_: NatKind, now: Time, freshId: u64)
      returns (snapshot: ChannelState, isNew: bool, peerId: u32)
      modifies this`st, socket
      ensures st == EnterServer(old(st), sid, cname, name, addr, nat_, now, freshId)
      ensures var c := ChannelOr(old(st), sid, cname);
              && snapshot == Enter(c, name, addr, nat_, now, freshId) && isNew == !HasSession(c, name, addr)
              && peerId == (if isNew then c.nextPeerId else c.users[Position(IsSession(name, addr), c.users)].peerId)
              && socket.sent == old(socket.sent)
                 + if isNew then LoneNotice(Admit(WithId(c, freshId), name, addr, nat_, now)) else []
    {
      RemoveUserFromOtherChannels(sid, cname, name, addr);
      MovingSparesTarget(old(st), st, sid, cname, name, addr);
      var channel := new Channel.Borrow(ChannelOr(st, sid, cname));
      snapshot, isNew, peerId := EnterChannel(channel, name, addr, nat_, now, freshId);
      st := Put(st, sid, cname, channel.State());
    }

    /** CONNECT's work on the channel it names. */
    method EnterChannel(channel: Channel, name: Name, addr: Addr, nat_: NatKind, now: Time, freshId: u64)
      returns (snapshot: ChannelState, isNew: bool, peerId: u32)
      modifies channel, socket
      ensures var c := old(channel.State());
              && channel.State() == snapshot == Enter(c, name, addr, nat_, now, freshId)
                  && isNew == !HasSession(c, name, addr)
              && peerId == (if isNew then c.nextPeerId else c.users[Position(IsSession(name, addr), c.users)].peerId)
              && socket.sent == old(socket.sent)
                 + if isNew then LoneNotice(Admit(WithId(c, freshId), name, addr, nat_, now)) else []
    {
      if channel.channelId == 0 {
        channel.channelId := freshId;
      }
      var existing := channel.UpdateExistingUser(name, addr, now);
      if existing.Some? {
        snapshot, isNew, peerId := existing.value.0, existing.value.1, existing.value.2;
      } else {
        snapshot, peerId := channel.AddNewUser(name, addr, socket, nat_, now);
        isNew := true;
      }
    }

    /** A new value for the relay of a channel, if it is there. */
    method WriteRelay(sid: string, cname: string, relay: Option<Name>)
      modifies this`st
      ensures st == Apply(old(st), AtChannel(sid, cname, SetRelay(relay)))
    {
      if HasChannel(st, sid, cname) {
        st := Put(st, sid, cname, st[sid][cname].(relay := relay));
      }
    }

    method MarkRelayInChannel(sid: string, cname: string, relayUser: User) returns (changed: bool)
      modifies this`st
      ensures changed == (HasChannel(old(st), sid, cname) && old(st)[sid][cname].relay != Some(relayUser.name))
      ensures st == Apply(old(st), AtChannel(sid, cname, SetRelay(Some(relayUser.name))))
    {
      if !HasChannel(st, sid, cname) {
        return false;
      }
      if st[sid][cname].relay == Some(relayUser.name) {
        assert st[sid][cname := st[sid][cname]] == st[sid];
        return false;
      }
      WriteRelay(sid, cname, Some(relayUser.name));
      return true;
    }

    method HandleMultipleUsersScenario(sid: string, cname: string, users: seq<User>)
      modifies this`st, socket
      ensures st == Apply(old(st), AtChannel(sid, cname, SetRelay(NameOf(PickOnNotify(users)))))
      ensures socket.sent == old(socket.sent) + ElectionNotices(users, RelayBefore(old(st), sid, cname, users))
    {
      var picked := PickOnNotify(users);
      match picked {
        case Some(r) =>
          var direct, served := SplitPeers(users, r);
          var changed := MarkRelayInChannel(sid, cname, r);
          NotifyElected(socket, r, users, direct, changed);
          NotifyServedPeers(socket, r, served);
          ghost var before, x, y := old(socket.sent), RelayNotices(users, r, changed), ServedNotices(users, r);
          assert before + x + y == before + (x + y);
        case None =>
          NotifyServerRelays(socket, users);
          WriteRelay(sid, cname, None);
      }
    }

    method HandleConnectNotifications(sid: string, cname: string, name: Name, addr: Addr, snapshot: ChannelState)
      modifies this`st, socket
      ensures st == if |snapshot.users| > 1
                    then Apply(old(st), AtChannel(sid, cname, SetRelay(NameOf(PickOnNotify(snapshot.users)))))
                    else old(st)
      ensures socket.sent
              == old(socket.sent)
                 + AnnounceNotices(snapshot.users, RelayBefore(old(st), sid, cname, snapshot.users), name, addr)
    {
      if |snapshot.users| > 1 {
        HandleMultipleUsersScenario(sid, cname, snapshot.users);
      } else {
        NotifyExistingUsersAboutNewUser(socket, snapshot.users, name, addr);
      }
    }

    /** What CONNECT does once its lock section is left. */
    method AnnounceArrival(sid: string, cname: string, name: Name, addr: Addr, snapshot: ChannelState, isNew: bool,
                           peerId: u32)
      modifies this`st, socket
      ensures st == if isNew && |snapshot.users| > 1
                    then Apply(old(st), AtChannel(sid, cname, SetRelay(NameOf(PickOnNotify(snapshot.users)))))
                    else old(st)
      ensures socket.sent
              == old(socket.sent) + [Datagram(addr, [Welcome(snapshot.channelId, peerId)])]
                 + if !isNew then []
                   else AnnounceNotices(snapshot.users, RelayBefore(old(st), sid, cname, snapshot.users), name, addr)
    {
      socket.SendTo([Welcome(snapshot.channelId, peerId)], addr);
      if isNew {
        HandleConnectNotifications(sid, cname, name, addr, snapshot);
      }
    }

    /** CONNECT, uninterrupted. */
    method HandleConnect(sid: string, cname: string, name: Name, addr: Addr, nat_: NatKind, now: Time, freshId: u64)
      modifies this`st, socket
      ensures st == Handle(old(st), Arrive(sid, cname, name, addr, nat_, now, freshId))
      ensures socket.sent
              == old(socket.sent) + ConnectNotices(ChannelOr(old(st), sid, cname), name, addr, nat_, now, freshId)
      ensures HasChannel(st, sid, cname) && HeardFrom(st[sid][cname], name, addr, now)
    {
      ghost var c, sent := ChannelOr(st, sid, cname), socket.sent;
      ArrivalHeard(st, sid, cname, name, addr, nat_, now, freshId);
      ArriveRuns(st, sid, cname, name, addr, nat_, now, freshId);
      EnteredRelay(st, sid, cname, name, addr, Enter(c, name, addr, nat_, now, freshId));
      ConnectNoticesParts(c, name, addr, nat_, now, freshId, sent);
      var snapshot, isNew, peerId := AdmitUser(sid, cname, name, addr, nat_, now, freshId);
      AnnounceArrival(sid, cname, name, addr, snapshot, isNew, peerId);
    }

    // DISCONNECT

    /** The lock section of DISCONNECT. */
    method HandleUserRemoval(sid: string, cname: string, name: Name, addr: Addr)
      returns (remaining: seq<User>, wasRelay: bool, leaving: Option<Addr>, lone: Option<Addr>)
      modifies this`st
      ensures st == Apply(old(st), AtChannel(sid, cname, Removal(name, addr)))
      ensures var c := ChannelOr(old(st), sid, cname);
              && remaining == Leave(c, name, addr).users && wasRelay == LeavingRelay(c, name, addr)
              && leaving == (if HasSession(c, name, addr) then Some(addr) else None)
              && lone == (if wasRelay && |remaining| == 1 then Some(remaining[0].addr) else None)
    {
      remaining, wasRelay, leaving, lone := [], false, None, None;
      if HasChannel(st, sid, cname) {
        var channel := new Channel.Borrow(st[sid][cname]);
        var found := channel.FindAndRemoveUser(name, addr);
        if found.Some? {
          wasRelay := found.value.0;
          leaving := Some(found.value.1);
          lone := channel.UpdateRelayAfterDeparture(wasRelay);
        }
        remaining := channel.users;
        st := Put(st, sid, cname, channel.State());
      }
    }

    method HandleRelayTransition(sid: string, cname: string, wasRelay: bool)
      modifies this`st, socket
      ensures st == if wasRelay
                    then Apply(old(st), AtChannel(sid, cname,
                        SetRelay(NameOf(PickOnNotify(ChannelOr(old(st), sid, cname).users)))))
                    else old(st)
      ensures socket.sent == old(socket.sent)
                             + if wasRelay then TransitionNotices(ChannelOr(old(st), sid, cname).users) else []
    {
      if !wasRelay || !HasChannel(st, sid, cname) {
        NothingToAnnounce();
        return;
      }
      var users := st[sid][cname].users;
      var picked := PickOnNotify(users);
      match picked {
        case Some(r) =>
          NotifyPromoted(socket, r, Filter(NotNamed(r.name), users));
          WriteRelay(sid, cname, Some(r.name));
        case None =>
          NotifyServerRelays(socket, users);
          WriteRelay(sid, cname, None);
      }
    }

    method HandleDisconnectNotifications(sid: string, cname: string, remaining: seq<User>, wasRelay: bool,
                                         leaving: Option<Addr>, lone: Option<Addr>, name: Name)
      modifies this`st, socket
      ensures st == if lone.None? && wasRelay
                    then Apply(old(st), AtChannel(sid, cname,
                        SetRelay(NameOf(PickOnNotify(ChannelOr(old(st), sid, cname).users)))))
                    else old(st)
      ensures socket.sent == old(socket.sent)
                             + (if lone.Some? then [Datagram(lone.value, [ModeRelay])]
                                else if wasRelay then TransitionNotices(ChannelOr(old(st), sid, cname).users) else [])
                             + Map(LeftNotice(name, if leaving.Some? then leaving.value else UNSPECIFIED), remaining)
    {
      if lone.Some? {
        socket.SendTo([ModeRelay], lone.value);
      } else {
        HandleRelayTransition(sid, cname, wasRelay);
      }
      NotifyAllAboutDeparture(socket, remaining, name, if leaving.Some? then leaving.value else UNSPECIFIED);
    }

    /** DISCONNECT, uninterrupted. */
    method HandleDisconnect(sid: string, cname: string, name: Name, addr: Addr)
      modifies this`st, socket
      ensures st == Handle(old(st), Depart(sid, cname, name, addr))
      ensures socket.sent == old(socket.sent) + DisconnectNotices(ChannelOr(old(st), sid, cname), name, addr)
    {
      DepartRuns(st, sid, cname, name, addr);
      DisconnectNoticesParts(ChannelOr(st, sid, cname), name, addr, socket.sent);
      var remaining, wasRelay, leaving, lone := HandleUserRemoval(sid, cname, name, addr);
      HandleDisconnectNotifications(sid, cname, remaining, wasRelay, leaving, lone, name);
    }

    // PEER_TIMEOUT, REQUEST_RELAY, DATA

    method HandlePeerTimeout(sid: string, cname: string, name: Name)
      modifies this`st, socket
      ensures st == Handle(old(st), ReportTimeout(sid, cname, name))
      ensures socket.sent
              == old(socket.sent)
                 + Map(LeftNotice(name, UNSPECIFIED), DropPeer(ChannelOr(old(st), sid, cname), name).users)
    {
      RunOne(st, AtChannel(sid, cname, PeerTimeout(name)));
      var users: seq<User> := [];
      if HasChannel(st, sid, cname) {
        var c := st[sid][cname];
        c := c.(users := Filter(NotNamed(name), c.users));
        if |c.users| == 1 {
          c := c.(relay := Some(c.users[0].name));
        }
        st := Put(st, sid, cname, c);
        users := c.users;
      }
      NotifyAllAboutDeparture(socket, users, name, UNSPECIFIED);
    }

    method HandleRelayRequest(sid: string, cname: string, name: Name)
      modifies this`st, socket
      ensures st == Handle(old(st), RequestServerRelay(sid, cname, name))
      ensures socket.sent
              == old(socket.sent) + Map(ServerRelayFor(name), Latch(ChannelOr(old(st), sid, cname), name).users)
    {
      RunOne(st, AtChannel(sid, cname, RequestRelay(name)));
      if HasChannel(st, sid, cname) {
        var c := st[sid][cname];
        var i := Position(Named(name), c.users);
        if i < |c.users| {
          c := c.(users := c.users[i := c.users[i].(needsServerRelay := true)]);
        }
        st := Put(st, sid, cname, c);
        NotifyServerRelayFor(socket, c.users, name);
      }
    }

    /** The channel's part of routing DATA; `decided` is the source's early return. */
    method ForwardInChannel(c: ChannelState, src: Addr, sender: Name, line: Line) returns (decided: bool)
      modifies socket
      ensures decided == Targets(c, src, sender).Some?
      ensures socket.sent == old(socket.sent)
                             + if decided then Map(Carrying([line]), Targets(c, src, sender).value) else []
    {
      var relayUser := RelayUser(c);
      if relayUser.Some? && relayUser.value.addr == src {
        SendToAll(socket, Addrs(Filter(ServerServed(sender), c.users)), [line]);
        return true;
      }
      var i := Position(IsSession(sender, src), c.users);
      if i < |c.users| {
        if c.relay == Some(sender) {
          SendToAll(socket, Addrs(Filter(ServerServed(sender), c.users)), [line]);
          return true;
        }
        if c.users[i].needsServerRelay {
          SendToAll(socket, Addrs(Filter(NotLocatedAt(src), c.users)), [line]);
          return true;
        }
        if relayUser.Some? && relayUser.value.addr != src {
          socket.SendTo([line], relayUser.value.addr);
        }
        return true;
      }
      return false;
    }

    /** DATA, the channels in the order `order` in which the hash maps yield them. */
    method HandleDataFromClient(order: seq<(string, string)>, src: Addr, sender: Name, text: string)
      requires Enumerates(order, st)
      modifies socket
      ensures socket.sent == old(socket.sent) + Map(Carrying([Data(sender, text)]), Route(st, order, src, sender))
    {
      var k := 0;
      while k < |order|
        invariant 0 <= k <= |order| && socket.sent == old(socket.sent)
        invariant Route(st, order[k..], src, sender) == Route(st, order, src, sender)
      {
        assert order[k] in order && order[k..][1..] == order[k + 1..];
        var decided := ForwardInChannel(ChannelOr(st, order[k].0, order[k].1), src, sender, Data(sender, text));
        if decided {
          return;
        }
        k := k + 1;
      }
    }

    // The heartbeat task

    /** The sweep of one channel in place. */
    method SweepOne(key: ChannelKey, batch: HeartbeatBatch, now: Time)
      requires HasChannel(st, key.0, key.1)
      modifies this`st, batch
      ensures st == Put(old(st), key.0, key.1, SweepChannel(old(st)[key.0][key.1], now))
      ensures batch.notifications == old(batch.notifications) + SweepPass(old(st)[key.0][key.1], now).notes
      ensures batch.pings == old(batch.pings) + SoloPing(SweepChannel(old(st)[key.0][key.1], now).users)
      ensures batch.cleanup == old(batch.cleanup)
                               + if SweepChannel(old(st)[key.0][key.1], now).users == [] then [key] else []
    {
      var channel := new Channel.Borrow(st[key.0][key.1]);
      ProcessChannelHeartbeat(key.0, key.1, channel, batch, now);
      st := Put(st, key.0, key.1, channel.State());
    }

    /** `collect_heartbeat_data`, the channels in the order `order`. */
    method CollectHeartbeatData(order: seq<ChannelKey>, now: Time) returns (batch: HeartbeatBatch)
      requires Enumerates(order, st) && NoRepeats(order)
      modifies this`st
      ensures fresh(batch) && st == SweepEvery(old(st), now)
      ensures batch.notifications == FlatMap(SweepNotesOf(old(st), now), order)
      ensures batch.pings == FlatMap(SweepPingsOf(old(st), now), order)
      ensures batch.cleanup == FlatMap(SweepCleanupOf(old(st), now), order)
      ensures multiset(Map(Pinging(), batch.pings) + Sends(batch.notifications))
              == multiset(SweepsOneByOne(old(st), order, now))
      ensures forall sid, cname :: (sid, cname) in batch.cleanup <==>
                HasChannel(old(st), sid, cname) && SweepChannel(old(st)[sid][cname], now).users == []
    {
      batch := new HeartbeatBatch();
      ghost var was := st;
      SweepNone(was, now);
      for k := 0 to |order|
        invariant fresh(batch)
        invariant st == SweepSome(was, order[..k], now)
        invariant batch.notifications == FlatMap(SweepNotesOf(was, now), order[..k])
        invariant batch.pings == FlatMap(SweepPingsOf(was, now), order[..k])
        invariant batch.cleanup == FlatMap(SweepCleanupOf(was, now), order[..k])
      {
        SweepNext(was, order, k, now);
        FlatMapSnoc(SweepNotesOf(was, now), order, k);
        FlatMapSnoc(SweepPingsOf(was, now), order, k);
        FlatMapSnoc(SweepCleanupOf(was, now), order, k);
        SweepOne(order[k], batch, now);
      }
      assert order[..|order|] == order;
      SweepDone(was, order, now);
      RoundConserves(was, order, now);
      EmptiedAre(was, order, now);
    }

    method CleanupEmptyChannels(names: seq<ChannelKey>)
      modifies this`st
      ensures st == CleanAll(old(st), names)
    {
      var k := 0;
      while k < |names|
        invariant 0 <= k <= |names|
        invariant CleanAll(st, names[k..]) == CleanAll(old(st), names)
      {
        assert names[k..][1..] == names[k + 1..];
        var (sid, cname) := names[k];
        if sid in st {
          var chans := st[sid] - {cname};
          st := if chans == map[] then st - {sid} else st[sid := chans];
        }
        k := k + 1;
      }
    }

    /** One uninterrupted round of the heartbeat task: every channel is swept, what the
        sweep has to say is sent, and exactly the channels it emptied are gone. */
    method RunHeartbeat(order: seq<ChannelKey>, now: Time)
      requires Enumerates(order, st) && NoRepeats(order)
      modifies this`st, socket
      ensures st == Handle(old(st), Tick(now, FlatMap(SweepCleanupOf(old(st), now), order)))
      ensures forall sid, cname :: HasChannel(st, sid, cname) <==>
                HasChannel(old(st), sid, cname) && SweepChannel(old(st)[sid][cname], now).users != []
      ensures forall sid, cname :: HasChannel(st, sid, cname) ==>
                st[sid][cname] == SweepChannel(old(st)[sid][cname], now)
      ensures socket.sent == old(socket.sent) + RoundSends(old(st), order, now)
      ensures RoundTells(old(st), now, socket.sent[|old(socket.sent)|..])
      ensures TellsSurvivorsOnce(old(st), now, socket.sent[|old(socket.sent)|..])
    {
      RoundLeaves(st, order, now);
      RoundIsTold(st, order, now);
      RoundTellsOnce(st, order, now);
      ghost var was, sent := st, socket.sent;
      var batch := CollectHeartbeatData(order, now);
      SendPings(socket, batch.pings);
      SendNotifications(socket, batch.notifications);
      RoundAppended(sent, was, order, now);
      CleanupEmptyChannels(batch.cleanup);
    }
  }

  // Channels that may be gone by the time a relay is written

  /** The relay an election replaces; where the channel is gone there is no change. */
  function RelayBefore(st: ServerMap, sid: string, cname: string, users: seq<User>): Option<Name> {
    if HasChannel(st, sid, cname) then st[sid][cname].relay else NameOf(PickOnNotify(users))
  }

  lemma EnteredRelay(st: ServerMap, sid: string, cname: string, name: Name, addr: Addr, e: ChannelState)
    ensures RelayBefore(Install(st, sid, cname, name, addr, e), sid, cname, e.users) == e.relay
  {
  }

  lemma ArrivalHeard(st: ServerMap, sid: string, cname: string, name: Name, addr: Addr, nat_: NatKind, now: Time,
                     freshId: u64)
    ensures var after := Handle(st, Arrive(sid, cname, name, addr, nat_, now, freshId));
            HasChannel(after, sid, cname) && HeardFrom(after[sid][cname], name, addr, now)
  {
    ArriveChannels(st, sid, cname, name, addr, nat_, now, freshId);
    ConnectHeard(ChannelOr(st, sid, cname), name, addr, nat_, now, freshId);
  }

  lemma NothingToAnnounce()
    ensures TransitionNotices([]) == []
  {
    assert ServerRelays([]) == [];
  }

  /** The removal before CONNECT's work leaves the channel it names as it was. */
  lemma MovingSparesTarget(st: ServerMap, moved: ServerMap, sid: string, cname: string, name: Name, addr: Addr)
    requires moved == if sid in st then st[sid := MoveOthers(st[sid], cname, name, addr)] else st
    ensures ChannelOr(moved, sid, cname) == ChannelOr(st, sid, cname)
    ensures forall c :: Put(moved, sid, cname, c) == Install(st, sid, cname, name, addr, c)
  {
    if sid !in st {
      assert MoveOthers(map[], cname, name, addr) == map[];
    }
  }
}
