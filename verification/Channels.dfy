/** A channel updated in place, as src/signaling/handlers/utils.rs and
    src/signaling/heartbeat.rs do through `&mut Channel`. */
module Channels {
  import opened ChannelSteps
  import opened Election
  import opened Ints
  import opened Seqs
  import opened Structures
  import opened Sweep
  import opened Wrappers

  class Channel {
    var channelId: u64
    var nextPeerId: u32
    var users: seq<User>
    var relay: Option<Name>

    function State(): ChannelState
      reads this
    {
      ChannelState(channelId, nextPeerId, users, relay)
    }

    /** The exclusive borrow of a channel stored in the server's map. */
    constructor Borrow(c: ChannelState)
      ensures State() == c
    {
      channelId, nextPeerId, users, relay := c.channelId, c.nextPeerId, c.users, c.relay;
    }

    method UpdateExistingUser(name: Name, addr: Addr, now: Time) returns (r: Option<(ChannelState, bool, u32)>)
      modifies this
      ensures State() == Refresh(old(State()), name, addr, now)
      ensures r.Some? <==> HasSession(old(State()), name, addr)
      ensures r.Some? ==> r.value == (State(), false, old(users)[Position(IsSession(name, addr), old(users))].peerId)
    {
      var i := Position(IsSession(name, addr), users);
      if i < |users| {
        users := users[i := users[i].(lastPong := now)];
        r := Some((State(), false, users[i].peerId));
      } else {
        r := None;
      }
    }

    method RemoveOldUserSessions(name: Name, addr: Addr)
      modifies this`users
      ensures users == Filter(NotStale(name, addr), old(users))
    {
      users := Filter(NotStale(name, addr), users);
    }

    method HandleLoneUserScenario(socket: UdpSocket)
      modifies this`relay, socket
      ensures State() == SettleLone(old(State()))
      ensures socket.sent == old(socket.sent) + LoneNotice(old(State()))
    {
      if relay.None? && |users| == 1 {
        var u := users[0];
        match u.natKind {
          case Symmetric =>
            socket.SendTo([ModeServerRelay(u.name)], u.addr);
            relay := None;
          case _ =>
            socket.SendTo([ModeRelay], u.addr);
            relay := Some(u.name);
        }
      }
    }

    /** The new session gets the next id; the id counter, the list, the lone-user
        rule and what is sent are those of `AddNew`. */
    method AddNewUser(name: Name, addr: Addr, socket: UdpSocket, nat_: NatKind, now: Time)
      returns (snapshot: ChannelState, peerId: u32)
      modifies this, socket
      ensures State() == snapshot == AddNew(old(State()), name, addr, nat_, now)
      ensures peerId == old(nextPeerId)
      ensures users != [] && users[|users| - 1] == User(peerId, name, addr, now, nat_ == Symmetric, nat_)
      ensures socket.sent == old(socket.sent) + LoneNotice(Admit(old(State()), name, addr, nat_, now))
    {
      RemoveOldUserSessions(name, addr);
      peerId := nextPeerId;
      nextPeerId := Succ32(nextPeerId);
      users := users + [NewUser(name, addr, nat_, peerId, now)];
      HandleLoneUserScenario(socket);
      snapshot := State();
    }

    method FindAndRemoveUser(name: Name, addr: Addr) returns (r: Option<(bool, Addr)>)
      modifies this`users
      ensures r == if HasSession(old(State()), name, addr) then Some((LeavingRelay(old(State()), name, addr), addr))
              else None
      ensures var i := Position(IsSession(name, addr), old(users));
              users == if i < |old(users)| then RemoveAt(old(users), i) else old(users)
    {
      var pos := Position(IsSession(name, addr), users);
      if pos < |users| {
        var wasRelay := relay == Some(name);
        var leavingAddr := users[pos].addr;
        users := RemoveAt(users, pos);
        r := Some((wasRelay, leavingAddr));
      } else {
        r := None;
      }
    }

    /** The provisional relay after a departure. */
    method UpdateRelayAfterDeparture(wasRelay: bool) returns (lone: Option<Addr>)
      modifies this`relay
      ensures relay == if !wasRelay then old(relay) else if users == [] then None else Some(users[0].name)
      ensures lone == if wasRelay && |users| == 1 then Some(users[0].addr) else None
    {
      lone := None;
      if wasRelay {
        if users != [] {
          relay := Some(users[0].name);
        } else {
          relay := None;
        }
        if |users| == 1 {
          relay := Some(users[0].name);
          lone := Some(users[0].addr);
        }
      }
    }
  }

  /** The accumulators one heartbeat round passes by `&mut`. */
  class HeartbeatBatch {
    var pings: seq<Addr>
    var cleanup: seq<(string, string)>
    var notifications: seq<Notification>

    constructor ()
      ensures pings == [] && cleanup == [] && notifications == []
    {
      pings, cleanup, notifications := [], [], [];
    }

    method Notify(dests: seq<Addr>, lines: seq<Line>)
      modifies this`notifications
      ensures notifications == old(notifications) + [Notification(dests, lines)]
    {
      notifications := notifications + [Notification(dests, lines)];
    }
  }

  // The payloads the sweep builds line by line

  /** One introduction of the relay per peer. */
  method RelayIntroductions(r: User, peers: seq<User>) returns (payload: seq<Line>)
    ensures payload == Map(IntroductionOf(r), peers)
  {
    payload := [];
    for j := 0 to |peers|
      invariant payload == Map(IntroductionOf(r), peers[..j])
    {
      MapSnoc(IntroductionOf(r), peers, j);
      payload := payload + [ModeDirect(r.name, r.addr)];
    }
    assert peers[..|peers|] == peers;
  }

  /** One introduction of each peer. */
  method PeerIntroductions(peers: seq<User>) returns (payload: seq<Line>)
    ensures payload == Map(Introduction(), peers)
  {
    payload := [];
    for j := 0 to |peers|
      invariant payload == Map(Introduction(), peers[..j])
    {
      MapSnoc(Introduction(), peers, j);
      payload := payload + [ModeDirect(peers[j].name, peers[j].addr)];
    }
    assert peers[..|peers|] == peers;
  }

  /** One announcement of the server's relaying per user. */
  method ServerRelayLines(users: seq<User>) returns (payload: seq<Line>)
    ensures payload == Map(ServerRelayLine(), users)
  {
    payload := [];
    for j := 0 to |users|
      invariant payload == Map(ServerRelayLine(), users[..j])
    {
      MapSnoc(ServerRelayLine(), users, j);
      payload := payload + [ModeServerRelay(users[j].name)];
    }
    assert users[..|users|] == users;
  }

  method HandleRelayTimeout(channel: Channel, batch: HeartbeatBatch)
    modifies channel`relay, batch`notifications
    ensures channel.relay == NameOf(PickOnTimeout(channel.users))
    ensures batch.notifications == old(batch.notifications) + ReelectNotes(channel.users)
  {
    var picked := PickOnTimeout(channel.users);
    match picked {
      case Some(r) =>
        channel.relay := Some(r.name);
        batch.Notify([r.addr], [ModeRelay]);
        var peers := Filter(NotNamed(r.name), channel.users);
        if Addrs(peers) != [] {
          var payload := RelayIntroductions(r, peers);
          batch.Notify(Addrs(peers), payload);
        }
        var introductions := PeerIntroductions(peers);
        if introductions != [] {
          batch.Notify([r.addr], introductions);
        }
      case None =>
        channel.relay := None;
        if channel.users != [] {
          var payload := ServerRelayLines(channel.users);
          batch.Notify(Addrs(channel.users), payload);
        }
    }
  }

  method HandleTimedOutUser(channel: Channel, index: nat, batch: HeartbeatBatch)
    requires index < |channel.users|
    modifies channel`users, channel`relay, batch`notifications
    ensures channel.users == TimeOut(old(channel.users), old(channel.relay), index).users
    ensures channel.relay == TimeOut(old(channel.users), old(channel.relay), index).relay
    ensures batch.notifications
            == old(batch.notifications) + TimeOut(old(channel.users), old(channel.relay), index).notes
  {
    var gone := channel.users[index];
    TimeOutOrder(channel.users, channel.relay, index, batch.notifications);
    TellOfTimeout(channel.users, gone, batch);
    var wasRelay := channel.relay == Some(gone.name);
    channel.users := RemoveAt(channel.users, index);
    if wasRelay {
      HandleRelayTimeout(channel, batch);
    } else if |channel.users| == 1 {
      channel.relay := Some(channel.users[0].name);
      batch.Notify([channel.users[0].addr], [ModeRelay]);
    }
  }

  /** USER_LEFT for everyone listed at another address than the user's own. */
  method TellOfTimeout(users: seq<User>, gone: User, batch: HeartbeatBatch)
    modifies batch`notifications
    ensures batch.notifications == old(batch.notifications) + LeftNotes(users, gone)
  {
    var peersToNotify := Addrs(Filter(NotLocatedAt(gone.addr), users));
    if peersToNotify != [] {
      batch.Notify(peersToNotify, [UserLeft(gone.name, gone.addr)]);
    }
  }

  /** The loop of the sweep: it deletes from the list it walks. */
  method RemoveTimedOutUsers(channel: Channel, batch: HeartbeatBatch, now: Time)
    modifies channel`users, channel`relay, batch`notifications
    ensures channel.users == PassFrom(old(channel.users), old(channel.relay), 0, now).users
    ensures channel.relay == PassFrom(old(channel.users), old(channel.relay), 0, now).relay
    ensures batch.notifications
            == old(batch.notifications) + PassFrom(old(channel.users), old(channel.relay), 0, now).notes
    ensures channel.users == Filter(Alive(now), old(channel.users))
    ensures LoopRelay(old(channel.users), old(channel.relay)) ==> LoopRelay(channel.users, channel.relay)
  {
    ghost var users, relay, notes, told := channel.users, channel.relay, batch.notifications, [];
    ghost var p := PassFrom(users, relay, 0, now);
    AheadStart(users, relay, now);
    var i := 0;
    while i < |channel.users|
      invariant Ahead(channel.users, channel.relay, i, now, told, p) && batch.notifications == notes + told
      decreases |channel.users| - i
    {
      if Expired(channel.users[i], now) {
        AheadTimeOut(channel.users, channel.relay, i, now, told, p);
        ghost var more := TimeOut(channel.users, channel.relay, i).notes;
        assert notes + told + more == notes + (told + more);
        told := told + more;
        HandleTimedOutUser(channel, i, batch);
      } else {
        AheadKeep(channel.users, channel.relay, i, now, told, p);
        i := i + 1;
      }
    }
    AheadEnd(channel.users, channel.relay, now, told, p);
    PassEnds(users, relay, now);
  }

  /** One sweep of a channel: the users left are the ones still alive, an exact relay
      stays exact, a lone user's relay is put right, and an empty channel is
      scheduled for removal. */
  method ProcessChannelHeartbeat(sid: string, cname: string, channel: Channel, batch: HeartbeatBatch, now: Time)
    modifies channel`users, channel`relay, batch
    ensures channel.State() == SweepChannel(old(channel.State()), now)
    ensures channel.users == Filter(Alive(now), old(channel.users))
    ensures batch.notifications == old(batch.notifications) + SweepPass(old(channel.State()), now).notes
    ensures batch.pings == old(batch.pings) + SoloPing(channel.users)
    ensures batch.cleanup == old(batch.cleanup) + if channel.users == [] then [(sid, cname)] else []
  {
    RemoveTimedOutUsers(channel, batch, now);
    if |channel.users| == 1 {
      var solo := channel.users[0];
      if Eligible(solo) {
        batch.pings := batch.pings + [solo.addr];
        channel.relay := Some(solo.name);
      } else {
        channel.relay := None;
        batch.Notify([solo.addr], [ModeServerRelay(solo.name)]);
      }
    }
    if channel.users == [] {
      batch.cleanup := batch.cleanup + [(sid, cname)];
    }
  }
}
