/** The sending loops of src/signaling/handlers/notifications.rs. */
module Notifications {
  import opened ChannelRounds
  import opened Seqs
  import opened Structures
  import opened Sweep

  /** Each peer is introduced to the relay. */
  method NotifyRelayAboutPeers(socket: UdpSocket, relayUser: User, peers: seq<User>)
    modifies socket
    ensures socket.sent == old(socket.sent) + Map(Introduce(relayUser.addr), peers)
  {
    for j := 0 to |peers|
      invariant socket.sent == old(socket.sent) + Map(Introduce(relayUser.addr), peers[..j])
    {
      MapSnoc(Introduce(relayUser.addr), peers, j);
      socket.SendTo([ModeDirect(peers[j].name, peers[j].addr)], relayUser.addr);
    }
    assert peers[..|peers|] == peers;
  }

  /** The relay is introduced to each peer. */
  method NotifyPeersAboutRelay(socket: UdpSocket, relayUser: User, peers: seq<User>)
    modifies socket
    ensures socket.sent == old(socket.sent) + Map(IntroduceTo(relayUser), peers)
  {
    for j := 0 to |peers|
      invariant socket.sent == old(socket.sent) + Map(IntroduceTo(relayUser), peers[..j])
    {
      MapSnoc(IntroduceTo(relayUser), peers, j);
      socket.SendTo([ModeDirect(relayUser.name, relayUser.addr)], peers[j].addr);
    }
    assert peers[..|peers|] == peers;
  }

  method NotifyAllAboutDeparture(socket: UdpSocket, users: seq<User>, name: Name, addr: Addr)
    modifies socket
    ensures socket.sent == old(socket.sent) + Map(LeftNotice(name, addr), users)
  {
    for j := 0 to |users|
      invariant socket.sent == old(socket.sent) + Map(LeftNotice(name, addr), users[..j])
    {
      MapSnoc(LeftNotice(name, addr), users, j);
      socket.SendTo([UserLeft(name, addr)], users[j].addr);
    }
    assert users[..|users|] == users;
  }

  /** Everyone is told that the server relays for `name`. */
  method NotifyServerRelayFor(socket: UdpSocket, users: seq<User>, name: Name)
    modifies socket
    ensures socket.sent == old(socket.sent) + Map(ServerRelayFor(name), users)
  {
    for j := 0 to |users|
      invariant socket.sent == old(socket.sent) + Map(ServerRelayFor(name), users[..j])
    {
      MapSnoc(ServerRelayFor(name), users, j);
      socket.SendTo([ModeServerRelay(name)], users[j].addr);
    }
    assert users[..|users|] == users;
  }

  /** Everyone is told that the server relays for everyone. */
  method NotifyServerRelays(socket: UdpSocket, users: seq<User>)
    modifies socket
    ensures socket.sent == old(socket.sent) + ServerRelays(users)
  {
    for j := 0 to |users|
      invariant socket.sent == old(socket.sent) + FlatMap(ServerRelayToAll(users), users[..j])
    {
      FlatMapSnoc(ServerRelayToAll(users), users, j);
      NotifyServerRelayFor(socket, users, users[j].name);
    }
    assert users[..|users|] == users;
  }

  /** Each served peer and the relay are told that the server relays for the peer. */
  method NotifyServedPeers(socket: UdpSocket, relayUser: User, served: seq<User>)
    modifies socket
    ensures socket.sent == old(socket.sent) + FlatMap(ServerRelayPair(relayUser), served)
  {
    for j := 0 to |served|
      invariant socket.sent == old(socket.sent) + FlatMap(ServerRelayPair(relayUser), served[..j])
    {
      FlatMapSnoc(ServerRelayPair(relayUser), served, j);
      var s := served[j];
      socket.SendTo([ModeServerRelay(s.name)], s.addr);
      if relayUser.addr != s.addr {
        socket.SendTo([ModeServerRelay(s.name)], relayUser.addr);
      }
    }
    assert served[..|served|] == served;
  }

  method NotifyExistingUsersAboutNewUser(socket: UdpSocket, users: seq<User>, name: Name, addr: Addr)
    modifies socket
    ensures socket.sent == old(socket.sent) + FlatMap(MutualIntroduction(name, addr), users)
  {
    for j := 0 to |users|
      invariant socket.sent == old(socket.sent) + FlatMap(MutualIntroduction(name, addr), users[..j])
    {
      FlatMapSnoc(MutualIntroduction(name, addr), users, j);
      var u := users[j];
      if u.addr != addr {
        socket.SendTo([ModeDirect(name, addr)], u.addr);
        socket.SendTo([ModeDirect(u.name, u.addr)], addr);
      }
    }
    assert users[..|users|] == users;
  }

  /** The relay's peers, split by whether the server has to serve them. */
  method SplitPeers(users: seq<User>, relayUser: User) returns (direct: seq<User>, served: seq<User>)
    ensures direct == Filter(DirectPeerOf(relayUser.name), users)
    ensures served == Filter(ServerPeerOf(relayUser.name), users)
  {
    direct, served := [], [];
    for j := 0 to |users|
      invariant direct == Filter(DirectPeerOf(relayUser.name), users[..j])
      invariant served == Filter(ServerPeerOf(relayUser.name), users[..j])
    {
      FilterSnoc(DirectPeerOf(relayUser.name), users, j);
      FilterSnoc(ServerPeerOf(relayUser.name), users, j);
      if users[j].name != relayUser.name {
        if users[j].needsServerRelay {
          served := served + [users[j]];
        } else {
          direct := direct + [users[j]];
        }
      }
    }
    assert users[..|users|] == users;
  }

  /** `send_notifications`: every notification to every address it names. */
  method SendNotifications(socket: UdpSocket, notes: seq<Notification>)
    modifies socket
    ensures socket.sent == old(socket.sent) + Sends(notes)
  {
    for i := 0 to |notes|
      invariant socket.sent == old(socket.sent) + Sends(notes[..i])
    {
      FlatMapSnoc(Outgoing(), notes, i);
      SendToAll(socket, notes[i].dests, notes[i].lines);
    }
    assert notes[..|notes|] == notes;
  }

  method SendToAll(socket: UdpSocket, dests: seq<Addr>, lines: seq<Line>)
    modifies socket
    ensures socket.sent == old(socket.sent) + Map(Carrying(lines), dests)
  {
    for j := 0 to |dests|
      invariant socket.sent == old(socket.sent) + Map(Carrying(lines), dests[..j])
    {
      MapSnoc(Carrying(lines), dests, j);
      socket.SendTo(lines, dests[j]);
    }
    assert dests[..|dests|] == dests;
  }

  method SendPings(socket: UdpSocket, dests: seq<Addr>)
    modifies socket
    ensures socket.sent == old(socket.sent) + Map(Pinging(), dests)
  {
    for j := 0 to |dests|
      invariant socket.sent == old(socket.sent) + Map(Pinging(), dests[..j])
    {
      MapSnoc(Pinging(), dests, j);
      socket.SendTo([Ping], dests[j]);
    }
    assert dests[..|dests|] == dests;
  }

  /** The notices to and about the relay. */
  method NotifyElected(socket: UdpSocket, relayUser: User, users: seq<User>, direct: seq<User>, changed: bool)
    requires direct == Filter(DirectPeerOf(relayUser.name), users)
    modifies socket
    ensures socket.sent == old(socket.sent) + RelayNotices(users, relayUser, changed)
  {
    ghost var before := socket.sent;
    ghost var a, b := Map(Introduce(relayUser.addr), direct), Map(IntroduceTo(relayUser), direct);
    ghost var c := if changed then [Datagram(relayUser.addr, [ModeRelay])] else [];
    NotifyRelayAboutPeers(socket, relayUser, direct);
    NotifyPeersAboutRelay(socket, relayUser, direct);
    if changed {
      socket.SendTo([ModeRelay], relayUser.addr);
    }
    assert socket.sent == before + a + b + c;
    assert before + a + b + c == before + (a + b + c);
  }

  /** The notices of a promotion after a departure. */
  method NotifyPromoted(socket: UdpSocket, relayUser: User, peers: seq<User>)
    modifies socket
    ensures socket.sent == old(socket.sent) + PromotionNotices(relayUser, peers)
  {
    ghost var before, a := socket.sent, [Datagram(relayUser.addr, [ModeRelay])];
    ghost var b, c := Map(IntroduceTo(relayUser), peers), Map(Introduce(relayUser.addr), peers);
    socket.SendTo([ModeRelay], relayUser.addr);
    NotifyPeersAboutRelay(socket, relayUser, peers);
    NotifyRelayAboutPeers(socket, relayUser, peers);
    assert before + a + b + c == before + (a + b + c);
  }
}
