/** What a client does with the entry of a peer, line by line and field by field, how
    long it keeps the entry, and what it sends for a message. */
module Acquaintances {
  import opened Clients
  import opened ClientSteps
  import opened Keepalive
  import opened Seqs
  import opened Structures
  import opened Views

  /** The first entry of that name, and of that address, is the one at position `i`. */
  ghost predicate FirstNamed(peers: seq<PeerInfo>, name: Name, i: nat) {
    i < |peers| && peers[i].username == name && forall j :: 0 <= j < i ==> peers[j].username != name
  }

  ghost predicate FirstAt(peers: seq<PeerInfo>, a: Addr, i: nat) {
    i < |peers| && peers[i].addr == a && forall j :: 0 <= j < i ==> peers[j].addr != a
  }

  lemma FirstNamedFound(peers: seq<PeerInfo>, name: Name, i: nat)
    requires FirstNamed(peers, name, i)
    ensures Position(PeerNamed(name), peers) == i
  {
    assert PeerNamed(name)(peers[i]);
  }

  lemma FirstAtFound(peers: seq<PeerInfo>, a: Addr, i: nat)
    requires FirstAt(peers, a, i)
    ensures Position(PeerAt(a), peers) == i
  {
    assert PeerAt(a)(peers[i]);
  }

  ghost predicate OthersSame(x: seq<PeerInfo>, y: seq<PeerInfo>, i: nat) {
    |x| == |y| && forall j :: 0 <= j < |x| && j != i ==> y[j] == x[j]
  }

  // What a client is and how it sends

  /** All but the peer entries is the same. */
  ghost predicate SameRole(k: ClientState, m: ClientState) {
    && m.me == k.me && m.server == k.server && m.isRelay == k.isRelay
    && m.channelHasServerRelays == k.channelHasServerRelays && m.sendViaServer == k.sendViaServer
    && m.paused == k.paused
  }

  /** Only MODE RELAY and MODE SERVER_RELAY change more than peer entries. */
  lemma RoleUnmoved(k: ClientState, l: Line, now: Time)
    requires !l.ModeRelay? && !l.ModeServerRelay?
    ensures SameRole(k, FromServer(k, l, now))
  {
  }

  /** WELCOME, PING and lines for the server change nothing at all. */
  lemma LineIgnored(k: ClientState, l: Line, now: Time)
    requires l.Welcome? || l.Ping? || l.PeerTimedOut? || l.RelayRequested?
    ensures FromServer(k, l, now) == k
  {
  }

  /** MODE RELAY makes a client the relay, for good, and takes it off the way through the server. */
  lemma RoleGiven(k: ClientState, now: Time)
    ensures var m := FromServer(k, ModeRelay, now);
            && m.isRelay && !m.sendViaServer && !m.paused && m.peers == k.peers
            && m.channelHasServerRelays == k.channelHasServerRelays && m.me == k.me && m.server == k.server
  {
  }

  /** MODE SERVER_RELAY for itself makes a client send through the server and changes nothing else. */
  lemma ServiceGiven(k: ClientState, now: Time)
    ensures var m := FromServer(k, ModeServerRelay(k.me), now);
            && m.sendViaServer && m.paused && m.peers == k.peers && m.isRelay == k.isRelay
            && m.channelHasServerRelays == k.channelHasServerRelays && m.me == k.me && m.server == k.server
  {
  }

  /** MODE SERVER_RELAY for another makes a relay, and nobody else, mirror to the server. */
  lemma MirrorGiven(k: ClientState, name: Name, now: Time)
    requires name != k.me
    ensures var m := FromServer(k, ModeServerRelay(name), now);
            && (m.channelHasServerRelays <==> k.channelHasServerRelays || k.isRelay)
            && m.isRelay == k.isRelay && m.sendViaServer == k.sendViaServer && m.paused == k.paused
            && m.me == k.me && m.server == k.server
  {
  }

  /** USER_LEFT removes every entry of the name, whatever its address, and no other. */
  lemma LeaverForgotten(k: ClientState, name: Name, addr: Addr, now: Time)
    ensures FromServer(k, UserLeft(name, addr), now).peers == Filter((p: PeerInfo) => p.username != name, k.peers)
  {
    FilterSame(PeerNotNamed(name), (p: PeerInfo) => p.username != name, k.peers);
  }

  // MODE DIRECT

  /** An introduction appends one entry: heard from and created now, not connected, on the
      direct path, help not requested. */
  lemma IntroductionAdds(k: ClientState, name: Name, addr: Addr, now: Time)
    requires name != k.me && forall p :: p in k.peers ==> p.addr != addr
    ensures var m := FromServer(k, ModeDirect(name, addr), now);
            && |m.peers| == |k.peers| + 1 && m.peers[..|k.peers|] == k.peers
            && var p := m.peers[|k.peers|];
               && p.username == name && p.addr == addr && p.lastPong == now && p.createdAt == now
               && !p.connected && !p.useServerRelay && !p.relayRequested
  {
    AddressUnlisted(k.peers, addr);
  }

  lemma AddressUnlisted(peers: seq<PeerInfo>, addr: Addr)
    requires forall p :: p in peers ==> p.addr != addr
    ensures Position(PeerAt(addr), peers) == |peers|
  {
  }

  /** An introduction to oneself, or to a listed address, changes nothing. */
  lemma IntroductionIgnored(k: ClientState, name: Name, addr: Addr, now: Time)
    requires name == k.me || exists p :: p in k.peers && p.addr == addr
    ensures FromServer(k, ModeDirect(name, addr), now) == k
  {
    if p :| p in k.peers && p.addr == addr {
      var i :| 0 <= i < |k.peers| && k.peers[i] == p;
      assert PeerAt(addr)(k.peers[i]);
    }
  }

  /** An introduced peer is kept for 60 seconds, and no help is requested for it in the
      first 12. */
  lemma IntroducedForSixtySeconds(k: ClientState, name: Name, addr: Addr, now: Time, later: Time)
    requires name != k.me && (forall p :: p in k.peers ==> p.addr != addr) && now <= later <= now + 60_000_000_000
    ensures exists p :: p in TickPeers(FromServer(k, ModeDirect(name, addr), now).peers, later)
                        && p.username == name && p.addr == addr && (later <= now + 12_000_000_000 ==> !p.relayRequested)
  {
    var m := FromServer(k, ModeDirect(name, addr), now);
    IntroductionAdds(k, name, addr, now);
    EntryKept(m.peers, |k.peers|, later);
  }

  /** An entry heard from in the last 60 seconds survives a tick. */
  lemma EntryKept(peers: seq<PeerInfo>, i: nat, later: Time)
    requires i < |peers| && (peers[i].useServerRelay || later - peers[i].lastPong <= 60_000_000_000)
    ensures exists q :: q in TickPeers(peers, later) && q.addr == peers[i].addr && q.username == peers[i].username
                        && q.lastPong == peers[i].lastPong && q.useServerRelay == peers[i].useServerRelay
                        && q.connected == peers[i].connected
                        && (peers[i].connected || peers[i].useServerRelay
                            || later - peers[i].createdAt <= 12_000_000_000 ==>
                              q.relayRequested == peers[i].relayRequested)
  {
    TickFilters(peers, later);
    MapHas(Ticked(later), Filter(Kept(later), peers), peers[i]);
    assert Ticked(later)(peers[i]) in TickPeers(peers, later);
  }

  // PONG, hole punches and other datagrams of peers

  /** Entry `i` of `peers` is connected and heard from at `now`. */
  ghost predicate HeardAt(peers: seq<PeerInfo>, i: nat, now: Time, a: Addr, name: Name) {
    i < |peers| && peers[i].connected && peers[i].lastPong == now && peers[i].addr == a && peers[i].username == name
  }

  lemma NoteKeepsHeard(k: ClientState, who: Name, i: nat, now: Time, a: Addr, name: Name)
    requires HeardAt(k.peers, i, now, a, name)
    ensures HeardAt(NoteServerRelay(k, who).peers, i, now, a, name)
  {
  }

  lemma ConnectedKeepsHeard(peers: seq<PeerInfo>, j: nat, i: nat, now: Time, a: Addr, name: Name)
    requires HeardAt(peers, i, now, a, name)
    ensures HeardAt(Connected(peers, j, now), i, now, a, name)
  {
  }

  lemma PongKeepsHeard(k: ClientState, src: Addr, i: nat, now: Time, a: Addr, name: Name)
    requires HeardAt(k.peers, i, now, a, name)
    ensures HeardAt(Incoming(k, src, Pong, now).peers, i, now, a, name)
  {
  }

  lemma AddKeepsHeard(k: ClientState, who: Name, addr: Addr, i: nat, now: Time, a: Addr, name: Name)
    requires HeardAt(k.peers, i, now, a, name)
    ensures HeardAt(AddPeer(k, who, addr, now).peers, i, now, a, name)
  {
  }

  lemma IncomingKeepsHeard(k: ClientState, src: Addr, l: Line, i: nat, now: Time, a: Addr, name: Name)
    requires HeardAt(k.peers, i, now, a, name) && !l.UserLeft?
    ensures HeardAt(Incoming(k, src, l, now).peers, i, now, a, name)
  {
    match l
    case ModeDirect(who, addr) => AddKeepsHeard(k, who, addr, i, now, a, name);
    case ModeServerRelay(who) => NoteKeepsHeard(k, who, i, now, a, name);
    case Pong => PongKeepsHeard(k, src, i, now, a, name);
    case HolePunch => ConnectedKeepsHeard(k.peers, Position(PeerAt(src), k.peers), i, now, a, name);
    case Data(sender, _) => ConnectedKeepsHeard(k.peers, Position(PeerNamed(sender), k.peers), i, now, a, name);
    case _ =>
  }

  /** A datagram from a peer's address, other than one that removes entries, makes the
      first entry there connected and heard from now. */
  lemma DatagramConnects(k: ClientState, a: Addr, l: Line, now: Time, i: nat)
    requires a != k.server && FirstAt(k.peers, a, i) && !l.UserLeft?
    ensures var peers := Receive(k, a, l, now).peers;
            && i < |peers| && peers[i].connected && peers[i].lastPong == now
            && peers[i].addr == a && peers[i].username == k.peers[i].username
  {
    FirstAtFound(k.peers, a, i);
    var m := k.(peers := Connected(k.peers, i, now));
    assert HeardAt(m.peers, i, now, a, k.peers[i].username);
    IncomingKeepsHeard(m, a, l, i, now, a, k.peers[i].username);
  }

  /** A PONG makes the first entry of its address heard from now, and changes nothing else. */
  lemma PongHeard(k: ClientState, a: Addr, now: Time, i: nat)
    requires FirstAt(k.peers, a, i)
    ensures var m := Incoming(k, a, Pong, now);
            && OthersSame(k.peers, m.peers, i)
            && var p, q := k.peers[i], m.peers[i];
               && q.lastPong == now && q.addr == p.addr && q.username == p.username && q.connected == p.connected
               && q.createdAt == p.createdAt && q.useServerRelay == p.useServerRelay
               && q.relayRequested == p.relayRequested
  {
    FirstAtFound(k.peers, a, i);
  }

  /** A PONG keeps the peer for 60 seconds. */
  lemma PongForSixtySeconds(k: ClientState, a: Addr, now: Time, later: Time, i: nat)
    requires FirstAt(k.peers, a, i) && later <= now + 60_000_000_000
    ensures exists q :: q in TickPeers(Incoming(k, a, Pong, now).peers, later) && q.addr == a
                        && q.username == k.peers[i].username
  {
    PongHeard(k, a, now, i);
    EntryKept(Incoming(k, a, Pong, now).peers, i, later);
  }

  /** A hole punch makes the first entry of its address connected and heard from now. */
  lemma PunchConnects(k: ClientState, a: Addr, now: Time, i: nat)
    requires FirstAt(k.peers, a, i)
    ensures var m := Incoming(k, a, HolePunch, now);
            && OthersSame(k.peers, m.peers, i)
            && var p, q := k.peers[i], m.peers[i];
               && q.connected && q.lastPong == now && q.addr == p.addr && q.username == p.username
               && q.createdAt == p.createdAt && q.useServerRelay == p.useServerRelay
               && q.relayRequested == p.relayRequested
  {
    FirstAtFound(k.peers, a, i);
  }

  /** DATA makes the first entry of its sender's name connected and heard from now. */
  lemma DataConnects(k: ClientState, src: Addr, sender: Name, text: string, now: Time, i: nat)
    requires FirstNamed(k.peers, sender, i)
    ensures var m := Incoming(k, src, Data(sender, text), now);
            && OthersSame(k.peers, m.peers, i)
            && var p, q := k.peers[i], m.peers[i];
               && q.connected && q.lastPong == now && q.addr == p.addr && q.username == p.username
               && q.createdAt == p.createdAt && q.useServerRelay == p.useServerRelay
               && q.relayRequested == p.relayRequested
  {
    FirstNamedFound(k.peers, sender, i);
  }

  /** No help is requested for a name whose entries are all connected. */
  lemma ConnectedNeedNoHelp(at: Place, peers: seq<PeerInfo>, now: Time, n: Name)
    requires forall p :: p in peers && p.username == n ==> p.connected
    ensures Times(RelayRequested(at.sid, at.cname, n), TickNotices(at, peers, now)) == 0
  {
    OneAskPerHelpless(at, peers, now, n);
    FilterNone(HelplessNamed(n, now), peers);
  }

  // MODE SERVER_RELAY

  /** MODE SERVER_RELAY for another user marks the first entry of the name as
      server-relayed, connected and requested, and changes no other entry. */
  lemma ServerRelayMarks(k: ClientState, name: Name, now: Time, i: nat)
    requires name != k.me && FirstNamed(k.peers, name, i)
    ensures var m := FromServer(k, ModeServerRelay(name), now);
            && OthersSame(k.peers, m.peers, i)
            && var p, q := k.peers[i], m.peers[i];
               && q.useServerRelay && q.connected && q.relayRequested && q.addr == p.addr && q.username == p.username
               && q.lastPong == p.lastPong && q.createdAt == p.createdAt
  {
    FirstNamedFound(k.peers, name, i);
    ResponseWays(Incoming(k, k.server, ModeServerRelay(name), now), ModeServerRelay(name));
  }

  /** The first entry of the name is server-relayed. */
  ghost predicate Marked(peers: seq<PeerInfo>, name: Name) {
    exists i: nat :: FirstNamed(peers, name, i) && peers[i].useServerRelay
  }

  lemma MarkedFound(peers: seq<PeerInfo>, name: Name)
    ensures Marked(peers, name) <==>
            Find(PeerNamed(name), peers).Some? && Find(PeerNamed(name), peers).value.useServerRelay
  {
    FindIsAtPosition(PeerNamed(name), peers);
    var i := Position(PeerNamed(name), peers);
    if i < |peers| {
      assert FirstNamed(peers, name, i);
    }
    if Marked(peers, name) {
      var j: nat :| FirstNamed(peers, name, j) && peers[j].useServerRelay;
      FirstNamedFound(peers, name, j);
    }
  }

  /** No mark is taken away and no entry reordered. */
  ghost predicate KeepsMarks(x: seq<PeerInfo>, y: seq<PeerInfo>) {
    && |x| <= |y|
    && forall j :: 0 <= j < |x| ==>
         y[j].username == x[j].username && (x[j].useServerRelay ==> y[j].useServerRelay)
  }

  lemma NoteKeepsMarks(k: ClientState, name: Name)
    ensures KeepsMarks(k.peers, NoteServerRelay(k, name).peers)
  {
  }

  lemma ConnectedKeepsMarks(peers: seq<PeerInfo>, i: nat, now: Time)
    ensures KeepsMarks(peers, Connected(peers, i, now))
  {
  }

  lemma PongKeepsMarks(k: ClientState, src: Addr, now: Time)
    ensures KeepsMarks(k.peers, Incoming(k, src, Pong, now).peers)
  {
  }

  lemma AddKeepsMarks(k: ClientState, name: Name, addr: Addr, now: Time)
    ensures KeepsMarks(k.peers, AddPeer(k, name, addr, now).peers)
  {
  }

  lemma IncomingKeepsMarks(k: ClientState, src: Addr, l: Line, now: Time)
    requires !l.UserLeft?
    ensures KeepsMarks(k.peers, Incoming(k, src, l, now).peers)
  {
    match l
    case ModeDirect(name, addr) => AddKeepsMarks(k, name, addr, now);
    case ModeServerRelay(name) => NoteKeepsMarks(k, name);
    case Pong => PongKeepsMarks(k, src, now);
    case HolePunch => ConnectedKeepsMarks(k.peers, Position(PeerAt(src), k.peers), now);
    case Data(sender, _) => ConnectedKeepsMarks(k.peers, Position(PeerNamed(sender), k.peers), now);
    case _ =>
  }

  lemma LineKeepsMarked(k: ClientState, l: Line, now: Time, name: Name)
    requires Marked(k.peers, name) && !(l.UserLeft? && l.name == name)
    ensures Marked(FromServer(k, l, now).peers, name)
  {
    var m := Incoming(k, k.server, l, now);
    ResponseWays(m, l);
    if l.UserLeft? {
      MarkedFound(k.peers, name);
      FindIsFirst(PeerNamed(name), k.peers);
      FindFilter(PeerNamed(name), PeerNotNamed(l.name), k.peers);
      MarkedFound(m.peers, name);
    } else {
      IncomingKeepsMarks(k, k.server, l, now);
      KeepsMarked(k.peers, m.peers, name);
    }
  }

  lemma KeepsMarked(x: seq<PeerInfo>, y: seq<PeerInfo>, name: Name)
    requires Marked(x, name) && KeepsMarks(x, y)
    ensures Marked(y, name)
  {
    var i: nat :| FirstNamed(x, name, i) && x[i].useServerRelay;
    assert FirstNamed(y, name, i);
  }

  lemma {:induction false} HearKeepsMarked(k: ClientState, lines: seq<Line>, now: Time, name: Name)
    requires Marked(k.peers, name) && !LeftIn(lines, name)
    ensures Marked(Hear(k, lines, now).peers, name)
    decreases |lines|
  {
    if lines != [] {
      LineKeepsMarked(k, lines[0], now, name);
      assert forall l :: l in lines[1..] ==> l in lines;
      HearKeepsMarked(FromServer(k, lines[0], now), lines[1..], now, name);
    }
  }

  lemma FirstOfListed(peers: seq<PeerInfo>, name: Name) returns (i: nat)
    requires exists p :: p in peers && p.username == name
    ensures FirstNamed(peers, name, i)
  {
    var p :| p in peers && p.username == name;
    var j :| 0 <= j < |peers| && peers[j] == p;
    assert PeerNamed(name)(peers[j]);
    i := Position(PeerNamed(name), peers);
  }

  /** A client that lists a user and hears that the server relays for it has it marked from
      then on, whatever else it hears short of the user's departure. */
  lemma {:induction false} HearMarks(k: ClientState, lines: seq<Line>, now: Time, name: Name, addr: Addr)
    requires name != k.me && Lists(k, name, addr) && ModeServerRelay(name) in lines && !LeftIn(lines, name)
    ensures Marked(Hear(k, lines, now).peers, name)
    decreases |lines|
  {
    var l, rest := lines[0], lines[1..];
    assert lines == [l] + rest && forall x :: x in rest ==> x in lines;
    if l == ModeServerRelay(name) {
      var i := FirstOfListed(k.peers, name);
      ServerRelayMarks(k, name, now, i);
      assert FirstNamed(FromServer(k, l, now).peers, name, i);
      HearKeepsMarked(FromServer(k, l, now), rest, now, name);
    } else {
      LineKeepsListed(k, l, now, name, addr);
      LineGains(k, l, now);
      HearMarks(FromServer(k, l, now), rest, now, name, addr);
    }
  }

  /** For a name whose entries are all server-relayed a tick sends no PEER_TIMEOUT and no
      REQUEST_RELAY, pings no address only they have, and keeps every one of them as it is. */
  lemma ServedLeftAlone(at: Place, peers: seq<PeerInfo>, now: Time, n: Name)
    requires forall p :: p in peers && p.username == n ==> p.useServerRelay
    ensures Times(PeerTimedOut(at.sid, at.cname, n), TickNotices(at, peers, now)) == 0
    ensures Times(RelayRequested(at.sid, at.cname, n), TickNotices(at, peers, now)) == 0
    ensures forall a :: Datagram(a, [Ping]) in TickNotices(at, peers, now) ==>
              exists q :: q in peers && q.addr == a && q.username != n && !q.useServerRelay
    ensures forall p :: p in peers && p.username == n ==> p in TickPeers(peers, now)
  {
    OneTimeoutPerRemoved(at, peers, now, n);
    FilterNone(SilentNamed(n, now), peers);
    OneAskPerHelpless(at, peers, now, n);
    FilterNone(HelplessNamed(n, now), peers);
    forall a | Datagram(a, [Ping]) in TickNotices(at, peers, now)
      ensures exists q :: q in peers && q.addr == a && q.username != n && !q.useServerRelay
    {
      TickSendsNothingElse(at, peers, now, Datagram(a, [Ping]));
    }
    TickFilters(peers, now);
    forall p | p in peers && p.username == n ensures p in TickPeers(peers, now) {
      MapHas(Ticked(now), Filter(Kept(now), peers), p);
      assert Ticked(now)(p) == p;
    }
  }

  /** A client that lists a user once and hears that the server relays for it leaves it
      alone at every later tick. */
  lemma HeardServedLeftAlone(k: ClientState, lines: seq<Line>, now: Time, name: Name, addr: Addr, at: Place,
                             later: Time)
    requires name != k.me && Lists(k, name, addr) && ModeServerRelay(name) in lines && !LeftIn(lines, name)
    requires NamedOnce(Hear(k, lines, now).peers, name)
    ensures var sent := TickNotices(at, Hear(k, lines, now).peers, later);
            && Times(PeerTimedOut(at.sid, at.cname, name), sent) == 0
            && Times(RelayRequested(at.sid, at.cname, name), sent) == 0
            && forall a :: Datagram(a, [Ping]) in sent ==>
                 exists q :: q in Hear(k, lines, now).peers && q.addr == a && q.username != name
  {
    var peers := Hear(k, lines, now).peers;
    HearMarks(k, lines, now, name, addr);
    OnceMarked(peers, name);
    ServedLeftAlone(at, peers, later, name);
  }

  ghost predicate NamedOnce(peers: seq<PeerInfo>, name: Name) {
    forall i, j :: 0 <= i < j < |peers| && peers[i].username == name ==> peers[j].username != name
  }

  lemma OnceMarked(peers: seq<PeerInfo>, name: Name)
    requires Marked(peers, name)
    requires NamedOnce(peers, name)
    ensures forall p :: p in peers && p.username == name ==> p.useServerRelay
  {
    var i: nat :| FirstNamed(peers, name, i) && peers[i].useServerRelay;
    forall p | p in peers && p.username == name ensures p.useServerRelay {
      var j :| 0 <= j < |peers| && peers[j] == p;
      assert i <= j && !(i < j);
    }
  }

  // Pausing

  /** A client punches holes exactly while it does not send through the server. */
  ghost predicate PausedIfServed(k: ClientState) {
    k.paused <==> k.sendViaServer
  }

  lemma {:induction false} HearPauses(k: ClientState, lines: seq<Line>, now: Time)
    requires PausedIfServed(k)
    ensures PausedIfServed(Hear(k, lines, now))
    decreases |lines|
  {
    if lines != [] {
      IncomingWays(k, k.server, lines[0], now);
      HearPauses(FromServer(k, lines[0], now), lines[1..], now);
    }
  }

  /** From its start on, whatever it hears. */
  lemma FreshPauses(me: Name, server: Addr, lines: seq<Line>, now: Time)
    ensures PausedIfServed(Hear(FreshClient(me, server), lines, now))
  {
    HearPauses(FreshClient(me, server), lines, now);
  }

  // Sending

  /** A client's own message goes to the server alone if it sends through it, and otherwise
      to its entries on the direct path, and as a mirroring relay to the server. */
  lemma OriginTargets(k: ClientState, text: string, d: Datagram)
    ensures d in OriginSends(k, text) <==>
            && d.lines == [Data(k.me, text)]
            && if k.sendViaServer then d.dst == k.server
               else (exists p :: p in k.peers && !p.useServerRelay && d.dst == p.addr)
                    || (k.isRelay && k.channelHasServerRelays && d.dst == k.server)
  {
    var l := Data(k.me, text);
    RelayingTargets(PeerOnDirect(), k.peers, l, d);
  }

  lemma RelayingTargets(q: PeerInfo -> bool, peers: seq<PeerInfo>, l: Line, d: Datagram)
    ensures d in Map(Relaying(l), Filter(q, peers)) <==>
            d.lines == [l] && exists p :: p in peers && q(p) && d.dst == p.addr
  {
    var chosen := Filter(q, peers);
    if p :| d.lines == [l] && p in peers && q(p) && d.dst == p.addr {
      MapHas(Relaying(l), chosen, p);
      assert d == Relaying(l)(p);
    }
    if d in Map(Relaying(l), chosen) {
      var i :| 0 <= i < |chosen| && d == Relaying(l)(chosen[i]);
      assert chosen[i] in chosen;
    }
  }

  /** DATA is passed on by a relay only: to every entry of another name than the sender's,
      and, if it mirrors, to the server. */
  lemma ForwardTargets(k: ClientState, src: Addr, sender: Name, text: string, d: Datagram)
    ensures d in IncomingSends(k, src, Data(sender, text)) <==>
            && k.isRelay && d.lines == [Data(sender, text)]
            && ((exists p :: p in k.peers && p.username != sender && d.dst == p.addr)
                || (k.channelHasServerRelays && d.dst == k.server))
  {
    RelayingTargets(PeerNotNamed(sender), k.peers, Data(sender, text), d);
  }

  /** One datagram per entry and one for the mirror: nothing is sent twice. */
  lemma ForwardCount(k: ClientState, src: Addr, sender: Name, text: string)
    ensures |IncomingSends(k, src, Data(sender, text))|
            == if !k.isRelay then 0
               else |Filter((p: PeerInfo) => p.username != sender, k.peers)| + if k.channelHasServerRelays then 1 else 0
  {
    FilterSame(PeerNotNamed(sender), (p: PeerInfo) => p.username != sender, k.peers);
  }

  lemma OriginCount(k: ClientState, text: string)
    ensures |OriginSends(k, text)|
            == if k.sendViaServer then 1
               else |Filter((p: PeerInfo) => !p.useServerRelay, k.peers)|
                    + if k.isRelay && k.channelHasServerRelays then 1 else 0
  {
    FilterSame(PeerOnDirect(), (p: PeerInfo) => !p.useServerRelay, k.peers);
  }

  /** What a datagram makes the client send is what its lines make it send, one after the other. */
  lemma {:induction false} SendsLineByLine(k: ClientState, src: Addr, x: seq<Line>, y: seq<Line>, now: Time)
    ensures IncomingAllSends(k, src, x + y, now)
            == IncomingAllSends(k, src, x, now) + IncomingAllSends(IncomingAll(k, src, x, now), src, y, now)
    decreases |x|
  {
    if x == [] {
      assert x + y == y;
    } else {
      assert (x + y)[0] == x[0] && (x + y)[1..] == x[1..] + y;
      SendsLineByLine(Incoming(k, src, x[0], now), src, x[1..], y, now);
    }
  }

  /** A PING is answered with a PONG to its source. */
  lemma PingAnswered(k: ClientState, src: Addr, now: Time)
    ensures ReceiveAllSends(k, src, [Ping], now) == [Datagram(src, [Pong])]
  {
    OneLineSends(k, src, Ping, now);
  }

  lemma OneLineSends(k: ClientState, src: Addr, l: Line, now: Time)
    ensures var m := k.(peers := Connected(k.peers, Position(PeerAt(src), k.peers), now));
            ReceiveAllSends(k, src, [l], now) == IncomingSends(if src == k.server then k else m, src, l)
  {
    var j := if src == k.server then k else k.(peers := Connected(k.peers, Position(PeerAt(src), k.peers), now));
    assert [l][1..] == [];
    assert IncomingAllSends(j, src, [l], now) == IncomingSends(j, src, l) + [];
  }

  /** A DATA datagram makes the client send what the message's cascade says. */
  lemma DataDatagramSends(k: ClientState, src: Addr, sender: Name, text: string, now: Time)
    ensures ReceiveAllSends(k, src, [Data(sender, text)], now) == IncomingSends(k, src, Data(sender, text))
  {
    OneLineSends(k, src, Data(sender, text), now);
    ConnectedKeepsView(k, Position(PeerAt(src), k.peers), now);
    SameViewSameSends(k, k.(peers := Connected(k.peers, Position(PeerAt(src), k.peers), now)), src, sender, text);
  }
}
