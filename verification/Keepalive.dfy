/** The relay's keepalive tick (`relay_main_loop` in src/client/networking.rs) and
    what it sends over any run of ticks and incoming lines. */
module Keepalive {
  import opened Agreement
  import opened ClientSteps
  import opened Seqs
  import opened Structures
  import opened Wrappers

  const PEER_TIMEOUT: Time := 60 * SECOND
  const CONNECT_GRACE: Time := 12 * SECOND

  /** The channel a client reports about. */
  datatype Place = Place(server: Addr, sid: string, cname: string)

  predicate Silent(p: PeerInfo, now: Time) { !p.useServerRelay && now - p.lastPong > PEER_TIMEOUT }
  function Kept(now: Time): PeerInfo -> bool { (p: PeerInfo) => !Silent(p, now) }

  /** A peer on the direct path that has not connected within the grace period and
      for whom the server has not been asked yet. */
  predicate NeedsHelp(p: PeerInfo, now: Time) {
    !p.useServerRelay && !Silent(p, now) && !p.connected && now - p.createdAt > CONNECT_GRACE && !p.relayRequested
  }

  function Ticked(now: Time): PeerInfo -> PeerInfo {
    (p: PeerInfo) => if NeedsHelp(p, now) then p.(relayRequested := true) else p
  }

  function TickSends(at: Place, now: Time): PeerInfo -> seq<Datagram> {
    (p: PeerInfo) =>
      if p.useServerRelay then []
      else if Silent(p, now) then [Datagram(at.server, [PeerTimedOut(at.sid, at.cname, p.username)])]
      else
        [Datagram(p.addr, [Ping])]
        + (if NeedsHelp(p, now) then [Datagram(at.server, [RelayRequested(at.sid, at.cname, p.username)])] else [])
  }

  function TickPeers(peers: seq<PeerInfo>, now: Time): seq<PeerInfo> {
    Filter(Kept(now), Map(Ticked(now), peers))
  }

  function TickNotices(at: Place, peers: seq<PeerInfo>, now: Time): seq<Datagram> {
    FlatMap(TickSends(at, now), peers)
  }

  // Counting

  function Says(l: Line): Datagram -> bool { (d: Datagram) => l in d.lines }
  function Times(l: Line, sent: seq<Datagram>): nat { |Filter(Says(l), sent)| }

  function Unasked(n: Name): PeerInfo -> bool { (p: PeerInfo) => p.username == n && !p.relayRequested }
  function SilentNamed(n: Name, now: Time): PeerInfo -> bool { (p: PeerInfo) => p.username == n && Silent(p, now) }

  function Potential(n: Name, peers: seq<PeerInfo>): nat { |Filter(Unasked(n), peers)| }

  lemma TickSplits(at: Place, p: PeerInfo, rest: seq<PeerInfo>, now: Time, l: Line)
    ensures TickNotices(at, [p] + rest, now) == TickSends(at, now)(p) + TickNotices(at, rest, now)
    ensures Times(l, TickNotices(at, [p] + rest, now))
            == Times(l, TickSends(at, now)(p)) + Times(l, TickNotices(at, rest, now))
  {
    assert ([p] + rest)[0] == p && ([p] + rest)[1..] == rest;
    FilterAppend(Says(l), TickSends(at, now)(p), TickNotices(at, rest, now));
  }

  lemma OneTimesOut(at: Place, p: PeerInfo, now: Time, n: Name)
    ensures Times(PeerTimedOut(at.sid, at.cname, n), TickSends(at, now)(p)) == if SilentNamed(n, now)(p) then 1 else 0
  {
    FilterTwo(Says(PeerTimedOut(at.sid, at.cname, n)), TickSends(at, now)(p));
  }

  lemma OneAsks(at: Place, p: PeerInfo, now: Time, n: Name)
    ensures Times(RelayRequested(at.sid, at.cname, n), TickSends(at, now)(p))
            == if p.username == n && NeedsHelp(p, now) then 1 else 0
  {
    FilterTwo(Says(RelayRequested(at.sid, at.cname, n)), TickSends(at, now)(p));
  }

  lemma FilterTwo<T(!new)>(p: T -> bool, s: seq<T>)
    requires |s| <= 2
    ensures Filter(p, s) == (if |s| > 0 && p(s[0]) then [s[0]] else []) + (if |s| > 1 && p(s[1]) then [s[1]] else [])
  {
    if |s| > 0 {
      assert Filter(p, s[1..]) == if |s| > 1 && p(s[1]) then [s[1]] else [] by {
        if |s| > 1 { assert s[1..][1..] == []; }
      }
    }
  }

  /** A tick reports exactly one PEER_TIMEOUT for each entry it removes. */
  lemma {:induction false} OneTimeoutPerRemoved(at: Place, peers: seq<PeerInfo>, now: Time, n: Name)
    ensures Times(PeerTimedOut(at.sid, at.cname, n), TickNotices(at, peers, now))
            == |Filter(SilentNamed(n, now), peers)|
  {
    if peers != [] {
      assert peers == [peers[0]] + peers[1..];
      TickSplits(at, peers[0], peers[1..], now, PeerTimedOut(at.sid, at.cname, n));
      OneTimesOut(at, peers[0], now, n);
      OneTimeoutPerRemoved(at, peers[1..], now, n);
    }
  }

  function HelplessNamed(n: Name, now: Time): PeerInfo -> bool { (p: PeerInfo) => p.username == n && NeedsHelp(p, now) }

  /** A tick sends exactly one REQUEST_RELAY for each entry that needs help. */
  lemma {:induction false} OneAskPerHelpless(at: Place, peers: seq<PeerInfo>, now: Time, n: Name)
    ensures Times(RelayRequested(at.sid, at.cname, n), TickNotices(at, peers, now))
            == |Filter(HelplessNamed(n, now), peers)|
  {
    if peers != [] {
      assert peers == [peers[0]] + peers[1..];
      TickSplits(at, peers[0], peers[1..], now, RelayRequested(at.sid, at.cname, n));
      OneAsks(at, peers[0], now, n);
      OneAskPerHelpless(at, peers[1..], now, n);
    }
  }

  /** The entries left are those that are server-relayed or heard from within 60 s, in
      order; nobody left is still in need of a first request. */
  lemma {:induction false} TickFilters(peers: seq<PeerInfo>, now: Time)
    ensures TickPeers(peers, now) == Map(Ticked(now), Filter(Kept(now), peers))
    ensures forall p :: p in TickPeers(peers, now) ==>
              (p.useServerRelay || now - p.lastPong <= PEER_TIMEOUT) && !NeedsHelp(p, now)
  {
    if peers != [] {
      var p, rest := peers[0], peers[1..];
      TickFilters(rest, now);
      assert Map(Ticked(now), peers)[1..] == Map(Ticked(now), rest);
      if Kept(now)(p) {
        MapCons(Ticked(now), p, Filter(Kept(now), rest));
      }
    }
  }

  // The tick in numbers

  /** A tick keeps exactly the entries that are server-relayed or were heard from in the
      last 60 seconds, in order; all it changes of them is whether help was requested. */
  lemma KeptForSixtySeconds(peers: seq<PeerInfo>, now: Time)
    ensures TickPeers(peers, now)
            == Map(Ticked(now), Filter((p: PeerInfo) => p.useServerRelay || now - p.lastPong <= 60_000_000_000, peers))
    ensures forall p :: var q := Ticked(now)(p);
              && q.addr == p.addr && q.username == p.username && q.lastPong == p.lastPong && q.createdAt == p.createdAt
              && q.connected == p.connected && q.useServerRelay == p.useServerRelay
              && q.relayRequested == (p.relayRequested || (!p.useServerRelay && now - p.lastPong <= 60_000_000_000
                                                           && !p.connected && now - p.createdAt > 12_000_000_000))
  {
    TickFilters(peers, now);
    FilterSame(Kept(now), (p: PeerInfo) => p.useServerRelay || now - p.lastPong <= 60_000_000_000, peers);
  }

  /** One PEER_TIMEOUT for a name per entry of it on the direct path and silent for longer. */
  lemma TimeoutsSent(at: Place, peers: seq<PeerInfo>, now: Time, n: Name)
    ensures Times(PeerTimedOut(at.sid, at.cname, n), TickNotices(at, peers, now))
            == |Filter((p: PeerInfo) =>
                         p.username == n && !p.useServerRelay && now - p.lastPong > 60_000_000_000, peers)|
  {
    OneTimeoutPerRemoved(at, peers, now, n);
    FilterSame(SilentNamed(n, now),
               (p: PeerInfo) => p.username == n && !p.useServerRelay && now - p.lastPong > 60_000_000_000, peers);
  }

  /** One REQUEST_RELAY for a name per entry of it that is on the direct path, heard from
      or introduced in the last 60 seconds, listed for more than 12 seconds, not connected
      and not yet requested. */
  lemma RequestsSent(at: Place, peers: seq<PeerInfo>, now: Time, n: Name)
    ensures Times(RelayRequested(at.sid, at.cname, n), TickNotices(at, peers, now))
            == |Filter((p: PeerInfo) => p.username == n && !p.useServerRelay && now - p.lastPong <= 60_000_000_000
                         && !p.connected && now - p.createdAt > 12_000_000_000 && !p.relayRequested, peers)|
  {
    OneAskPerHelpless(at, peers, now, n);
    FilterSame(HelplessNamed(n, now),
               (p: PeerInfo) => p.username == n && !p.useServerRelay && now - p.lastPong <= 60_000_000_000
                 && !p.connected && now - p.createdAt > 12_000_000_000 && !p.relayRequested, peers);
  }

  function IsPingTo(a: Addr): Datagram -> bool { (d: Datagram) => d == Datagram(a, [Ping]) }
  function PingedAt(a: Addr, now: Time): PeerInfo -> bool {
    (p: PeerInfo) => p.addr == a && !p.useServerRelay && now - p.lastPong <= 60_000_000_000
  }

  lemma OnePing(at: Place, p: PeerInfo, now: Time, a: Addr)
    ensures |Filter(IsPingTo(a), TickSends(at, now)(p))| == if PingedAt(a, now)(p) then 1 else 0
  {
    FilterTwo(IsPingTo(a), TickSends(at, now)(p));
  }

  lemma {:induction false} OnePingPerKept(at: Place, peers: seq<PeerInfo>, now: Time, a: Addr)
    ensures |Filter(IsPingTo(a), TickNotices(at, peers, now))| == |Filter(PingedAt(a, now), peers)|
  {
    if peers != [] {
      assert peers == [peers[0]] + peers[1..];
      TickSplits(at, peers[0], peers[1..], now, Ping);
      FilterAppend(IsPingTo(a), TickSends(at, now)(peers[0]), TickNotices(at, peers[1..], now));
      OnePing(at, peers[0], now, a);
      OnePingPerKept(at, peers[1..], now, a);
    }
  }

  /** One PING to an address per entry of it on the direct path heard from in the last 60 seconds. */
  lemma PingsSent(at: Place, peers: seq<PeerInfo>, now: Time, a: Addr)
    ensures |Filter((d: Datagram) => d == Datagram(a, [Ping]), TickNotices(at, peers, now))|
            == |Filter((p: PeerInfo) => p.addr == a && !p.useServerRelay && now - p.lastPong <= 60_000_000_000, peers)|
  {
    OnePingPerKept(at, peers, now, a);
    FilterSame(IsPingTo(a), (d: Datagram) => d == Datagram(a, [Ping]), TickNotices(at, peers, now));
    FilterSame(PingedAt(a, now),
               (p: PeerInfo) => p.addr == a && !p.useServerRelay && now - p.lastPong <= 60_000_000_000, peers);
  }

  /** Reports and requests go to the server, pings to listed peers; a tick sends nothing else. */
  lemma TickSendsNothingElse(at: Place, peers: seq<PeerInfo>, now: Time, d: Datagram)
    requires d in TickNotices(at, peers, now)
    ensures || (exists p :: p in peers && !p.useServerRelay && d == Datagram(p.addr, [Ping]))
            || (exists p :: p in peers && !p.useServerRelay
                            && d == Datagram(at.server, [PeerTimedOut(at.sid, at.cname, p.username)]))
            || (exists p :: p in peers && !p.useServerRelay
                            && d == Datagram(at.server, [RelayRequested(at.sid, at.cname, p.username)]))
  {
    FlatMapMembers(TickSends(at, now), peers);
    var p :| p in peers && d in TickSends(at, now)(p);
  }

  /** What a tick asks for is taken off what may still be asked for. */
  lemma {:induction false} TickSpends(at: Place, peers: seq<PeerInfo>, now: Time, n: Name)
    ensures Times(RelayRequested(at.sid, at.cname, n), TickNotices(at, peers, now))
            + Potential(n, TickPeers(peers, now))
            <= Potential(n, peers)
  {
    if peers != [] {
      var p, rest := peers[0], peers[1..];
      assert peers == [p] + rest;
      TickSplits(at, p, rest, now, RelayRequested(at.sid, at.cname, n));
      OneAsks(at, p, now, n);
      TickSpends(at, rest, now, n);
      PotentialSplits(p, rest, now, n);
    }
  }

  /** What may still be asked for, split off the first entry. */
  lemma PotentialSplits(p: PeerInfo, rest: seq<PeerInfo>, now: Time, n: Name)
    ensures Potential(n, [p] + rest) == Potential(n, rest) + if Unasked(n)(p) then 1 else 0
    ensures Potential(n, TickPeers([p] + rest, now))
            == Potential(n, TickPeers(rest, now)) + if Kept(now)(p) && Unasked(n)(Ticked(now)(p)) then 1 else 0
  {
    var t := Ticked(now)(p);
    assert ([p] + rest)[1..] == rest;
    MapCons(Ticked(now), p, rest);
    assert ([t] + Map(Ticked(now), rest))[1..] == Map(Ticked(now), rest);
    if Kept(now)(p) {
      assert ([t] + TickPeers(rest, now))[1..] == TickPeers(rest, now);
    }
  }

  // Runs of ticks and incoming lines

  datatype Moment = TickAt(now: Time) | HearAt(src: Addr, l: Line, now: Time)

  function Undergo(k: ClientState, e: Moment): ClientState {
    match e
    case TickAt(now) => k.(peers := TickPeers(k.peers, now))
    case HearAt(src, l, now) => Receive(k, src, l, now)
  }

  /** The REQUEST_RELAYs for `n` that a run of moments sends. */
  function Asked(at: Place, k: ClientState, es: seq<Moment>, n: Name): nat
    decreases |es|
  {
    if es == [] then 0
    else
      (if es[0].TickAt? then Times(RelayRequested(at.sid, at.cname, n), TickNotices(at, k.peers, es[0].now)) else 0)
      + Asked(at, Undergo(k, es[0]), es[1..], n)
  }

  /** Hearing `l` adds a peer entry for `n`. */
  predicate Adds(k: ClientState, src: Addr, l: Line, now: Time, n: Name) {
    l.ModeDirect? && l.name == n && |Receive(k, src, l, now).peers| > |k.peers|
  }

  /** How many peer entries for `n` are added during the run. */
  function Added(k: ClientState, es: seq<Moment>, n: Name): nat
    decreases |es|
  {
    if es == [] then 0
    else
      (if es[0].HearAt? && Adds(k, es[0].src, es[0].l, es[0].now, n) then 1 else 0)
      + Added(Undergo(k, es[0]), es[1..], n)
  }

  lemma {:induction false} UpdatePotential(n: Name, peers: seq<PeerInfo>, i: nat, p: PeerInfo)
    requires i < |peers| && p.username == peers[i].username && (peers[i].relayRequested ==> p.relayRequested)
    ensures Potential(n, peers[i := p]) <= Potential(n, peers)
  {
    if i > 0 {
      UpdatePotential(n, peers[1..], i - 1, p);
      assert peers[i := p][1..] == peers[1..][i - 1 := p];
    } else {
      assert peers[i := p][1..] == peers[1..];
    }
  }

  lemma {:induction false} FilterPotential(n: Name, peers: seq<PeerInfo>, q: PeerInfo -> bool)
    ensures Potential(n, Filter(q, peers)) <= Potential(n, peers)
  {
    if peers != [] {
      FilterPotential(n, peers[1..], q);
      if q(peers[0]) {
        assert Filter(q, peers)[1..] == Filter(q, peers[1..]);
      }
    }
  }

  lemma ConnectedPotential(n: Name, peers: seq<PeerInfo>, i: nat, now: Time)
    ensures Potential(n, Connected(peers, i, now)) <= Potential(n, peers)
  {
    if i < |peers| {
      UpdatePotential(n, peers, i, peers[i].(lastPong := now, connected := true));
    }
  }

  lemma AppendPotential(n: Name, peers: seq<PeerInfo>, p: PeerInfo)
    ensures Potential(n, peers + [p]) <= Potential(n, peers) + if p.username == n then 1 else 0
  {
    FilterAppend(Unasked(n), peers, [p]);
    FilterTwo(Unasked(n), [p]);
  }

  lemma NotePotential(n: Name, k: ClientState, name: Name)
    ensures Potential(n, NoteServerRelay(k, name).peers) <= Potential(n, k.peers)
  {
    var i := Position(PeerNamed(name), k.peers);
    if name != k.me && i < |k.peers| {
      UpdatePotential(n, k.peers, i, k.peers[i].(useServerRelay := true, connected := true, relayRequested := true));
    }
  }

  lemma PongPotential(n: Name, k: ClientState, src: Addr, now: Time)
    ensures Potential(n, Incoming(k, src, Pong, now).peers) <= Potential(n, k.peers)
  {
    var i := Position(PeerAt(src), k.peers);
    if i < |k.peers| { UpdatePotential(n, k.peers, i, k.peers[i].(lastPong := now)); }
  }

  lemma AddPotential(n: Name, k: ClientState, name: Name, addr: Addr, now: Time)
    ensures var m := AddPeer(k, name, addr, now);
            Potential(n, m.peers) <= Potential(n, k.peers) + if name == n && |m.peers| > |k.peers| then 1 else 0
  {
    AppendPotential(n, k.peers, NewPeer(name, addr, now));
  }

  lemma IncomingPotential(n: Name, k: ClientState, src: Addr, l: Line, now: Time)
    ensures Potential(n, Incoming(k, src, l, now).peers)
            <= Potential(n, k.peers)
               + if l.ModeDirect? && l.name == n && |Incoming(k, src, l, now).peers| > |k.peers| then 1 else 0
  {
    match l
    case ModeDirect(name, addr) => AddPotential(n, k, name, addr, now);
    case ModeServerRelay(name) => NotePotential(n, k, name);
    case UserLeft(name, _) => FilterPotential(n, k.peers, PeerNotNamed(name));
    case Pong => PongPotential(n, k, src, now);
    case HolePunch => ConnectedPotential(n, k.peers, Position(PeerAt(src), k.peers), now);
    case Data(sender, _) => ConnectedPotential(n, k.peers, Position(PeerNamed(sender), k.peers), now);
    case _ =>
  }

  lemma ResponseKeepsPeers(k: ClientState, l: Line)
    ensures Response(k, l).peers == k.peers
  {
  }

  lemma ReceivePotential(n: Name, k: ClientState, src: Addr, l: Line, now: Time)
    ensures Potential(n, Receive(k, src, l, now).peers)
            <= Potential(n, k.peers) + if Adds(k, src, l, now, n) then 1 else 0
  {
    if src == k.server {
      IncomingPotential(n, k, k.server, l, now);
      ResponseKeepsPeers(Incoming(k, k.server, l, now), l);
    } else {
      var peers := Connected(k.peers, Position(PeerAt(src), k.peers), now);
      ConnectedPotential(n, k.peers, Position(PeerAt(src), k.peers), now);
      assert |peers| == |k.peers| && Receive(k, src, l, now) == Incoming(k.(peers := peers), src, l, now);
      IncomingPotential(n, k.(peers := peers), src, l, now);
    }
  }

  /** Over any run of ticks and incoming lines the server is asked to relay for `n`
      at most once per peer entry: those there at the start and those added since. */
  lemma {:induction false} AskedOncePerEntry(at: Place, k: ClientState, es: seq<Moment>, n: Name)
    ensures Asked(at, k, es, n) <= Potential(n, k.peers) + Added(k, es, n)
    decreases |es|
  {
    if es != [] {
      if es[0].TickAt? {
        TickSpends(at, k.peers, es[0].now, n);
      } else {
        ReceivePotential(n, k, es[0].src, es[0].l, es[0].now);
      }
      AskedOncePerEntry(at, Undergo(k, es[0]), es[1..], n);
    }
  }

  lemma AskNamesItsPeer(at: Place, p: PeerInfo, now: Time, d: Datagram, n: Name)
    requires d in TickSends(at, now)(p) && RelayRequested(at.sid, at.cname, n) in d.lines
    ensures p.username == n
  {
  }

  /** The relay of an agreed channel asks for other members only, never for itself. */
  lemma RelayAsksForOthers(c: ChannelState, clients: map<Addr, ClientState>, at: Place, r: User, now: Time, n: Name)
    requires Agreed(c, clients, at.server) && r in c.users && c.relay == Some(r.name) && r.addr in clients
    requires exists d ::
               d in TickNotices(at, clients[r.addr].peers, now) && RelayRequested(at.sid, at.cname, n) in d.lines
    ensures c.relay != Some(n) && exists v :: v in c.users && v.name == n
  {
    assert InTune(c, clients, at.server, r);
    var d :| d in TickNotices(at, clients[r.addr].peers, now) && RelayRequested(at.sid, at.cname, n) in d.lines;
    var p := AskedIsListed(at, clients[r.addr].peers, now, d, n);
    assert Describes(p, r, c.users);
  }

  lemma AskedIsListed(at: Place, peers: seq<PeerInfo>, now: Time, d: Datagram, n: Name) returns (p: PeerInfo)
    requires d in TickNotices(at, peers, now) && RelayRequested(at.sid, at.cname, n) in d.lines
    ensures p in peers && p.username == n
  {
    FlatMapMembers(TickSends(at, now), peers);
    p :| p in peers && d in TickSends(at, now)(p);
    AskNamesItsPeer(at, p, now, d, n);
  }
}
