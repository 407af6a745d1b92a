/** The client as an object: the fields its threads share and the code that
    updates them (src/client/handlers.rs, src/client/networking.rs, src/bin/client.rs). */
module Clients {
  import opened ClientSteps
  import opened Keepalive
  import opened Seqs
  import opened Structures
  import opened Views

  // Datagrams of several lines

  /** `process_incoming_message`: every line, one after the other. */
  function IncomingAll(k: ClientState, src: Addr, lines: seq<Line>, now: Time): ClientState
    decreases |lines|
  {
    if lines == [] then k else IncomingAll(Incoming(k, src, lines[0], now), src, lines[1..], now)
  }

  function IncomingAllSends(k: ClientState, src: Addr, lines: seq<Line>, now: Time): seq<Datagram>
    decreases |lines|
  {
    if lines == [] then []
    else IncomingSends(k, src, lines[0]) + IncomingAllSends(Incoming(k, src, lines[0], now), src, lines[1..], now)
  }

  /** `process_server_response`: a second pass over the same lines. */
  function ResponseAll(k: ClientState, lines: seq<Line>): ClientState
    decreases |lines|
  {
    if lines == [] then k else ResponseAll(Response(k, lines[0]), lines[1..])
  }

  function ReceiveAll(k: ClientState, src: Addr, lines: seq<Line>, now: Time): ClientState {
    if src == k.server then ResponseAll(IncomingAll(k, src, lines, now), lines)
    else IncomingAll(k.(peers := Connected(k.peers, Position(PeerAt(src), k.peers), now)), src, lines, now)
  }

  function ReceiveAllSends(k: ClientState, src: Addr, lines: seq<Line>, now: Time): seq<Datagram> {
    if src == k.server then IncomingAllSends(k, src, lines, now)
    else IncomingAllSends(k.(peers := Connected(k.peers, Position(PeerAt(src), k.peers), now)), src, lines, now)
  }

  predicate IsMode(l: Line) { l.ModeRelay? || l.ModeDirect? || l.ModeServerRelay? }

  /** Skipping the second pass when no line is a MODE line changes nothing. */
  lemma {:induction false} WithoutModeNoResponse(k: ClientState, lines: seq<Line>)
    requires forall l :: l in lines ==> !IsMode(l)
    ensures ResponseAll(k, lines) == k
    decreases |lines|
  {
    if lines != [] {
      assert !IsMode(lines[0]);
      WithoutModeNoResponse(k, lines[1..]);
    }
  }

  /** For one line the two passes are one step. */
  lemma OneLine(k: ClientState, src: Addr, l: Line, now: Time)
    ensures ReceiveAll(k, src, [l], now) == Receive(k, src, l, now)
  {
    var j := if src == k.server then k else k.(peers := Connected(k.peers, Position(PeerAt(src), k.peers), now));
    var m := Incoming(j, src, l, now);
    assert [l][1..] == [];
    assert IncomingAll(m, src, [], now) == m;
    assert ResponseAll(Response(m, l), []) == Response(m, l);
  }

  lemma AddSpares(k: ClientState, m: ClientState, name: Name, addr: Addr, now: Time)
    requires m.me == k.me && m.peers == k.peers
    ensures AddPeer(m, name, addr, now).peers == AddPeer(k, name, addr, now).peers
  {
  }

  lemma NoteSpares(k: ClientState, m: ClientState, name: Name)
    requires m.me == k.me && m.peers == k.peers
    ensures NoteServerRelay(m, name).peers == NoteServerRelay(k, name).peers
  {
  }

  /** How a client sends and mirrors plays no part in what a line does to its list. */
  lemma IncomingSpares(k: ClientState, m: ClientState, x: Line, now: Time)
    requires m.me == k.me && m.peers == k.peers
    ensures Incoming(m, k.server, x, now).peers == Incoming(k, k.server, x, now).peers
  {
    match x
    case ModeDirect(name, addr) => AddSpares(k, m, name, addr, now);
    case ModeServerRelay(name) => NoteSpares(k, m, name);
    case _ =>
  }

  lemma LinesCommute(k: ClientState, x: Line, l: Line, now: Time)
    requires x != ModeRelay && l != ModeRelay
    ensures Response(Incoming(k, k.server, x, now), l) == Incoming(Response(k, l), k.server, x, now)
  {
    var a, b := Response(Incoming(k, k.server, x, now), l), Incoming(Response(k, l), k.server, x, now);
    ResponseWays(k, l);
    IncomingWays(k, k.server, x, now);
    IncomingWays(Response(k, l), k.server, x, now);
    ResponseWays(Incoming(k, k.server, x, now), l);
    IncomingSpares(k, Response(k, l), x, now);
    assert a.peers == b.peers && a.channelHasServerRelays == b.channelHasServerRelays;
  }

  lemma IncomingAllFirst(k: ClientState, src: Addr, lines: seq<Line>, now: Time)
    requires lines != []
    ensures IncomingAll(k, src, lines, now) == IncomingAll(Incoming(k, src, lines[0], now), src, lines[1..], now)
  {
  }

  lemma IncomingStep(k: ClientState, src: Addr, lines: seq<Line>, i: nat, now: Time, before: seq<Datagram>)
    requires i < |lines|
    ensures var m := Incoming(k, src, lines[i], now);
            && IncomingAll(k, src, lines[i..], now) == IncomingAll(m, src, lines[i + 1..], now)
            && before + IncomingAllSends(k, src, lines[i..], now)
               == before + IncomingSends(k, src, lines[i]) + IncomingAllSends(m, src, lines[i + 1..], now)
  {
    assert lines[i..][0] == lines[i] && lines[i..][1..] == lines[i + 1..];
    var first, rest := IncomingSends(k, src, lines[i]),
        IncomingAllSends(Incoming(k, src, lines[i], now), src, lines[i + 1..], now);
    assert IncomingAllSends(k, src, lines[i..], now) == first + rest;
    assert before + (first + rest) == before + first + rest;
  }

  lemma {:induction false} ResponseBefore(k: ClientState, lines: seq<Line>, l: Line, now: Time)
    requires l != ModeRelay && ModeRelay !in lines
    ensures Response(IncomingAll(k, k.server, lines, now), l) == IncomingAll(Response(k, l), k.server, lines, now)
    decreases |lines|
  {
    if lines != [] {
      var m := Incoming(k, k.server, lines[0], now);
      assert lines[0] != ModeRelay && forall x :: x in lines[1..] ==> x in lines;
      IncomingWays(k, k.server, lines[0], now);
      LinesCommute(k, lines[0], l, now);
      ResponseBefore(m, lines[1..], l, now);
      IncomingAllFirst(k, k.server, lines, now);
      IncomingAllFirst(Response(k, l), k.server, lines, now);
    }
  }

  lemma FirstPasses(k: ClientState, lines: seq<Line>, now: Time)
    requires lines != [] && ModeRelay !in lines
    ensures var f := FromServer(k, lines[0], now);
            && f.server == k.server
            && ResponseAll(IncomingAll(k, k.server, lines, now), lines)
               == ResponseAll(IncomingAll(f, f.server, lines[1..], now), lines[1..])
  {
    var l, rest := lines[0], lines[1..];
    assert l != ModeRelay && forall x :: x in rest ==> x in lines;
    IncomingWays(k, k.server, l, now);
    IncomingAllFirst(k, k.server, lines, now);
    ResponseBefore(Incoming(k, k.server, l, now), rest, l, now);
    ResponseAllFirst(IncomingAll(k, k.server, lines, now), lines);
  }

  lemma ResponseAllFirst(k: ClientState, lines: seq<Line>)
    requires lines != []
    ensures ResponseAll(k, lines) == ResponseAll(Response(k, lines[0]), lines[1..])
  {
  }

  lemma {:induction false} PassesInterleave(k: ClientState, lines: seq<Line>, now: Time)
    requires ModeRelay !in lines
    ensures ResponseAll(IncomingAll(k, k.server, lines, now), lines) == Hear(k, lines, now)
    decreases |lines|
  {
    if lines != [] {
      var l, rest := lines[0], lines[1..];
      assert l != ModeRelay && forall x :: x in rest ==> x in lines;
      FirstPasses(k, lines, now);
      PassesInterleave(FromServer(k, l, now), rest, now);
    }
  }

  /** Reading a datagram from the server is hearing its lines one after the other. */
  lemma ReceivingIsHearing(k: ClientState, lines: seq<Line>, now: Time)
    requires OnePass(lines)
    ensures ReceiveAll(k, k.server, lines, now) == Hear(k, lines, now)
  {
    if ModeRelay in lines {
      OneLine(k, k.server, lines[0], now);
      assert lines == [lines[0]] && lines[1..] == [];
      assert Hear(FromServer(k, lines[0], now), [], now) == FromServer(k, lines[0], now);
    } else {
      PassesInterleave(k, lines, now);
    }
  }

  // Removing by index from the back

  /** The positions of `s` that fail `keep`, as a loop over `s` collects them. */
  function Failing(keep: PeerInfo -> bool, s: seq<PeerInfo>): seq<nat> {
    if s == [] then []
    else
      var n := |s| - 1;
      if keep(s[n]) then Failing(keep, s[..n]) else Failing(keep, s[..n]) + [n]
  }

  /** Removing the listed positions, the last one first, stays within a list of length `n`. */
  predicate Removable(out: seq<nat>, n: nat) {
    out == [] || (out[|out| - 1] < n && Removable(out[..|out| - 1], n - 1))
  }

  function RemoveBackwards(s: seq<PeerInfo>, out: seq<nat>): seq<PeerInfo>
    requires Removable(out, |s|)
  {
    if out == [] then s else RemoveBackwards(RemoveAt(s, out[|out| - 1]), out[..|out| - 1])
  }

  lemma FailingSnoc(keep: PeerInfo -> bool, init: seq<PeerInfo>, x: PeerInfo)
    ensures Failing(keep, init + [x]) == if keep(x) then Failing(keep, init) else Failing(keep, init) + [|init|]
    ensures Filter(keep, init + [x]) == if keep(x) then Filter(keep, init) + [x] else Filter(keep, init)
  {
    assert (init + [x])[..|init|] == init;
    FilterAppend(keep, init, [x]);
  }

  /** Removing positions `out` of `s` from the back is possible and leaves `kept`. */
  ghost predicate Leaves(s: seq<PeerInfo>, out: seq<nat>, kept: seq<PeerInfo>) {
    Removable(out, |s|) && RemoveBackwards(s, out) == kept
  }

  lemma RemovalSpares(out: seq<nat>, init: seq<PeerInfo>, x: PeerInfo, tail: seq<PeerInfo>, kept: seq<PeerInfo>)
    requires Leaves(init + ([x] + tail), out, kept + ([x] + tail))
    ensures Leaves(init + [x] + tail, out, kept + [x] + tail)
  {
    assert init + [x] + tail == init + ([x] + tail);
    assert kept + [x] + tail == kept + ([x] + tail);
  }

  lemma RemovalDrops(out: seq<nat>, init: seq<PeerInfo>, x: PeerInfo, tail: seq<PeerInfo>, kept: seq<PeerInfo>)
    requires Leaves(init + tail, out, kept)
    ensures Leaves(init + [x] + tail, out + [|init|], kept)
  {
    assert (out + [|init|])[..|out|] == out;
    assert RemoveAt(init + [x] + tail, |init|) == init + tail;
  }

  /** Removing the failing positions from the back leaves what is kept, in order. */
  lemma {:induction false} BackwardsFilters(keep: PeerInfo -> bool, s: seq<PeerInfo>, tail: seq<PeerInfo>)
    ensures Leaves(s + tail, Failing(keep, s), Filter(keep, s) + tail)
  {
    if s == [] {
      assert s + tail == tail && Filter(keep, s) + tail == tail;
    } else {
      var init, x := s[..|s| - 1], s[|s| - 1];
      assert s == init + [x];
      FailingSnoc(keep, init, x);
      if keep(x) {
        BackwardsFilters(keep, init, [x] + tail);
        RemovalSpares(Failing(keep, init), init, x, tail, Filter(keep, init));
      } else {
        BackwardsFilters(keep, init, tail);
        RemovalDrops(Failing(keep, init), init, x, tail, Filter(keep, init) + tail);
      }
    }
  }

  lemma ForwardStep(p: PeerInfo -> bool, l: Line, s: seq<PeerInfo>, i: nat)
    requires i < |s|
    ensures Map(Relaying(l), Filter(p, s[..i + 1]))
            == Map(Relaying(l), Filter(p, s[..i])) + if p(s[i]) then [Datagram(s[i].addr, [l])] else []
  {
    FilterSnoc(p, s, i);
  }

  /** A tick has reached position `i` of the entries `s`. */
  /** What DATA makes the client send, from the peers as they are once its sender is connected. */
  lemma DataSends(k: ClientState, src: Addr, sender: Name, text: string, now: Time, before: seq<Datagram>)
    ensures var l, peers := Data(sender, text), Connected(k.peers, Position(PeerNamed(sender), k.peers), now);
            var forwards := before + Map(Relaying(l), Filter(PeerNotNamed(sender), peers));
            before + IncomingSends(k, src, l)
            == if !k.isRelay then before
               else if k.channelHasServerRelays then forwards + [Datagram(k.server, [l])] else forwards
  {
    var i := Position(PeerNamed(sender), k.peers);
    ConnectedKeepsView(k, i, now);
    SameViewSameForwards(k.peers, Connected(k.peers, i, now), Data(sender, text), sender);
  }

  ghost predicate Midway(at: Place, s: seq<PeerInfo>, i: nat, now: Time, peers: seq<PeerInfo>, sent: seq<Datagram>,
                         out: seq<nat>) {
    && i <= |s| == |peers| && sent == TickNotices(at, s[..i], now) && out == Failing(Kept(now), s[..i])
    && forall j :: 0 <= j < |s| ==> peers[j] == if j < i then Ticked(now)(s[j]) else s[j]
  }

  lemma MidwayStart(at: Place, s: seq<PeerInfo>, now: Time)
    ensures Midway(at, s, 0, now, s, [], [])
  {
  }

  lemma MidwayStep(at: Place, s: seq<PeerInfo>, i: nat, now: Time, peers: seq<PeerInfo>, sent: seq<Datagram>,
                   out: seq<nat>)
    requires i < |s| && Midway(at, s, i, now, peers, sent, out)
    ensures peers[i] == s[i]
    ensures Midway(at, s, i + 1, now, peers[i := Ticked(now)(s[i])], sent + TickSends(at, now)(s[i]),
                   if Silent(s[i], now) then out + [i] else out)
  {
    TickStep(at, s, i, now);
  }

  lemma MidwayEnd(at: Place, s: seq<PeerInfo>, now: Time, peers: seq<PeerInfo>, sent: seq<Datagram>, out: seq<nat>)
    requires Midway(at, s, |s|, now, peers, sent, out)
    ensures peers == Map(Ticked(now), s) && sent == TickNotices(at, s, now) && out == Failing(Kept(now), s)
  {
    assert s[..|s|] == s;
    var t := Map(Ticked(now), s);
    assert |t| == |peers| && forall j :: 0 <= j < |s| ==> peers[j] == t[j];
  }

  lemma TickStep(at: Place, s: seq<PeerInfo>, i: nat, now: Time)
    requires i < |s|
    ensures Failing(Kept(now), s[..i + 1])
            == if Silent(s[i], now) then Failing(Kept(now), s[..i]) + [i] else Failing(Kept(now), s[..i])
    ensures TickNotices(at, s[..i + 1], now) == TickNotices(at, s[..i], now) + TickSends(at, now)(s[i])
  {
    FlatMapSnoc(TickSends(at, now), s, i);
    assert s[..i + 1][..i] == s[..i];
  }

  /** The mark a tick leaves does not decide who is kept. */
  lemma {:induction false} TickStays(s: seq<PeerInfo>, now: Time)
    ensures Failing(Kept(now), Map(Ticked(now), s)) == Failing(Kept(now), s)
  {
    if s != [] {
      TickStays(s[..|s| - 1], now);
      assert Map(Ticked(now), s)[..|s| - 1] == Map(Ticked(now), s[..|s| - 1]);
    }
  }

  class Client {
    const me: Name
    const server: Addr
    var isRelay: bool
    var channelHasServerRelays: bool
    var sendViaServer: bool
    var paused: bool
    var peers: seq<PeerInfo>

    constructor (me: Name, server: Addr)
      ensures State() == FreshClient(me, server)
    {
      this.me, this.server := me, server;
      isRelay, channelHasServerRelays, sendViaServer, paused := false, false, false, false;
      peers := [];
    }

    function State(): ClientState
      reads this
    {
      ClientState(me, server, isRelay, channelHasServerRelays, sendViaServer, paused, peers)
    }

    /** `ensure_connected` on the first peer that satisfies `p`. */
    method EnsureConnected(p: PeerInfo -> bool, now: Time)
      modifies this`peers
      ensures peers == Connected(old(peers), Position(p, old(peers)), now)
    {
      var i := Position(p, peers);
      if i < |peers| {
        peers := peers[i := peers[i].(lastPong := now, connected := true)];
      }
    }

    method HandleModeDirect(name: Name, addr: Addr, now: Time)
      modifies this`peers
      ensures State() == AddPeer(old(State()), name, addr, now)
    {
      if name != me && Position(PeerAt(addr), peers) == |peers| {
        peers := peers + [NewPeer(name, addr, now)];
      }
    }

    method HandleServerRelay(name: Name)
      modifies this`channelHasServerRelays, this`peers
      ensures State() == NoteServerRelay(old(State()), name)
    {
      if name == me { return; }
      if isRelay {
        channelHasServerRelays := true;
      }
      var i := Position(PeerNamed(name), peers);
      if i < |peers| {
        peers := peers[i := peers[i].(useServerRelay := true, connected := true, relayRequested := true)];
      }
    }

    /** DATA goes to every peer that is not its sender. */
    method HandleRelayMessageToPeers(socket: UdpSocket, sender: Name, l: Line)
      modifies socket
      ensures socket.sent == old(socket.sent) + Map(Relaying(l), Filter(PeerNotNamed(sender), peers))
    {
      ghost var before := socket.sent;
      for i := 0 to |peers|
        invariant socket.sent == before + Map(Relaying(l), Filter(PeerNotNamed(sender), peers[..i]))
      {
        ForwardStep(PeerNotNamed(sender), l, peers, i);
        if peers[i].username != sender {
          socket.SendTo([l], peers[i].addr);
        }
      }
      assert peers[..|peers|] == peers;
    }

    method HandleDataMessage(socket: UdpSocket, sender: Name, text: string, src: Addr, now: Time)
      modifies this`peers, socket
      ensures State() == Incoming(old(State()), src, Data(sender, text), now)
      ensures socket.sent == old(socket.sent) + IncomingSends(old(State()), src, Data(sender, text))
    {
      DataSends(State(), src, sender, text, now, socket.sent);
      EnsureConnected(PeerNamed(sender), now);
      if isRelay {
        HandleRelayMessageToPeers(socket, sender, Data(sender, text));
        if channelHasServerRelays {
          socket.SendTo([Data(sender, text)], server);
        }
      }
    }

    method HandleLine(socket: UdpSocket, src: Addr, l: Line, now: Time)
      modifies this`isRelay, this`channelHasServerRelays, this`peers, socket
      ensures State() == Incoming(old(State()), src, l, now)
      ensures socket.sent == old(socket.sent) + IncomingSends(old(State()), src, l)
    {
      match l
      case Ping => socket.SendTo([Pong], src);
      case Pong =>
        var i := Position(PeerAt(src), peers);
        if i < |peers| {
          peers := peers[i := peers[i].(lastPong := now)];
        }
      case HolePunch => EnsureConnected(PeerAt(src), now);
      case Data(sender, text) => HandleDataMessage(socket, sender, text, src, now);
      case ModeRelay => isRelay := true;
      case ModeDirect(name, addr) => HandleModeDirect(name, addr, now);
      case ModeServerRelay(name) => HandleServerRelay(name);
      case UserLeft(name, _) => peers := Filter(PeerNotNamed(name), peers);
      case _ =>
    }

    method ProcessIncomingMessage(socket: UdpSocket, src: Addr, lines: seq<Line>, now: Time)
      modifies this`isRelay, this`channelHasServerRelays, this`peers, socket
      ensures State() == IncomingAll(old(State()), src, lines, now)
      ensures socket.sent == old(socket.sent) + IncomingAllSends(old(State()), src, lines, now)
    {
      ghost var all := socket.sent + IncomingAllSends(State(), src, lines, now);
      for i := 0 to |lines|
        invariant IncomingAll(State(), src, lines[i..], now) == IncomingAll(old(State()), src, lines, now)
        invariant socket.sent + IncomingAllSends(State(), src, lines[i..], now) == all
      {
        IncomingStep(State(), src, lines, i, now, socket.sent);
        HandleLine(socket, src, lines[i], now);
      }
    }

    method ProcessServerResponse(lines: seq<Line>)
      modifies this`sendViaServer, this`paused, this`channelHasServerRelays
      ensures State() == ResponseAll(old(State()), lines)
    {
      if forall l :: l in lines ==> !IsMode(l) {
        WithoutModeNoResponse(State(), lines);
        return;
      }
      for i := 0 to |lines|
        invariant ResponseAll(State(), lines[i..]) == ResponseAll(old(State()), lines)
      {
        assert lines[i..][0] == lines[i] && lines[i..][1..] == lines[i + 1..];
        if lines[i] == ModeRelay {
          sendViaServer, paused := false, false;
        }
        if lines[i].ModeServerRelay? {
          if lines[i].name == me {
            sendViaServer, paused := true, true;
          } else if isRelay {
            channelHasServerRelays := true;
          }
        }
      }
    }

    /** A datagram from the server or from a peer. */
    method ReceiveDatagram(socket: UdpSocket, src: Addr, lines: seq<Line>, now: Time)
      modifies this, socket
      ensures State() == ReceiveAll(old(State()), src, lines, now)
      ensures socket.sent == old(socket.sent) + ReceiveAllSends(old(State()), src, lines, now)
    {
      if src == server {
        ProcessIncomingMessage(socket, src, lines, now);
        ProcessServerResponse(lines);
      } else {
        EnsureConnected(PeerAt(src), now);
        ProcessIncomingMessage(socket, src, lines, now);
      }
    }

    /** The user's own message. */
    method HandleUserMessage(socket: UdpSocket, text: string)
      modifies socket
      ensures socket.sent == old(socket.sent) + OriginSends(State(), text)
    {
      var l := Data(me, text);
      if sendViaServer {
        socket.SendTo([l], server);
        return;
      }
      ghost var before := socket.sent;
      for i := 0 to |peers|
        invariant socket.sent == before + Map(Relaying(l), Filter(PeerOnDirect(), peers[..i]))
      {
        ForwardStep(PeerOnDirect(), l, peers, i);
        if !peers[i].useServerRelay {
          socket.SendTo([l], peers[i].addr);
        }
      }
      assert peers[..|peers|] == peers;
      ghost var direct := Map(Relaying(l), Filter(PeerOnDirect(), peers));
      assert before + (direct + [Datagram(server, [l])]) == before + direct + [Datagram(server, [l])];
      if isRelay && channelHasServerRelays {
        socket.SendTo([l], server);
      }
    }

    /** A keepalive tick at one peer. */
    method ReportOrPing(socket: UdpSocket, at: Place, i: nat, now: Time) returns (remove: bool)
      requires i < |peers|
      modifies this`peers, socket
      ensures peers == old(peers)[i := Ticked(now)(old(peers[i]))]
      ensures socket.sent == old(socket.sent) + TickSends(at, now)(old(peers[i]))
      ensures remove == Silent(old(peers[i]), now)
      ensures remove <==> !old(peers[i]).useServerRelay && now - old(peers[i]).lastPong > 60_000_000_000
    {
      remove := false;
      var peer := peers[i];
      if !peer.useServerRelay {
        if now - peer.lastPong > PEER_TIMEOUT {
          socket.SendTo([PeerTimedOut(at.sid, at.cname, peer.username)], at.server);
          remove := true;
        } else {
          socket.SendTo([Ping], peer.addr);
          if !peer.connected && now - peer.createdAt > CONNECT_GRACE && !peer.relayRequested {
            peers := peers[i := peer.(relayRequested := true)];
            socket.SendTo([RelayRequested(at.sid, at.cname, peer.username)], at.server);
          }
        }
      }
    }

    /** The forward half of a keepalive tick: reports, pings and requests, and the
        positions to remove. */
    method ReportAndPing(socket: UdpSocket, at: Place, now: Time) returns (toRemove: seq<nat>)
      modifies this`peers, socket
      ensures peers == Map(Ticked(now), old(peers))
      ensures socket.sent == old(socket.sent) + TickNotices(at, old(peers), now)
      ensures toRemove == Failing(Kept(now), old(peers))
    {
      toRemove := [];
      ghost var start, before, sent := peers, socket.sent, [];
      MidwayStart(at, start, now);
      for i := 0 to |peers|
        invariant |peers| == |start| && socket.sent == before + sent
        invariant Midway(at, start, i, now, peers, sent, toRemove)
      {
        MidwayStep(at, start, i, now, peers, sent, toRemove);
        ghost var more := TickSends(at, now)(peers[i]);
        assert before + sent + more == before + (sent + more);
        sent := sent + more;
        var remove := ReportOrPing(socket, at, i, now);
        if remove {
          toRemove := toRemove + [i];
        }
      }
      MidwayEnd(at, start, now, peers, sent, toRemove);
    }

    method RemovePeers(toRemove: seq<nat>)
      requires Removable(toRemove, |peers|)
      modifies this`peers
      ensures peers == RemoveBackwards(old(peers), toRemove)
    {
      var j := |toRemove|;
      assert toRemove[..j] == toRemove;
      while j > 0
        invariant 0 <= j <= |toRemove|
        invariant Removable(toRemove[..j], |peers|)
        invariant RemoveBackwards(peers, toRemove[..j]) == RemoveBackwards(old(peers), toRemove)
      {
        assert toRemove[..j][..j - 1] == toRemove[..j - 1];
        j := j - 1;
        peers := RemoveAt(peers, toRemove[j]);
      }
    }

    /** One keepalive tick of a relay. */
    method KeepaliveTick(socket: UdpSocket, at: Place, now: Time)
      modifies this`peers, socket
      ensures peers == TickPeers(old(peers), now)
      ensures peers == Map(Ticked(now), Filter((p: PeerInfo) =>
                                                 p.useServerRelay || now - p.lastPong <= 60_000_000_000, old(peers)))
      ensures socket.sent == old(socket.sent) + TickNotices(at, old(peers), now)
    {
      KeptForSixtySeconds(peers, now);
      var toRemove := ReportAndPing(socket, at, now);
      TickStays(old(peers), now);
      BackwardsFilters(Kept(now), peers, []);
      assert peers + [] == peers && TickPeers(old(peers), now) + [] == TickPeers(old(peers), now);
      RemovePeers(toRemove);
    }
  }
}
