/** A client's state and what each line does to it (src/client/handlers.rs,
    src/client/networking.rs, src/bin/client.rs), as functions on its value. */
module ClientSteps {
  import opened Seqs
  import opened Structures

  datatype PeerInfo = PeerInfo(addr: Addr, lastPong: Time, username: Name, connected: bool, createdAt: Time,
                               useServerRelay: bool, relayRequested: bool)

  datatype ClientState = ClientState(me: Name, server: Addr, isRelay: bool, channelHasServerRelays: bool,
                                     sendViaServer: bool, paused: bool, peers: seq<PeerInfo>)

  function FreshClient(me: Name, server: Addr): ClientState {
    ClientState(me, server, false, false, false, false, [])
  }

  function PeerAt(a: Addr): PeerInfo -> bool { (p: PeerInfo) => p.addr == a }
  function PeerNamed(n: Name): PeerInfo -> bool { (p: PeerInfo) => p.username == n }
  function PeerNotNamed(n: Name): PeerInfo -> bool { (p: PeerInfo) => p.username != n }
  function PeerOnDirect(): PeerInfo -> bool { (p: PeerInfo) => !p.useServerRelay }

  function NewPeer(name: Name, addr: Addr, now: Time): PeerInfo {
    PeerInfo(addr, now, name, false, now, false, false)
  }

  /** `ensure_connected` on the peer at position `i`, if there is one. */
  function Connected(peers: seq<PeerInfo>, i: nat, now: Time): seq<PeerInfo> {
    if i < |peers| then peers[i := peers[i].(lastPong := now, connected := true)] else peers
  }

  function AddPeer(k: ClientState, name: Name, addr: Addr, now: Time): ClientState {
    if name != k.me && Position(PeerAt(addr), k.peers) == |k.peers|
    then k.(peers := k.peers + [NewPeer(name, addr, now)])
    else k
  }

  function NoteServerRelay(k: ClientState, name: Name): ClientState {
    if name == k.me then k
    else
      var i := Position(PeerNamed(name), k.peers);
      k.(channelHasServerRelays := k.channelHasServerRelays || k.isRelay,
         peers := if i == |k.peers| then k.peers
                  else k.peers[i := k.peers[i].(useServerRelay := true, connected := true, relayRequested := true)])
  }

  /** One line of `process_incoming_message`, received from `src`. */
  function Incoming(k: ClientState, src: Addr, l: Line, now: Time): ClientState {
    match l
    case ModeRelay => k.(isRelay := true)
    case ModeDirect(name, addr) => AddPeer(k, name, addr, now)
    case ModeServerRelay(name) => NoteServerRelay(k, name)
    case UserLeft(name, _) => k.(peers := Filter(PeerNotNamed(name), k.peers))
    case Pong =>
      var i := Position(PeerAt(src), k.peers);
      if i == |k.peers| then k else k.(peers := k.peers[i := k.peers[i].(lastPong := now)])
    case HolePunch => k.(peers := Connected(k.peers, Position(PeerAt(src), k.peers), now))
    case Data(sender, _) => k.(peers := Connected(k.peers, Position(PeerNamed(sender), k.peers), now))
    case _ => k
  }

  function Relaying(l: Line): PeerInfo -> Datagram { (p: PeerInfo) => Datagram(p.addr, [l]) }

  /** What the line makes the client send. A relay passes DATA on to its peers and,
      if the channel has server-relayed users, to the server; others never forward. */
  function IncomingSends(k: ClientState, src: Addr, l: Line): seq<Datagram> {
    match l
    case Ping => [Datagram(src, [Pong])]
    case Data(sender, _) =>
      if k.isRelay then
        Map(Relaying(l), Filter(PeerNotNamed(sender), k.peers))
        + (if k.channelHasServerRelays then [Datagram(k.server, [l])] else [])
      else []
    case _ => []
  }

  /** One line of `process_server_response`. */
  function Response(k: ClientState, l: Line): ClientState {
    match l
    case ModeRelay => k.(sendViaServer := false, paused := false)
    case ModeServerRelay(who) =>
      if who == k.me then k.(sendViaServer := true, paused := true)
      else k.(channelHasServerRelays := k.channelHasServerRelays || k.isRelay)
    case _ => k
  }

  /** A one-line datagram from the server: incoming, then response. */
  function FromServer(k: ClientState, l: Line, now: Time): ClientState {
    Response(Incoming(k, k.server, l, now), l)
  }

  /** A one-line datagram from a peer. */
  function FromPeer(k: ClientState, src: Addr, l: Line, now: Time): ClientState {
    Incoming(k.(peers := Connected(k.peers, Position(PeerAt(src), k.peers), now)), src, l, now)
  }

  function Receive(k: ClientState, src: Addr, l: Line, now: Time): ClientState {
    if src == k.server then FromServer(k, l, now) else FromPeer(k, src, l, now)
  }

  /** `handle_user_message`: the user's own line. */
  function OriginSends(k: ClientState, text: string): seq<Datagram> {
    var l := Data(k.me, text);
    if k.sendViaServer then [Datagram(k.server, [l])]
    else
      Map(Relaying(l), Filter(PeerOnDirect(), k.peers))
      + (if k.isRelay && k.channelHasServerRelays then [Datagram(k.server, [l])] else [])
  }

  /** Everything a client sends for a message is that message, word for word: its own
      under its own name, and another's as it came. */
  lemma WordsUnchanged(k: ClientState, src: Addr, sender: Name, text: string)
    ensures forall d :: d in OriginSends(k, text) ==> d.lines == [Data(k.me, text)]
    ensures forall d :: d in IncomingSends(k, src, Data(sender, text)) ==> d.lines == [Data(sender, text)]
  {
  }

  /** What forwarding depends on. */
  ghost predicate SameView(k: ClientState, m: ClientState) {
    && m.me == k.me && m.server == k.server && m.isRelay == k.isRelay
    && m.channelHasServerRelays == k.channelHasServerRelays && m.sendViaServer == k.sendViaServer
    && |m.peers| == |k.peers|
    && forall i :: 0 <= i < |k.peers| ==>
         m.peers[i].addr == k.peers[i].addr && m.peers[i].username == k.peers[i].username
         && m.peers[i].useServerRelay == k.peers[i].useServerRelay
  }

  lemma ConnectedKeepsView(k: ClientState, i: nat, now: Time)
    ensures SameView(k, k.(peers := Connected(k.peers, i, now)))
  {
  }

  /** Traffic changes nothing that traffic depends on. */
  lemma DataKeepsView(k: ClientState, src: Addr, sender: Name, text: string, now: Time)
    ensures SameView(k, Receive(k, src, Data(sender, text), now))
  {
    var j := if src == k.server then k else k.(peers := Connected(k.peers, Position(PeerAt(src), k.peers), now));
    ConnectedKeepsView(k, Position(PeerAt(src), k.peers), now);
    ConnectedKeepsView(j, Position(PeerNamed(sender), j.peers), now);
  }

  lemma {:induction false} SameViewSameForwards(ps: seq<PeerInfo>, qs: seq<PeerInfo>, l: Line, sender: Name)
    requires |ps| == |qs| && forall i :: 0 <= i < |ps| ==> ps[i].addr == qs[i].addr && ps[i].username == qs[i].username
    ensures Map(Relaying(l), Filter(PeerNotNamed(sender), ps)) == Map(Relaying(l), Filter(PeerNotNamed(sender), qs))
  {
    if ps != [] {
      SameViewSameForwards(ps[1..], qs[1..], l, sender);
      if ps[0].username != sender {
        MapCons(Relaying(l), ps[0], Filter(PeerNotNamed(sender), ps[1..]));
        MapCons(Relaying(l), qs[0], Filter(PeerNotNamed(sender), qs[1..]));
      }
    }
  }

  lemma SameViewSameSends(k: ClientState, m: ClientState, src: Addr, sender: Name, text: string)
    requires SameView(k, m)
    ensures IncomingSends(m, src, Data(sender, text)) == IncomingSends(k, src, Data(sender, text))
  {
    SameViewSameForwards(k.peers, m.peers, Data(sender, text), sender);
  }
}
