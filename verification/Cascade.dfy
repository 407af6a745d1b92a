/** One DATA message on its way through a working channel: who gets it, whatever the
    order of deliveries and the iteration order of the server's hash maps. */
module Cascade {
  import opened Agreement
  import opened ClientSteps
  import opened Fates
  import opened Routing
  import opened Seqs
  import opened ServerSteps
  import opened Structures
  import opened Wrappers

  /** The server with all its channels, the one the message belongs to, and every client. */
  datatype World = World(server: Addr, st: ServerMap, sid: string, cname: string, clients: map<Addr, ClientState>) {
    function Channel(): ChannelState { ChannelOr(st, sid, cname) }
  }

  ghost predicate Calm(w: World) {
    && HasChannel(w.st, w.sid, w.cname)
    && Working(w.Channel(), w.clients, w.server)
    && forall u {:trigger OnlyIn(w.st, w.sid, w.cname, u.addr)} :: u in w.Channel().users
        ==> OnlyIn(w.st, w.sid, w.cname, u.addr)
  }

  /** Member `u` of a calm world: its client is right, and no other channel knows its address. */
  lemma MemberOfCalm(w: World, u: User)
    requires Calm(w) && u in w.Channel().users
    ensures InTune(w.Channel(), w.clients, w.server, u) && OnlyIn(w.st, w.sid, w.cname, u.addr)
  {
  }

  function FromAddr(src: Addr): Addr -> Packet { (a: Addr) => Packet(src, a) }
  function FromDatagram(src: Addr): Datagram -> Packet { (d: Datagram) => Packet(src, d.dst) }

  /** What the server sends on a DATA line from `src`. */
  function ServerHops(w: World, order: seq<(string, string)>, sender: Name, src: Addr): seq<Packet> {
    Map(FromAddr(w.server), Route(w.st, order, src, sender))
  }

  function ClientHops(k: ClientState, p: Packet, sender: Name, text: string): seq<Packet> {
    Map(FromDatagram(p.dst), IncomingSends(k, p.src, Data(sender, text)))
  }

  /** What is in flight, what has been delivered, and the clients as they are by now. */
  datatype Traffic = Traffic(clients: map<Addr, ClientState>, flight: seq<Packet>, done: seq<Packet>)

  /** Which packet comes next, in which order the hash maps iterate, and when. */
  datatype Choice = Choice(i: nat, order: seq<(string, string)>, now: Time)

  function Deliver(w: World, sender: Name, text: string, t: Traffic, ch: Choice): Traffic
    requires ch.i < |t.flight|
  {
    var p, rest := t.flight[ch.i], t.flight[..ch.i] + t.flight[ch.i + 1..];
    if p.dst == w.server then
      Traffic(t.clients, rest + ServerHops(w, ch.order, sender, p.src), t.done + [p])
    else if p.dst in t.clients then
      var k := t.clients[p.dst];
      Traffic(t.clients[p.dst := Receive(k, p.src, Data(sender, text), ch.now)],
              rest + ClientHops(k, p, sender, text), t.done + [p])
    else Traffic(t.clients, rest, t.done + [p])
  }

  ghost predicate Schedule(w: World, sender: Name, text: string, t: Traffic, chs: seq<Choice>)
    decreases |chs|
  {
    chs == []
    || (&& chs[0].i < |t.flight| && Enumerates(chs[0].order, w.st)
        && Schedule(w, sender, text, Deliver(w, sender, text, t, chs[0]), chs[1..]))
  }

  function DeliverAll(w: World, sender: Name, text: string, t: Traffic, chs: seq<Choice>): Traffic
    requires Schedule(w, sender, text, t, chs)
    decreases |chs|
  {
    if chs == [] then t else DeliverAll(w, sender, text, Deliver(w, sender, text, t, chs[0]), chs[1..])
  }

  /** Member `s` enters a line of text. */
  function Start(w: World, s: User, text: string): Traffic {
    Traffic(w.clients,
            if s.addr in w.clients then Map(FromDatagram(s.addr), OriginSends(w.clients[s.addr], text)) else [], [])
  }

  // The packets as the initial views determine them

  function Hops(w: World, sender: Name, text: string, p: Packet): seq<Packet> {
    if p.dst == w.server then
      var t := Targets(w.Channel(), p.src, sender);
      Map(FromAddr(w.server), if t.Some? then t.value else [])
    else if p.dst in w.clients then ClientHops(w.clients[p.dst], p, sender, text)
    else []
  }

  function Next(w: World, sender: Name, text: string): Packet -> seq<Packet> {
    (p: Packet) => Hops(w, sender, text, p)
  }

  ghost predicate RelayAt(c: ChannelState, a: Addr) {
    exists r :: r in c.users && c.relay == Some(r.name) && r.addr == a
  }

  /** Server-relayed origin, relay, mirror, leaf: each stage begets only later ones. */
  ghost function StageOf(w: World, p: Packet): nat {
    if p.dst == w.server then (if RelayAt(w.Channel(), p.src) then 1 else 3)
    else if RelayAt(w.Channel(), p.dst) then 2 else 0
  }

  ghost function Stage(w: World): Packet -> nat {
    (p: Packet) => StageOf(w, p)
  }

  ghost predicate OnPath(w: World, s: User, p: Packet) {
    if p.dst == w.server then RelayAt(w.Channel(), p.src) || (p.src == s.addr && s.needsServerRelay)
    else exists v :: v in w.Channel().users && v.addr == p.dst && v.name != s.name
  }

  /** The packets a message of `s` may consist of: none of them goes to `s`. */
  ghost function OnItsWay(w: World, s: User): Packet -> bool {
    (p: Packet) => OnPath(w, s, p)
  }

  /** Every datagram that stands for a packet of `s`'s message carries exactly that
      message: what `s` sends, and what any client forwards. */
  lemma SameMessage(w: World, s: User, text: string, a: Addr, src: Addr, d: Datagram)
    requires Calm(w) && s in w.Channel().users
    requires || (s.addr in w.clients && d in OriginSends(w.clients[s.addr], text))
             || (a in w.clients && d in IncomingSends(w.clients[a], src, Data(s.name, text)))
    ensures d.lines == [Data(s.name, text)]
  {
    MemberOfCalm(w, s);
    WordsUnchanged(w.clients[s.addr], src, s.name, text);
    if a in w.clients { WordsUnchanged(w.clients[a], src, s.name, text); }
  }

  lemma RelayIsEligible(c: ChannelState, r: User)
    requires DistinctNames(c.users) && RelayServes(c) && r in c.users && c.relay == Some(r.name)
    ensures Eligible(r)
  {
    var x :| x in c.users && x.name == r.name && Eligible(x);
    SameName(c.users, r, x);
  }

  lemma RelayAddrUnique(c: ChannelState, r: User, u: User)
    requires DistinctNames(c.users) && DistinctAddrs(c.users)
    requires r in c.users && c.relay == Some(r.name) && u in c.users && u != r
    ensures !RelayAt(c, u.addr)
  {
    if x :| x in c.users && c.relay == Some(x.name) && x.addr == u.addr {
      SameName(c.users, x, r);
      SameAddr(c.users, x, u);
    }
  }

  lemma ServerHopTarget(w: World, s: User, text: string, p: Packet, q: Packet) returns (u: User)
    requires DistinctNames(w.Channel().users) && p.dst == w.server && q in Hops(w, s.name, text, p)
    ensures q.src == w.server && u in w.Channel().users && u.addr == q.dst && Served(w.Channel(), p.src, s.name, u)
  {
    var c := w.Channel();
    TargetsAreServed(c, p.src, s.name, q.dst);
    u :| u in c.users && u.addr == q.dst && Served(c, p.src, s.name, u);
  }

  /** The key fact: what the server mirrors for the relay never goes to the relay. */
  lemma ServerStage(w: World, s: User, text: string, p: Packet, q: Packet)
    requires Calm(w) && s in w.Channel().users && OnPath(w, s, p) && p.dst == w.server && q in Hops(w, s.name, text, p)
    ensures OnPath(w, s, q) && StageOf(w, q) < StageOf(w, p)
  {
    var c := w.Channel();
    var u := ServerHopTarget(w, s, text, p, q);
    MemberOfCalm(w, u);
    assert FromRelay(c, p.src) <==> RelayAt(c, p.src);
    if r :| r in c.users && c.relay == Some(r.name) && r.addr == p.src {
      RelayIsEligible(c, r);
      RelayAddrUnique(c, r, u);
    } else {
      assert FromServedSession(c, p.src, s.name);
    }
  }

  lemma ClientHopTarget(k: ClientState, p: Packet, sender: Name, text: string, q: Packet)
    requires q in ClientHops(k, p, sender, text)
    ensures q.src == p.dst && k.isRelay
    ensures (q.dst == k.server && k.channelHasServerRelays)
            || exists e :: e in k.peers && e.username != sender && e.addr == q.dst
  {
    var sends := IncomingSends(k, p.src, Data(sender, text));
    var i :| 0 <= i < |sends| && q == Packet(p.dst, sends[i].dst);
    var peers := Filter(PeerNotNamed(sender), k.peers);
    if i < |peers| {
      assert peers[i] in peers && peers[i].addr == q.dst;
    }
  }

  /** A peer entry of the relay `v` leads to a member that is not the relay. */
  lemma EntryLeadsOn(w: World, s: User, v: User, e: PeerInfo)
    requires Calm(w) && v in w.Channel().users && w.Channel().relay == Some(v.name)
    requires InTune(w.Channel(), w.clients, w.server, v)
    requires e in w.clients[v.addr].peers && e.username != s.name
    ensures e.addr != w.server && !RelayAt(w.Channel(), e.addr)
    ensures exists u :: u in w.Channel().users && u.addr == e.addr && u.name != s.name
  {
    var c := w.Channel();
    assert Describes(e, v, c.users);
    var u :| u in c.users && u.name != v.name && u.name == e.username && u.addr == e.addr;
    MemberOfCalm(w, u);
    RelayAddrUnique(c, v, u);
  }

  lemma ClientStage(w: World, s: User, text: string, p: Packet, q: Packet)
    requires Calm(w) && s in w.Channel().users && OnPath(w, s, p) && p.dst != w.server && q in Hops(w, s.name, text, p)
    ensures OnPath(w, s, q) && StageOf(w, q) < StageOf(w, p)
  {
    var v :| v in w.Channel().users && v.addr == p.dst && v.name != s.name;
    MemberOfCalm(w, v);
    var k := w.clients[v.addr];
    ClientHopTarget(k, p, s.name, text, q);
    assert RelayAt(w.Channel(), v.addr);
    if q.dst != w.server {
      var e :| e in k.peers && e.username != s.name && e.addr == q.dst;
      EntryLeadsOn(w, s, v, e);
    }
  }

  lemma HopDescends(w: World, s: User, text: string, p: Packet, q: Packet)
    requires Calm(w) && s in w.Channel().users && OnItsWay(w, s)(p) && q in Next(w, s.name, text)(p)
    ensures OnItsWay(w, s)(q) && Stage(w)(q) < Stage(w)(p)
  {
    if p.dst == w.server { ServerStage(w, s, text, p, q); } else { ClientStage(w, s, text, p, q); }
  }

  lemma MessageDescends(w: World, s: User, text: string)
    requires Calm(w) && s in w.Channel().users
    ensures Descends(Next(w, s.name, text), OnItsWay(w, s), Stage(w))
  {
    var next, ok, rank := Next(w, s.name, text), OnItsWay(w, s), Stage(w);
    var p, q := Climb(next, ok, rank);
    if ok(p) && q in next(p) {
      HopDescends(w, s, text, p, q);
    }
  }
}
