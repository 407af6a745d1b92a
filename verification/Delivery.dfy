/** The theorem about one DATA message in a working channel. */
module Delivery {
  import opened Agreement
  import opened Cascade
  import opened ClientSteps
  import opened Fates
  import opened Routing
  import opened Seqs
  import opened Structures
  import opened Wrappers

  const STAGES := 4

  /** Everything that will be delivered because of the message. */
  function Fated(w: World, s: User, text: string): multiset<Packet> {
    FateAll(Next(w, s.name, text), Start(w, s, text).flight, STAGES)
  }

  // The traffic follows the initial views

  ghost predicate SameViews(w: World, clients: map<Addr, ClientState>) {
    clients.Keys == w.clients.Keys && forall a :: a in w.clients ==> SameView(w.clients[a], clients[a])
  }

  ghost predicate AllOnTheWay(w: World, s: User, flight: seq<Packet>) {
    forall p :: p in flight ==> OnItsWay(w, s)(p) && Stage(w)(p) < STAGES
  }

  ghost predicate Tracks(w: World, s: User, t: Traffic) {
    SameViews(w, t.clients) && AllOnTheWay(w, s, t.flight)
  }

  lemma RouteIsHops(w: World, s: User, text: string, p: Packet, order: seq<(string, string)>)
    requires Calm(w) && s in w.Channel().users && OnPath(w, s, p) && p.dst == w.server && Enumerates(order, w.st)
    ensures ServerHops(w, order, s.name, p.src) == Hops(w, s.name, text, p)
  {
    var u :| u in w.Channel().users && u.addr == p.src;
    MemberOfCalm(w, u);
    RouteIgnoresOrder(w.st, order, w.sid, w.cname, p.src, s.name);
  }

  lemma DeliverKeepsViews(w: World, sender: Name, text: string, t: Traffic, ch: Choice)
    requires SameViews(w, t.clients) && ch.i < |t.flight|
    ensures SameViews(w, Deliver(w, sender, text, t, ch).clients)
  {
    var p := t.flight[ch.i];
    if p.dst in t.clients {
      DataKeepsView(t.clients[p.dst], p.src, sender, text, ch.now);
    }
  }

  /** A delivery in the real traffic is one in the cascade the initial views determine. */
  lemma DeliverFollows(w: World, s: User, text: string, t: Traffic, ch: Choice)
    requires Calm(w) && s in w.Channel().users && SameViews(w, t.clients)
    requires ch.i < |t.flight| && Enumerates(ch.order, w.st) && OnPath(w, s, t.flight[ch.i])
    ensures Deliver(w, s.name, text, t, ch).flight == FlightAfter(Next(w, s.name, text), t.flight, ch.i)
    ensures Deliver(w, s.name, text, t, ch).done == t.done + [t.flight[ch.i]]
  {
    var p := t.flight[ch.i];
    if p.dst == w.server {
      RouteIsHops(w, s, text, p, ch.order);
    } else if p.dst in w.clients {
      SameViewSameSends(w.clients[p.dst], t.clients[p.dst], p.src, s.name, text);
    }
  }

  /** One delivery: delivered plus fated stays the same. */
  lemma DeliverConserves(w: World, s: User, text: string, t: Traffic, ch: Choice)
    requires Calm(w) && s in w.Channel().users && Tracks(w, s, t)
    requires ch.i < |t.flight| && Enumerates(ch.order, w.st)
    ensures var e, next := Deliver(w, s.name, text, t, ch), Next(w, s.name, text);
            && Tracks(w, s, e) && |e.done| == |t.done| + 1
            && multiset(e.done) + FateAll(next, e.flight, STAGES) == multiset(t.done) + FateAll(next, t.flight, STAGES)
  {
    var p, next := t.flight[ch.i], Next(w, s.name, text);
    assert p in t.flight && OnItsWay(w, s)(p);
    DeliverKeepsViews(w, s.name, text, t, ch);
    DeliverFollows(w, s, text, t, ch);
    MessageDescends(w, s, text);
    Conservation(next, OnItsWay(w, s), Stage(w), t.flight, ch.i, STAGES);
    assert multiset(t.done + [p]) == multiset(t.done) + multiset{p};
  }

  /** Delivered plus fated is the same after any number of deliveries in any order. */
  lemma {:induction false} ScheduleConserves(w: World, s: User, text: string, t: Traffic, chs: seq<Choice>)
    requires Calm(w) && s in w.Channel().users && Tracks(w, s, t) && Schedule(w, s.name, text, t, chs)
    ensures var e, next := DeliverAll(w, s.name, text, t, chs), Next(w, s.name, text);
            && Tracks(w, s, e) && |e.done| == |t.done| + |chs|
            && multiset(e.done) + FateAll(next, e.flight, STAGES) == multiset(t.done) + FateAll(next, t.flight, STAGES)
    decreases |chs|
  {
    if chs != [] {
      DeliverConserves(w, s, text, t, chs[0]);
      ScheduleConserves(w, s, text, Deliver(w, s.name, text, t, chs[0]), chs[1..]);
    }
  }

  lemma OriginOnPath(w: World, s: User, text: string, p: Packet)
    requires Calm(w) && s in w.Channel().users && p in Start(w, s, text).flight
    ensures OnPath(w, s, p)
  {
    MemberOfCalm(w, s);
    var k := w.clients[s.addr];
    var sends := OriginSends(k, text);
    var i :| 0 <= i < |sends| && p == Packet(s.addr, sends[i].dst);
    var peers := Filter(PeerOnDirect(), k.peers);
    if !k.sendViaServer {
      if i < |peers| {
        assert peers[i] in peers && Describes(peers[i], s, w.Channel().users);
        var v :| v in w.Channel().users && v.name != s.name && v.addr == p.dst;
        MemberOfCalm(w, v);
      } else {
        assert RelayAt(w.Channel(), s.addr);
      }
    }
  }

  lemma StartTracks(w: World, s: User, text: string)
    requires Calm(w) && s in w.Channel().users
    ensures Tracks(w, s, Start(w, s, text))
  {
    forall p | p in Start(w, s, text).flight ensures OnItsWay(w, s)(p) && Stage(w)(p) < STAGES {
      OriginOnPath(w, s, text, p);
    }
  }

  // Who is reached

  lemma OriginReaches(w: World, s: User, text: string)
    requires s.addr in w.clients
    ensures var k, flight := w.clients[s.addr], Start(w, s, text).flight;
            && (k.sendViaServer ==> Packet(s.addr, k.server) in flight)
            && (!k.sendViaServer ==> forall e :: e in k.peers && !e.useServerRelay ==> Packet(s.addr, e.addr) in flight)
            && (!k.sendViaServer && k.isRelay && k.channelHasServerRelays ==> Packet(s.addr, k.server) in flight)
  {
    var k := w.clients[s.addr];
    var l, sends := Data(k.me, text), OriginSends(k, text);
    if k.sendViaServer {
      MapHas(FromDatagram(s.addr), sends, sends[0]);
    } else {
      var peers := Filter(PeerOnDirect(), k.peers);
      forall e | e in k.peers && !e.useServerRelay ensures Packet(s.addr, e.addr) in Start(w, s, text).flight {
        MapHas(Relaying(l), peers, e);
        MapHas(FromDatagram(s.addr), sends, Datagram(e.addr, [l]));
      }
      if k.isRelay && k.channelHasServerRelays {
        MapHas(FromDatagram(s.addr), sends, sends[|sends| - 1]);
      }
    }
  }

  lemma RelayReaches(k: ClientState, p: Packet, sender: Name, text: string)
    requires k.isRelay
    ensures forall e :: e in k.peers && e.username != sender ==> Packet(p.dst, e.addr) in ClientHops(k, p, sender, text)
    ensures k.channelHasServerRelays ==> Packet(p.dst, k.server) in ClientHops(k, p, sender, text)
  {
    var l := Data(sender, text);
    var sends := IncomingSends(k, p.src, l);
    forall e | e in k.peers && e.username != sender ensures Packet(p.dst, e.addr) in ClientHops(k, p, sender, text) {
      MapHas(Relaying(l), Filter(PeerNotNamed(sender), k.peers), e);
      MapHas(FromDatagram(p.dst), sends, Datagram(e.addr, [l]));
    }
    if k.channelHasServerRelays {
      MapHas(FromDatagram(p.dst), sends, sends[|sends| - 1]);
    }
  }

  lemma ServerReaches(w: World, s: User, text: string, p: Packet, v: User)
    requires DistinctNames(w.Channel().users) && p.dst == w.server && v in w.Channel().users
    requires Served(w.Channel(), p.src, s.name, v)
    ensures Packet(w.server, v.addr) in Hops(w, s.name, text, p)
  {
    TargetsAreServed(w.Channel(), p.src, s.name, v.addr);
    MapHas(FromAddr(w.server), Targets(w.Channel(), p.src, s.name).value, v.addr);
  }

  /** What an entry a client has for a member's address must say. */
  lemma EntryOf(w: World, u: User, v: User) returns (e: PeerInfo)
    requires Calm(w) && u in w.Channel().users && v in w.Channel().users
    requires InTune(w.Channel(), w.clients, w.server, u) && Knows(w.clients[u.addr], v.addr)
    ensures e in w.clients[u.addr].peers && e.addr == v.addr && e.username == v.name
    ensures Eligible(v) ==> !e.useServerRelay
  {
    var k := w.clients[u.addr];
    e :| e in k.peers && e.addr == v.addr;
    assert Describes(e, u, w.Channel().users);
    var x :| x in w.Channel().users && x.name == e.username && x.addr == e.addr
        && (e.useServerRelay ==> x.needsServerRelay);
    SameAddr(w.Channel().users, x, v);
  }

  ghost predicate Reached(w: World, s: User, text: string, v: User) {
    exists p :: p in Fated(w, s, text) && p.dst == v.addr
  }

  lemma ReachedAtOnce(w: World, s: User, text: string, v: User, p: Packet)
    requires p in Start(w, s, text).flight && p.dst == v.addr
    ensures Reached(w, s, text, v)
  {
    FateIncludes(Next(w, s.name, text), Start(w, s, text).flight, p, STAGES);
  }

  lemma ReachedInTwo(w: World, s: User, text: string, v: User, p: Packet, q: Packet)
    requires Calm(w) && s in w.Channel().users && p in Start(w, s, text).flight
    requires q in Hops(w, s.name, text, p) && q.dst == v.addr
    ensures Reached(w, s, text, v)
  {
    var next, flight := Next(w, s.name, text), Start(w, s, text).flight;
    MessageDescends(w, s, text);
    StartTracks(w, s, text);
    FateFollows(next, OnItsWay(w, s), Stage(w), flight, p, STAGES);
    FateIncludes(next, next(p), q, STAGES);
  }

  lemma ReachedInThree(w: World, s: User, text: string, v: User, p: Packet, q: Packet, r: Packet)
    requires Calm(w) && s in w.Channel().users && p in Start(w, s, text).flight
    requires q in Hops(w, s.name, text, p) && r in Hops(w, s.name, text, q) && r.dst == v.addr
    ensures Reached(w, s, text, v)
  {
    var next, flight := Next(w, s.name, text), Start(w, s, text).flight;
    MessageDescends(w, s, text);
    StartTracks(w, s, text);
    assert OnItsWay(w, s)(p);
    FateFollows(next, OnItsWay(w, s), Stage(w), flight, p, STAGES);
    FateFollows(next, OnItsWay(w, s), Stage(w), next(p), q, STAGES);
    FateIncludes(next, next(q), r, STAGES);
  }

  /** A sender that needs the server reaches everyone through it. */
  lemma ServedSenderReaches(w: World, s: User, text: string, v: User)
    requires Calm(w) && s in w.Channel().users && v in w.Channel().users && v != s && s.needsServerRelay
    ensures Reached(w, s, text, v)
  {
    var c, p := w.Channel(), Packet(s.addr, w.server);
    MemberOfCalm(w, s);
    OriginReaches(w, s, text);
    if v.addr == s.addr { SameAddr(c.users, v, s); }
    if r :| r in c.users && c.relay == Some(r.name) && r.addr == s.addr {
      SameAddr(c.users, r, s);
      RelayIsEligible(c, r);
    }
    assert !FromRelay(c, s.addr) && FromServedSession(c, s.addr, s.name);
    ServerReaches(w, s, text, p, v);
    ReachedInTwo(w, s, text, v, p, Packet(w.server, v.addr));
  }

  /** The relay reaches eligible members itself and the others through the server. */
  lemma RelaySenderReaches(w: World, s: User, text: string, v: User)
    requires Calm(w) && s in w.Channel().users && v in w.Channel().users && v != s
    requires w.Channel().relay == Some(s.name)
    ensures Reached(w, s, text, v)
  {
    var c := w.Channel();
    RelayIsEligible(c, s);
    MemberOfCalm(w, s);
    if v.name == s.name { SameName(c.users, v, s); }
    OriginReaches(w, s, text);
    if Eligible(v) {
      var e := EntryOf(w, s, v);
      ReachedAtOnce(w, s, text, v, Packet(s.addr, v.addr));
    } else {
      var p := Packet(s.addr, w.server);
      assert FromRelay(c, s.addr);
      ServerReaches(w, s, text, p, v);
      ReachedInTwo(w, s, text, v, p, Packet(w.server, v.addr));
    }
  }

  /** A direct sender reaches the relay, and the relay everyone else. */
  lemma DirectSenderReaches(w: World, s: User, text: string, v: User, r: User)
    requires Calm(w) && s in w.Channel().users && v in w.Channel().users && v != s && Eligible(s)
    requires r in w.Channel().users && w.Channel().relay == Some(r.name) && r != s
    ensures Reached(w, s, text, v)
  {
    MemberOfCalm(w, s);
    MemberOfCalm(w, r);
    var c, k := w.Channel(), w.clients[r.addr];
    RelayIsEligible(c, r);
    if r.name == s.name { SameName(c.users, r, s); }
    if v.name == s.name { SameName(c.users, v, s); }
    OriginReaches(w, s, text);
    var e := EntryOf(w, s, r);
    var p := Packet(s.addr, r.addr);
    if v == r {
      ReachedAtOnce(w, s, text, v, p);
    } else {
      if v.name == r.name { SameName(c.users, v, r); }
      RelayReaches(k, p, s.name, text);
      if Eligible(v) {
        var f := EntryOf(w, r, v);
        ReachedInTwo(w, s, text, v, p, Packet(r.addr, v.addr));
      } else {
        var q := Packet(r.addr, w.server);
        assert FromRelay(c, r.addr);
        ServerReaches(w, s, text, q, v);
        ReachedInThree(w, s, text, v, p, q, Packet(w.server, v.addr));
      }
    }
  }

  lemma EveryoneReached(w: World, s: User, text: string, v: User)
    requires Calm(w) && s in w.Channel().users && v in w.Channel().users && v != s
    ensures Reached(w, s, text, v)
  {
    var c := w.Channel();
    if s.needsServerRelay {
      ServedSenderReaches(w, s, text, v);
    } else {
      var r :| r in c.users && c.relay == Some(r.name) && Eligible(r);
      if r == s { RelaySenderReaches(w, s, text, v); } else { DirectSenderReaches(w, s, text, v, r); }
    }
  }

  lemma FateEmpty(next: Packet -> seq<Packet>, flight: seq<Packet>)
    ensures |FateAll(next, flight, STAGES)| == 0 <==> flight == []
  {
    if flight != [] {
      FateIncludes(next, flight, flight[0], STAGES);
    }
  }

  /** In a working channel of any size, for any sender and under every schedule:
      the message takes exactly as many deliveries as it is fated to (so it ends);
      once nothing is in flight the same packets have been delivered whatever the
      order, and every other member has the message; at no time has it gone back to
      its sender, or to anyone but the server and other members. */
  lemma MessageDelivered(w: World, s: User, text: string, chs: seq<Choice>)
    requires Calm(w) && s in w.Channel().users && Schedule(w, s.name, text, Start(w, s, text), chs)
    ensures var e := DeliverAll(w, s.name, text, Start(w, s, text), chs);
            && |chs| == |e.done| <= |Fated(w, s, text)|
            && (e.flight == [] <==> |chs| == |Fated(w, s, text)|)
            && (e.flight == [] ==> multiset(e.done) == Fated(w, s, text))
            && (e.flight == [] ==>
                  forall v :: v in w.Channel().users && v != s ==> exists p :: p in e.done && p.dst == v.addr)
            && (forall p :: p in e.done ==> p.dst != s.addr)
            && (forall p :: p in e.done && p.dst != w.server ==>
                  exists v :: v in w.Channel().users && v.name != s.name && v.addr == p.dst)
  {
    var t, next := Start(w, s, text), Next(w, s.name, text);
    var e := DeliverAll(w, s.name, text, t, chs);
    StartTracks(w, s, text);
    ScheduleConserves(w, s, text, t, chs);
    MessageDescends(w, s, text);
    FateIsOk(next, OnItsWay(w, s), Stage(w), t.flight, STAGES);
    FateEmpty(next, e.flight);
    assert multiset(e.done) + FateAll(next, e.flight, STAGES) == Fated(w, s, text);
    forall p | p in e.done ensures OnPath(w, s, p) && p.dst != s.addr {
      assert p in multiset(e.done) && p in Fated(w, s, text) && OnItsWay(w, s)(p);
      NotTo(w, s, p);
    }
    if e.flight == [] {
      forall v | v in w.Channel().users && v != s ensures exists p :: p in e.done && p.dst == v.addr {
        EveryoneReached(w, s, text, v);
        var p :| p in Fated(w, s, text) && p.dst == v.addr;
        assert p in multiset(e.done);
      }
    }
  }

  lemma NotTo(w: World, s: User, p: Packet)
    requires Calm(w) && s in w.Channel().users && OnPath(w, s, p)
    ensures p.dst != s.addr
  {
    if p.dst != w.server {
      var v :| v in w.Channel().users && v.addr == p.dst && v.name != s.name;
      if v.addr == s.addr { SameAddr(w.Channel().users, v, s); }
    } else {
      MemberOfCalm(w, s);
    }
  }
}
