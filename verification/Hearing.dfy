/** A round of notices delivered to all clients of a channel. */
module Hearing {
  import opened Agreement
  import opened ClientSteps
  import opened Structures
  import opened Views

  /** Every client hears what is addressed to it. */
  function HearAll(clients: map<Addr, ClientState>, sent: seq<Datagram>, now: Time): map<Addr, ClientState> {
    map a | a in clients :: Hear(clients[a], Inbox(a, sent), now)
  }

  /** Each member of the address `d` goes to may be told its lines. */
  ghost predicate SoundFor(c: ChannelState, d: Datagram) {
    forall u, l :: u in c.users && u.addr == d.dst && l in d.lines ==> Sound(c, u, l)
  }

  ghost predicate AllSound(c: ChannelState, sent: seq<Datagram>) {
    forall d :: d in sent ==> SoundFor(c, d)
  }

  lemma InboxSound(c: ChannelState, u: User, sent: seq<Datagram>)
    requires AllSound(c, sent) && u in c.users
    ensures forall l :: l in Inbox(u.addr, sent) ==> Sound(c, u, l)
  {
    forall l | l in Inbox(u.addr, sent) ensures Sound(c, u, l) {
      InboxHas(u.addr, sent, l);
      var d :| d in sent && d.dst == u.addr && l in d.lines;
      assert SoundFor(c, d);
    }
  }

  lemma Received(a: Addr, sent: seq<Datagram>, d: Datagram, l: Line)
    requires d in sent && d.dst == a && l in d.lines
    ensures l in Inbox(a, sent)
  {
    InboxHas(a, sent, l);
  }

  /** Member `u` has a client that will have put right what it believes of `c` once it
      has heard its part of `sent`. */
  ghost predicate Recovering(c: ChannelState, clients: map<Addr, ClientState>, server: Addr, sent: seq<Datagram>,
                             u: User) {
    && u.addr != server && u.addr in clients && clients[u.addr].server == server
    && Settling(c, u, clients[u.addr], Inbox(u.addr, sent))
  }

  ghost predicate AllRecover(c: ChannelState, clients: map<Addr, ClientState>, server: Addr, sent: seq<Datagram>) {
    forall u {:trigger Recovering(c, clients, server, sent, u)} :: u in c.users
        ==> Recovering(c, clients, server, sent, u)
  }

  /** What client of `u` is like once `sent` is delivered. */
  ghost predicate InformedBy(c: ChannelState, clients: map<Addr, ClientState>, sent: seq<Datagram>, now: Time, u: User)
    requires u.addr in clients
  {
    Informed(c, u, Hear(clients[u.addr], Inbox(u.addr, sent), now))
  }

  /** What each member hears of `sent` is fine. */
  ghost predicate AllFine(c: ChannelState, sent: seq<Datagram>) {
    forall u :: u in c.users ==> Fine(c, u, Inbox(u.addr, sent))
  }

  lemma SoundSentFine(c: ChannelState, sent: seq<Datagram>)
    requires AllSound(c, sent)
    ensures AllFine(c, sent)
  {
    forall u | u in c.users ensures Fine(c, u, Inbox(u.addr, sent)) {
      InboxSound(c, u, sent);
      SoundIsFine(c, u, Inbox(u.addr, sent));
    }
  }

  /** Agreement after a round of notices. */
  lemma AgreedAfter(c: ChannelState, clients: map<Addr, ClientState>, server: Addr, sent: seq<Datagram>, now: Time)
    requires AllRecover(c, clients, server, sent) && AllFine(c, sent)
    requires forall u :: u in c.users ==> u.addr in clients && InformedBy(c, clients, sent, now, u)
    ensures Agreed(c, HearAll(clients, sent, now), server)
  {
    forall u | u in c.users ensures InTune(c, HearAll(clients, sent, now), server, u) {
      assert Recovering(c, clients, server, sent, u);
      HearSettles(c, u, clients[u.addr], Inbox(u.addr, sent), now);
      assert InformedBy(c, clients, sent, now, u);
    }
  }

  // What clients know by name and address

  /** A truthful client that knows a member's address lists the member there. */
  lemma KnownIsListed(c: ChannelState, u: User, k: ClientState, v: User)
    requires Truthful(c, u, k) && DistinctAddrs(c.users) && v in c.users && Knows(k, v.addr)
    ensures Lists(k, v.name, v.addr)
  {
    var p :| p in k.peers && p.addr == v.addr;
    assert Describes(p, u, c.users);
    var x :| x in c.users && x.name == p.username && x.addr == p.addr;
    SameAddr(c.users, x, v);
  }

  /** Whoever `lines` introduce is a user of `users`, by name and address. */
  ghost predicate IntroducesOnly(users: seq<User>, lines: seq<Line>) {
    forall l :: l in lines && l.ModeDirect? ==> exists x :: x in users && x.name == l.name && x.addr == l.addr
  }

  /** Nobody is confused with a user of the channel `b` that was. */
  lemma NobodyElse(b: ChannelState, u: User, k: ClientState, lines: seq<Line>, v: User)
    requires Truthful(b, u, k) && DistinctAddrs(b.users) && v in b.users && IntroducesOnly(b.users, lines)
    ensures NobodyElseAt(k, lines, v.name, v.addr)
  {
    forall p | p in k.peers && p.addr == v.addr ensures p.username == v.name {
      assert Describes(p, u, b.users);
      var x :| x in b.users && x.name == p.username && x.addr == p.addr;
      SameAddr(b.users, x, v);
    }
    forall l | l in lines && l.ModeDirect? && l.addr == v.addr ensures l.name == v.name {
      var x :| x in b.users && x.name == l.name && x.addr == l.addr;
      SameAddr(b.users, x, v);
    }
  }

  lemma SoundIntroduces(c: ChannelState, u: User, lines: seq<Line>, users: seq<User>)
    requires (forall l :: l in lines ==> Sound(c, u, l)) && forall v :: v in c.users ==> v in users
    ensures IntroducesOnly(users, lines)
  {
    forall l | l in lines && l.ModeDirect? ensures exists x :: x in users && x.name == l.name && x.addr == l.addr {
      assert Sound(c, u, l);
    }
  }

  /** Members stay listed through fine lines. */
  lemma StaysListed(c: ChannelState, u: User, k: ClientState, lines: seq<Line>, now: Time, v: User)
    requires Lists(k, v.name, v.addr) && v in c.users && Fine(c, u, lines)
    ensures Lists(Hear(k, lines, now), v.name, v.addr)
  {
    FineKeepsMembers(c, u, lines, v);
    HearKeepsListed(k, lines, now, v.name, v.addr);
  }

  /** A member introduced among fine lines ends up listed. */
  lemma BecomesListed(b: ChannelState, c: ChannelState, u: User, k: ClientState, lines: seq<Line>, now: Time, v: User)
    requires Truthful(b, u, k) && DistinctAddrs(b.users) && v in b.users && IntroducesOnly(b.users, lines)
    requires Fine(c, u, lines) && v in c.users && v.name != u.name && ModeDirect(v.name, v.addr) in lines
    ensures Lists(Hear(k, lines, now), v.name, v.addr)
  {
    NobodyElse(b, u, k, lines, v);
    FineKeepsMembers(c, u, lines, v);
    HearDirect(k, lines, now, v.name, v.addr);
  }
}
