/** How control lines from the server move a client towards agreement. */
module Views {
  import opened Agreement
  import opened ClientSteps
  import opened Seqs
  import opened Structures
  import opened Wrappers

  /** The lines of the datagrams addressed to `a`, in sending order. */
  function Inbox(a: Addr, sent: seq<Datagram>): seq<Line> { FlatMap(LinesTo(a), sent) }

  function LinesTo(a: Addr): Datagram -> seq<Line> { (d: Datagram) => if d.dst == a then d.lines else [] }

  /** A client hears one-line datagrams from the server one after the other. */
  function Hear(k: ClientState, lines: seq<Line>, now: Time): ClientState
    decreases |lines|
  {
    if lines == [] then k else Hear(FromServer(k, lines[0], now), lines[1..], now)
  }

  lemma {:induction false} HearAppend(k: ClientState, x: seq<Line>, y: seq<Line>, now: Time)
    ensures Hear(k, x + y, now) == Hear(Hear(k, x, now), y, now)
    decreases |x|
  {
    if x == [] {
      assert x + y == y;
    } else {
      assert (x + y)[0] == x[0] && (x + y)[1..] == x[1..] + y;
      HearAppend(FromServer(k, x[0], now), x[1..], y, now);
    }
  }

  /** A datagram whose lines can be heard one after the other: MODE RELAY, if it is there, is alone. */
  predicate OnePass(lines: seq<Line>) {
    |lines| <= 1 || ModeRelay !in lines
  }

  lemma InboxHas(a: Addr, sent: seq<Datagram>, l: Line)
    ensures l in Inbox(a, sent) <==> exists d :: d in sent && d.dst == a && l in d.lines
  {
    FlatMapMembers(LinesTo(a), sent);
  }

  // Nothing wrong is believed

  /** In channel `c`, member `u` may be told `l`. */
  ghost predicate Sound(c: ChannelState, u: User, l: Line) {
    match l
    case ModeRelay => c.relay == Some(u.name)
    case ModeDirect(name, addr) => exists v :: v in c.users && v.name == name && v.addr == addr && v.name != u.name
    case ModeServerRelay(name) =>
      if name == u.name then u.needsServerRelay else forall v :: v in c.users && v.name == name ==> v.needsServerRelay
    case UserLeft(name, _) => forall v :: v in c.users ==> v.name != name
    case Welcome(_, _) => true
    case Ping => true
    case _ => false
  }

  ghost predicate LeftIn(lines: seq<Line>, name: Name) {
    exists l :: l in lines && l.UserLeft? && l.name == name
  }

  /** The only thing client `k` of member `u` has wrong is that it lists users who have
      left, and it is about to hear of each of them. */
  ghost predicate Settling(c: ChannelState, u: User, k: ClientState, lines: seq<Line>) {
    && k.me == u.name
    && (forall p :: p in k.peers ==> Describes(p, u, c.users) || LeftIn(lines, p.username))
    && (k.isRelay ==> c.relay == Some(u.name))
    && (k.sendViaServer ==> u.needsServerRelay)
  }

  lemma NoteSettles(c: ChannelState, u: User, k: ClientState, name: Name, lines: seq<Line>)
    requires Settling(c, u, k, lines) && name != u.name
    requires forall v :: v in c.users && v.name == name ==> v.needsServerRelay
    ensures Settling(c, u, NoteServerRelay(k, name), lines)
    ensures var i := Position(PeerNamed(name), k.peers);
            name != k.me && i < |k.peers| ==> NoteServerRelay(k, name).peers[i].useServerRelay
  {
    var m := NoteServerRelay(k, name);
    forall p | p in m.peers ensures Describes(p, u, c.users) || LeftIn(lines, p.username) {
      var j :| 0 <= j < |m.peers| && m.peers[j] == p;
      var q := k.peers[j];
      assert q in k.peers && p.username == q.username;
      if Describes(q, u, c.users) {
        var v :| v in c.users && v.name != u.name && v.name == q.username && v.addr == q.addr
                 && (q.useServerRelay ==> v.needsServerRelay);
        assert p.useServerRelay ==> v.needsServerRelay;
      }
    }
  }

  lemma AddSettles(c: ChannelState, u: User, k: ClientState, name: Name, addr: Addr, now: Time, lines: seq<Line>)
    requires Settling(c, u, k, lines)
    requires (exists v :: v in c.users && v.name == name && v.addr == addr && v.name != u.name) || LeftIn(lines, name)
    ensures Settling(c, u, AddPeer(k, name, addr, now), lines)
  {
    var m := AddPeer(k, name, addr, now);
    forall p | p in m.peers ensures Describes(p, u, c.users) || LeftIn(lines, p.username) {
      if p !in k.peers {
        assert p == NewPeer(name, addr, now);
      }
    }
  }

  /** `l` introduces someone whose departure is among the lines that follow. */
  ghost predicate PassingBy(l: Line, rest: seq<Line>) {
    l.ModeDirect? && LeftIn(rest, l.name)
  }

  /** Every line is sound, or introduces someone who is about to leave again. */
  ghost predicate Fine(c: ChannelState, u: User, lines: seq<Line>)
    decreases |lines|
  {
    lines == [] || ((Sound(c, u, lines[0]) || PassingBy(lines[0], lines[1..])) && Fine(c, u, lines[1..]))
  }

  lemma LeftInMore(more: seq<Line>, lines: seq<Line>, name: Name)
    requires LeftIn(lines, name)
    ensures LeftIn(more + lines, name) && LeftIn(lines + more, name)
  {
    var l :| l in lines && l.UserLeft? && l.name == name;
    assert l in more + lines && l in lines + more;
  }

  lemma {:induction false} FineAppend(c: ChannelState, u: User, x: seq<Line>, y: seq<Line>)
    requires Fine(c, u, y) && forall l :: l in x ==> Sound(c, u, l) || PassingBy(l, y)
    ensures Fine(c, u, x + y)
    decreases |x|
  {
    if x == [] {
      assert x + y == y;
    } else {
      assert (x + y)[0] == x[0] && (x + y)[1..] == x[1..] + y && x[0] in x;
      assert forall l :: l in x[1..] ==> l in x;
      FineAppend(c, u, x[1..], y);
      if PassingBy(x[0], y) {
        LeftInMore(x[1..], y, x[0].name);
      }
    }
  }

  lemma SoundIsFine(c: ChannelState, u: User, lines: seq<Line>)
    requires forall l :: l in lines ==> Sound(c, u, l)
    ensures Fine(c, u, lines)
  {
    FineAppend(c, u, lines, []);
    assert lines + [] == lines;
  }

  /** Fine lines other than introductions are sound. */
  lemma {:induction false} FineMember(c: ChannelState, u: User, lines: seq<Line>, l: Line)
    requires Fine(c, u, lines) && l in lines && !l.ModeDirect?
    ensures Sound(c, u, l)
    decreases |lines|
  {
    if l != lines[0] {
      FineMember(c, u, lines[1..], l);
    }
  }

  /** Nobody who is a member is said to have left. */
  lemma FineKeepsMembers(c: ChannelState, u: User, lines: seq<Line>, v: User)
    requires Fine(c, u, lines) && v in c.users
    ensures !LeftIn(lines, v.name)
  {
    if l :| l in lines && l.UserLeft? && l.name == v.name {
      FineMember(c, u, lines, l);
    }
  }

  lemma RestRemembers(l: Line, rest: seq<Line>, name: Name)
    requires LeftIn([l] + rest, name) && !(l.UserLeft? && l.name == name)
    ensures LeftIn(rest, name)
  {
    var x :| x in [l] + rest && x.UserLeft? && x.name == name;
    assert x in rest;
  }

  lemma LineSettles(c: ChannelState, u: User, k: ClientState, l: Line, rest: seq<Line>, now: Time)
    requires Settling(c, u, k, [l] + rest) && (Sound(c, u, l) || PassingBy(l, rest))
    ensures Settling(c, u, FromServer(k, l, now), rest)
    ensures FromServer(k, l, now).server == k.server
  {
    if l.UserLeft? {
      LeaverForgotten(c, u, k, l, rest, now);
    } else {
      forall p | p in k.peers && !Describes(p, u, c.users) ensures LeftIn(rest, p.username) {
        RestRemembers(l, rest, p.username);
      }
      match l
      case ModeDirect(name, addr) => AddSettles(c, u, k, name, addr, now, rest);
      case ModeServerRelay(name) => if name != u.name { NoteSettles(c, u, k, name, rest); }
      case _ =>
    }
  }

  lemma LeaverForgotten(c: ChannelState, u: User, k: ClientState, l: Line, rest: seq<Line>, now: Time)
    requires Settling(c, u, k, [l] + rest) && l.UserLeft?
    ensures Settling(c, u, FromServer(k, l, now), rest)
  {
    forall p | p in FromServer(k, l, now).peers && !Describes(p, u, c.users) ensures LeftIn(rest, p.username) {
      RestRemembers(l, rest, p.username);
    }
  }

  /** A client that hears only fine lines, among them of the departure of everyone it
      wrongly lists, ends up believing nothing wrong. */
  lemma {:induction false} HearSettles(c: ChannelState, u: User, k: ClientState, lines: seq<Line>, now: Time)
    requires Settling(c, u, k, lines) && Fine(c, u, lines)
    ensures Truthful(c, u, Hear(k, lines, now))
    ensures Hear(k, lines, now).server == k.server
    decreases |lines|
  {
    if lines != [] {
      assert lines == [lines[0]] + lines[1..];
      LineSettles(c, u, k, lines[0], lines[1..], now);
      HearSettles(c, u, FromServer(k, lines[0], now), lines[1..], now);
    }
  }

  // What is known stays known

  ghost predicate Gains(k: ClientState, m: ClientState) {
    m.me == k.me && (k.isRelay ==> m.isRelay) && (k.channelHasServerRelays ==> m.channelHasServerRelays)
  }

  lemma {:induction false} HearGains(k: ClientState, lines: seq<Line>, now: Time)
    ensures Gains(k, Hear(k, lines, now))
    decreases |lines|
  {
    if lines != [] {
      LineGains(k, lines[0], now);
      HearGains(FromServer(k, lines[0], now), lines[1..], now);
    }
  }

  lemma LineGains(k: ClientState, l: Line, now: Time)
    ensures Gains(k, FromServer(k, l, now))
  {
    IncomingWays(k, k.server, l, now);
    ResponseWays(Incoming(k, k.server, l, now), l);
  }

  /** `k` lists someone of that name at that address. */
  ghost predicate Lists(k: ClientState, name: Name, addr: Addr) {
    exists p :: p in k.peers && p.username == name && p.addr == addr
  }

  lemma KeptEntries(k: ClientState, m: ClientState, name: Name, addr: Addr)
    requires Lists(k, name, addr) && |k.peers| <= |m.peers|
    requires forall j :: 0 <= j < |k.peers| ==>
               m.peers[j].addr == k.peers[j].addr && m.peers[j].username == k.peers[j].username
    ensures Lists(m, name, addr)
  {
    var p :| p in k.peers && p.username == name && p.addr == addr;
    var j :| 0 <= j < |k.peers| && k.peers[j] == p;
    assert m.peers[j] in m.peers;
  }

  // What one line does, field by field

  lemma IncomingWays(k: ClientState, src: Addr, l: Line, now: Time)
    ensures var m := Incoming(k, src, l, now);
            && m.me == k.me && m.server == k.server && m.sendViaServer == k.sendViaServer && m.paused == k.paused
            && m.isRelay == (k.isRelay || l == ModeRelay)
            && m.channelHasServerRelays
               == (k.channelHasServerRelays || (l.ModeServerRelay? && l.name != k.me && k.isRelay))
  {
  }

  lemma ResponseWays(k: ClientState, l: Line)
    ensures var m := Response(k, l);
            && m.me == k.me && m.server == k.server && m.peers == k.peers && m.isRelay == k.isRelay
            && (k.channelHasServerRelays ==> m.channelHasServerRelays)
            && m.sendViaServer == if l == ModeRelay then false else k.sendViaServer || l == ModeServerRelay(k.me)
  {
  }

  /** The same entries, by name and address. */
  ghost predicate SameEntries(x: seq<PeerInfo>, y: seq<PeerInfo>) {
    |x| == |y| && forall j :: 0 <= j < |x| ==> x[j].addr == y[j].addr && x[j].username == y[j].username
  }

  lemma NoteKeepsEntries(k: ClientState, name: Name)
    ensures SameEntries(k.peers, NoteServerRelay(k, name).peers)
  {
  }

  lemma ConnectedKeepsEntries(peers: seq<PeerInfo>, i: nat, now: Time)
    ensures SameEntries(peers, Connected(peers, i, now))
  {
  }

  lemma PongKeepsEntries(k: ClientState, src: Addr, now: Time)
    ensures SameEntries(k.peers, Incoming(k, src, Pong, now).peers)
  {
  }

  lemma IncomingKeepsEntries(k: ClientState, src: Addr, l: Line, now: Time)
    requires !l.UserLeft? && !l.ModeDirect?
    ensures SameEntries(k.peers, Incoming(k, src, l, now).peers)
  {
    match l
    case ModeServerRelay(name) => NoteKeepsEntries(k, name);
    case Pong => PongKeepsEntries(k, src, now);
    case HolePunch => ConnectedKeepsEntries(k.peers, Position(PeerAt(src), k.peers), now);
    case Data(sender, _) => ConnectedKeepsEntries(k.peers, Position(PeerNamed(sender), k.peers), now);
    case _ =>
  }

  lemma LineKeepsEntries(k: ClientState, l: Line, now: Time)
    requires !l.UserLeft?
    ensures var m := FromServer(k, l, now);
            && |k.peers| <= |m.peers|
            && forall j :: 0 <= j < |k.peers| ==>
                 m.peers[j].addr == k.peers[j].addr && m.peers[j].username == k.peers[j].username
  {
    ResponseWays(Incoming(k, k.server, l, now), l);
    if !l.ModeDirect? {
      IncomingKeepsEntries(k, k.server, l, now);
    }
  }

  /** An entry after a line was one before, by name and address, or is the one introduced. */
  lemma EntryFrom(k: ClientState, l: Line, now: Time, p: PeerInfo)
    requires p in FromServer(k, l, now).peers
    ensures (exists q :: q in k.peers && q.addr == p.addr && q.username == p.username)
            || (l.ModeDirect? && p.username == l.name && p.addr == l.addr)
  {
    var m := Incoming(k, k.server, l, now);
    ResponseWays(m, l);
    if !l.UserLeft? && !l.ModeDirect? {
      IncomingKeepsEntries(k, k.server, l, now);
      var j :| 0 <= j < |m.peers| && m.peers[j] == p;
      assert k.peers[j] in k.peers;
    }
  }

  lemma LineKeepsListed(k: ClientState, l: Line, now: Time, name: Name, addr: Addr)
    requires Lists(k, name, addr) && !(l.UserLeft? && l.name == name)
    ensures Lists(FromServer(k, l, now), name, addr)
  {
    var m := FromServer(k, l, now);
    if l.UserLeft? {
      var p :| p in k.peers && p.username == name && p.addr == addr;
      assert p in m.peers;
    } else {
      LineKeepsEntries(k, l, now);
      KeptEntries(k, m, name, addr);
    }
  }

  /** Without USER_LEFT for the name, the entry stays. */
  lemma {:induction false} HearKeepsListed(k: ClientState, lines: seq<Line>, now: Time, name: Name, addr: Addr)
    requires Lists(k, name, addr) && !LeftIn(lines, name)
    ensures Lists(Hear(k, lines, now), name, addr)
    decreases |lines|
  {
    if lines != [] {
      LineKeepsListed(k, lines[0], now, name, addr);
      assert forall l :: l in lines[1..] ==> l in lines;
      HearKeepsListed(FromServer(k, lines[0], now), lines[1..], now, name, addr);
    }
  }

  // What a line achieves

  lemma {:induction false} HearRelay(k: ClientState, lines: seq<Line>, now: Time)
    requires ModeRelay in lines
    ensures Hear(k, lines, now).isRelay
    decreases |lines|
  {
    if lines[0] == ModeRelay {
      HearGains(FromServer(k, lines[0], now), lines[1..], now);
    } else {
      HearRelay(FromServer(k, lines[0], now), lines[1..], now);
    }
  }

  /** Whoever `k` lists at `addr`, and whoever `lines` introduce there, has that name. */
  ghost predicate NobodyElseAt(k: ClientState, lines: seq<Line>, name: Name, addr: Addr) {
    && (forall p :: p in k.peers && p.addr == addr ==> p.username == name)
    && (forall l :: l in lines && l.ModeDirect? && l.addr == addr ==> l.name == name)
  }

  lemma StillNobodyElse(k: ClientState, l: Line, rest: seq<Line>, now: Time, name: Name, addr: Addr)
    requires NobodyElseAt(k, [l] + rest, name, addr)
    ensures NobodyElseAt(FromServer(k, l, now), rest, name, addr)
  {
    assert l in [l] + rest;
    assert forall x :: x in rest ==> x in [l] + rest;
    forall p | p in FromServer(k, l, now).peers && p.addr == addr ensures p.username == name {
      EntryFrom(k, l, now, p);
    }
  }

  lemma Introduced(k: ClientState, now: Time, name: Name, addr: Addr)
    requires name != k.me && forall p :: p in k.peers && p.addr == addr ==> p.username == name
    ensures Lists(FromServer(k, ModeDirect(name, addr), now), name, addr)
  {
    var m, i := FromServer(k, ModeDirect(name, addr), now), Position(PeerAt(addr), k.peers);
    assert m.peers[i] in m.peers && m.peers[i].addr == addr;
    if i < |k.peers| {
      assert m.peers[i] in k.peers;
    }
  }

  lemma {:induction false} HearDirect(k: ClientState, lines: seq<Line>, now: Time, name: Name, addr: Addr)
    requires ModeDirect(name, addr) in lines && name != k.me && !LeftIn(lines, name)
             && NobodyElseAt(k, lines, name, addr)
    ensures Lists(Hear(k, lines, now), name, addr)
    decreases |lines|
  {
    var l, rest := lines[0], lines[1..];
    assert lines == [l] + rest;
    assert forall x :: x in rest ==> x in lines;
    if l == ModeDirect(name, addr) {
      Introduced(k, now, name, addr);
      HearKeepsListed(FromServer(k, l, now), rest, now, name, addr);
    } else {
      StillNobodyElse(k, l, rest, now, name, addr);
      HearDirect(FromServer(k, l, now), rest, now, name, addr);
    }
  }

  lemma LineServes(k: ClientState, l: Line, now: Time)
    requires l != ModeRelay
    ensures var m := FromServer(k, l, now);
            m.me == k.me && (k.sendViaServer || l == ModeServerRelay(k.me) ==> m.sendViaServer)
  {
    IncomingWays(k, k.server, l, now);
    ResponseWays(Incoming(k, k.server, l, now), l);
  }

  lemma {:induction false} HearServed(k: ClientState, lines: seq<Line>, now: Time)
    requires (k.sendViaServer || ModeServerRelay(k.me) in lines) && ModeRelay !in lines
    ensures Hear(k, lines, now).sendViaServer
    decreases |lines|
  {
    if lines != [] {
      assert lines[0] != ModeRelay && forall l :: l in lines <==> l == lines[0] || l in lines[1..];
      LineServes(k, lines[0], now);
      HearServed(FromServer(k, lines[0], now), lines[1..], now);
    }
  }

  lemma {:induction false} HearOthersServed(k: ClientState, lines: seq<Line>, now: Time, name: Name)
    requires k.isRelay && ModeServerRelay(name) in lines && name != k.me
    ensures Hear(k, lines, now).channelHasServerRelays
    decreases |lines|
  {
    var m := FromServer(k, lines[0], now);
    if lines[0] == ModeServerRelay(name) {
      HearGains(m, lines[1..], now);
    } else {
      HearOthersServed(m, lines[1..], now, name);
    }
  }
}
