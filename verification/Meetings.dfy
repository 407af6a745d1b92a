/** Whole runs of one channel with its clients: members join, leave, time out and are
    served on request, and everyone hears what the server sends. */
module Meetings {
  import opened Agreement
  import opened ChannelRounds
  import opened ChannelSteps
  import opened ClientSteps
  import opened Departures
  import opened Election
  import opened Hearing
  import opened Ints
  import opened Joining
  import opened Seqs
  import opened Structures
  import opened Sweep
  import opened Sweeps
  import opened Views
  import opened Wrappers

  datatype Meeting = Meeting(c: ChannelState, clients: map<Addr, ClientState>)

  datatype Event =
    | Join(name: Name, addr: Addr, nat_: NatKind, now: Time, freshId: u64)  // CONNECT of a new client
    | Again(name: Name, addr: Addr, nat_: NatKind, now: Time, freshId: u64) // CONNECT of a member, repeated
    | Part(name: Name, addr: Addr, now: Time)                               // DISCONNECT
    | Report(name: Name, now: Time)                                         // PEER_TIMEOUT
    | AskRelay(name: Name, now: Time)                                       // REQUEST_RELAY
    | Beat(name: Name, addr: Addr, now: Time)                               // HB
    | Answer(addr: Addr, now: Time)                                         // PONG
    | Sweep(now: Time)                                                      // the heartbeat task

  const OPENING := Meeting(DEFAULT_CHANNEL, map[])

  /** The conditions are the guards of the cases in which the server leaves its clients
      wrong; a repeated CONNECT is one whose session is present. */
  ghost predicate Allowed(m: Meeting, server: Addr, e: Event) {
    match e
    case Join(name, addr, nat_, _, _) => JoinSpares(m.c, m.clients, server, name, addr, nat_)
    case Again(name, addr, _, _, _) => HasSession(m.c, name, addr)
    case Part(name, addr, _) => DepartureSpares(m.c, m.clients, name, addr)
    case Report(name, _) => TimeoutSpares(m.c, name)
    case AskRelay(name, _) => m.c.relay != Some(name)
    case Beat(_, _, _) => true
    case Answer(_, _) => true
    case Sweep(now) => SweepSpares(m.c, m.clients, now)
  }

  /** The channel after an event. */
  function ChannelAfter(c: ChannelState, e: Event): ChannelState {
    match e
    case Join(name, addr, nat_, now, freshId) => Connect(c, name, addr, nat_, now, freshId)
    case Again(name, addr, nat_, now, freshId) => Connect(c, name, addr, nat_, now, freshId)
    case Part(name, addr, _) => Disconnect(c, name, addr)
    case Report(name, _) => DropPeer(c, name)
    case AskRelay(name, _) => Latch(c, name)
    case Beat(name, addr, now) => Refresh(c, name, addr, now)
    case Answer(addr, now) => Touch(c, addr, now)
    case Sweep(now) => SweepChannel(c, now)
  }

  /** What the server sends because of an event. */
  function NoticesOf(c: ChannelState, e: Event): seq<Datagram> {
    match e
    case Join(name, addr, nat_, now, freshId) => ConnectNotices(c, name, addr, nat_, now, freshId)
    case Again(name, addr, nat_, now, freshId) => ConnectNotices(c, name, addr, nat_, now, freshId)
    case Part(name, addr, _) => DisconnectNotices(c, name, addr)
    case Report(name, _) => Map(LeftNotice(name, UNSPECIFIED), DropPeer(c, name).users)
    case AskRelay(name, _) => Map(ServerRelayFor(name), Latch(c, name).users)
    case Beat(_, _, _) => []
    case Answer(_, _) => []
    case Sweep(now) => SweepNotices(c, now)
  }

  function Happen(m: Meeting, server: Addr, e: Event): Meeting {
    Meeting(ChannelAfter(m.c, e),
            HearAll(if e.Join? then Newcomer(m.clients, server, e.name, e.addr) else m.clients,
                    NoticesOf(m.c, e), e.now))
  }

  function After(m: Meeting, server: Addr, es: seq<Event>): Meeting
    decreases |es|
  {
    if es == [] then m else After(Happen(m, server, es[0]), server, es[1..])
  }

  ghost predicate AllAllowed(m: Meeting, server: Addr, es: seq<Event>)
    decreases |es|
  {
    es == [] || (Allowed(m, server, es[0]) && AllAllowed(Happen(m, server, es[0]), server, es[1..]))
  }

  ghost predicate Harmony(m: Meeting, server: Addr) {
    WellFormed(m.c) && Settled(m.c, m.clients, server)
  }

  // CONNECT

  /** The CONNECT of a new client keeps agreement exactly when it is allowed. */
  lemma JoinKeeps(m: Meeting, server: Addr, e: Event)
    requires Harmony(m, server) && e.Join?
    ensures Harmony(Happen(m, server, e), server) <==> Allowed(m, server, e)
  {
    JoinAgrees(m.c, m.clients, server, e.name, e.addr, e.nat_, e.now, e.freshId);
  }

  lemma WelcomeChangesNothing(clients: map<Addr, ClientState>, a: Addr, cid: u64, pid: u32, now: Time)
    ensures HearAll(clients, [Datagram(a, [Welcome(cid, pid)])], now) == clients
  {
    var sent := [Datagram(a, [Welcome(cid, pid)])];
    forall b | b in clients ensures Hear(clients[b], Inbox(b, sent), now) == clients[b] {
      WelcomeHeardBy(clients[b], sent, b, now);
    }
  }

  lemma WelcomeHeardBy(k: ClientState, sent: seq<Datagram>, b: Addr, now: Time)
    requires |sent| == 1 && |sent[0].lines| == 1 && sent[0].lines[0].Welcome?
    ensures Hear(k, Inbox(b, sent), now) == k
  {
    if sent[0].dst == b {
      assert sent[0].lines == [sent[0].lines[0]] && sent == [sent[0]];
      WelcomeHeard(k, sent, b, sent[0].lines[0].channelId, sent[0].lines[0].peerId, now);
    } else {
      assert FlatMap(LinesTo(b), sent[1..]) == [] && LinesTo(b)(sent[0]) == [];
    }
  }

  lemma SilenceChangesNothing(clients: map<Addr, ClientState>, now: Time)
    ensures HearAll(clients, [], now) == clients
  {
    forall b | b in clients ensures Hear(clients[b], Inbox(b, []), now) == clients[b] {
      assert Inbox(b, []) == [];
    }
  }

  /** A repeated CONNECT of a member keeps agreement. */
  lemma AgainKeeps(m: Meeting, server: Addr, e: Event)
    requires Harmony(m, server) && e.Again? && Allowed(m, server, e)
    ensures Harmony(Happen(m, server, e), server)
  {
    var c, b, i := m.c, WithId(m.c, e.freshId), Position(IsSession(e.name, e.addr), m.c.users);
    var v := b.users[i].(lastPong := e.now);
    WelcomeChangesNothing(m.clients, e.addr, b.channelId, c.users[i].peerId, e.now);
    SameUsersAgree(c, b, m.clients, server);
    UpdateKeeps(b, i, v);
    SameElection(b.users, i, v, b.relay);
    BeatAgrees(b, m.clients, server, i, v);
  }

  lemma SameUsersAgree(c: ChannelState, d: ChannelState, clients: map<Addr, ClientState>, server: Addr)
    requires Agreed(c, clients, server) && d.users == c.users && d.relay == c.relay
    ensures Agreed(d, clients, server)
  {
    forall u | u in d.users ensures InTune(d, clients, server, u) {
      assert InTune(c, clients, server, u);
    }
  }

  // REQUEST_RELAY

  /** `w` is `u` after the relay request for `name`. */
  ghost predicate LatchedFrom(u: User, w: User, name: Name) {
    w.name == u.name && w.addr == u.addr
    && (if u.name == name then w.needsServerRelay else w.needsServerRelay == u.needsServerRelay)
  }

  lemma LatchAt(c: ChannelState, name: Name, j: nat)
    requires DistinctNames(c.users) && j < |c.users|
    ensures |Latch(c, name).users| == |c.users| && Latch(c, name).relay == c.relay
    ensures LatchedFrom(c.users[j], Latch(c, name).users[j], name)
  {
    assert Named(name)(c.users[j]) ==> Position(Named(name), c.users) <= j;
  }

  /** The member before the latch. */
  lemma Unlatched(c: ChannelState, name: Name, w: User) returns (u: User)
    requires DistinctNames(c.users) && w in Latch(c, name).users
    ensures u in c.users && LatchedFrom(u, w, name)
  {
    var j :| 0 <= j < |c.users| && Latch(c, name).users[j] == w;
    LatchAt(c, name, j);
    u := c.users[j];
  }

  /** The member after the latch. */
  lemma Latched(c: ChannelState, name: Name, u: User) returns (w: User)
    requires DistinctNames(c.users) && u in c.users
    ensures w in Latch(c, name).users && LatchedFrom(u, w, name)
  {
    var j :| 0 <= j < |c.users| && c.users[j] == u;
    LatchAt(c, name, j);
    w := Latch(c, name).users[j];
  }

  lemma LatchKeepsDistinct(c: ChannelState, name: Name)
    ensures DistinctNames(c.users) ==> DistinctNames(Latch(c, name).users)
    ensures DistinctAddrs(c.users) ==> DistinctAddrs(Latch(c, name).users)
  {
  }

  lemma LatchTruthful(c: ChannelState, clients: map<Addr, ClientState>, server: Addr, name: Name, w: User)
    requires DistinctNames(c.users) && Agreed(c, clients, server) && w in Latch(c, name).users
    ensures w.addr in clients && w.addr != server && clients[w.addr].server == server
    ensures Truthful(Latch(c, name), w, clients[w.addr])
  {
    var u := Unlatched(c, name, w);
    assert InTune(c, clients, server, u);
    var d, k := Latch(c, name), clients[u.addr];
    forall p | p in k.peers ensures Describes(p, w, d.users) {
      assert Describes(p, u, c.users);
      var v :| v in c.users && v.name != u.name && v.name == p.username && v.addr == p.addr
          && (p.useServerRelay ==> v.needsServerRelay);
      var x := Latched(c, name, v);
    }
  }

  lemma LatchSound(c: ChannelState, name: Name)
    requires DistinctNames(c.users)
    ensures AllSound(Latch(c, name), Map(ServerRelayFor(name), Latch(c, name).users))
  {
    var d := Latch(c, name);
    forall w | w in d.users && w.name == name ensures w.needsServerRelay {
      var u := Unlatched(c, name, w);
    }
  }

  /** All a client hears of a relay request, and it does hear it. */
  lemma RequestHeard(users: seq<User>, w: User, name: Name)
    requires w in users
    ensures var lines := Inbox(w.addr, Map(ServerRelayFor(name), users));
            ModeServerRelay(name) in lines && forall l :: l in lines ==> l == ModeServerRelay(name)
  {
    var sent := Map(ServerRelayFor(name), users);
    MapHas(ServerRelayFor(name), users, w);
    Received(w.addr, sent, ServerRelayFor(name)(w), ModeServerRelay(name));
    forall l | l in Inbox(w.addr, sent) ensures l == ModeServerRelay(name) {
      InboxHas(w.addr, sent, l);
    }
  }

  /** What `w` must know after the latch it knew before. */
  lemma LatchedKnown(c: ChannelState, k: ClientState, name: Name, u: User, w: User)
    requires DistinctNames(c.users) && u in c.users && LatchedFrom(u, w, name) && Informed(c, u, k)
    ensures var d := Latch(c, name);
            && (d.relay == Some(w.name) ==>
                  forall v :: v in d.users && v.name != w.name && Eligible(v) ==> Knows(k, v.addr))
            && (Eligible(w) ==>
                  forall r :: r in d.users && d.relay == Some(r.name) && r.name != w.name ==> Knows(k, r.addr))
  {
    var d := Latch(c, name);
    assert d.relay == c.relay;
    forall v | v in d.users && v.name != w.name ensures exists x :: x in c.users && LatchedFrom(x, v, name) {
      var x := Unlatched(c, name, v);
    }
  }

  lemma LatchInformed(c: ChannelState, clients: map<Addr, ClientState>, server: Addr, name: Name, now: Time, w: User)
    requires DistinctNames(c.users) && DistinctAddrs(c.users) && Agreed(c, clients, server)
    requires c.relay != Some(name) && w in Latch(c, name).users
    requires w.addr in clients
    ensures Informed(Latch(c, name), w,
                     Hear(clients[w.addr], Inbox(w.addr, Map(ServerRelayFor(name), Latch(c, name).users)), now))
  {
    var d, k := Latch(c, name), clients[w.addr];
    var u := Unlatched(c, name, w);
    var lines := Inbox(w.addr, Map(ServerRelayFor(name), d.users));
    assert InTune(c, clients, server, u);
    RequestHeard(d.users, w, name);
    HearGains(k, lines, now);
    if w.needsServerRelay { HearServed(k, lines, now); }
    if d.relay == Some(w.name) {
      HearOthersServed(k, lines, now, name);
    }
    forall v | v in d.users && Knows(k, v.addr) ensures Knows(Hear(k, lines, now), v.addr) {
      var x := Unlatched(c, name, v);
      KnownIsListed(c, u, k, x);
      HearKeepsListed(k, lines, now, x.name, x.addr);
    }
    LatchedKnown(c, k, name, u, w);
  }

  lemma AskRelayKeeps(m: Meeting, server: Addr, e: Event)
    requires Harmony(m, server) && e.AskRelay?
    ensures Harmony(Happen(m, server, e), server) <==> Allowed(m, server, e)
  {
    LatchExact(m.c, e.name);
    if Allowed(m, server, e) {
      LatchAgrees(m, server, e);
    }
  }

  lemma LatchAgrees(m: Meeting, server: Addr, e: Event)
    requires Harmony(m, server) && e.AskRelay? && Allowed(m, server, e)
    ensures Harmony(Happen(m, server, e), server)
  {
    var d := Latch(m.c, e.name);
    LatchKeepsDistinct(m.c, e.name);
    LatchKeeps(m.c, e.name);
    LatchExact(m.c, e.name);
    LatchSound(m.c, e.name);
    var sent := Map(ServerRelayFor(e.name), d.users);
    forall w | w in d.users ensures Recovering(d, m.clients, server, sent, w) {
      LatchTruthful(m.c, m.clients, server, e.name, w);
    }
    forall w | w in d.users ensures w.addr in m.clients && InformedBy(d, m.clients, sent, e.now, w) {
      LatchTruthful(m.c, m.clients, server, e.name, w);
      LatchInformed(m.c, m.clients, server, e.name, e.now, w);
    }
    SoundSentFine(d, sent);
    AgreedAfter(d, m.clients, server, sent, e.now);
  }

  // Heartbeats and answers to pings

  lemma BeatKeeps(m: Meeting, server: Addr, e: Event)
    requires Harmony(m, server) && e.Beat?
    ensures Harmony(Happen(m, server, e), server)
  {
    SilenceChangesNothing(m.clients, e.now);
    var c, i := m.c, Position(IsSession(e.name, e.addr), m.c.users);
    if i < |c.users| {
      var v := c.users[i].(lastPong := e.now);
      UpdateKeeps(c, i, v);
      SameElection(c.users, i, v, c.relay);
      BeatAgrees(c, m.clients, server, i, v);
    }
  }

  lemma BeatAgrees(c: ChannelState, clients: map<Addr, ClientState>, server: Addr, i: nat, v: User)
    requires i < |c.users| && v == c.users[i].(lastPong := v.lastPong) && Agreed(c, clients, server)
    ensures Agreed(c.(users := c.users[i := v]), clients, server)
    ensures DistinctAddrs(c.users) ==> DistinctAddrs(c.users[i := v])
  {
    var d := c.(users := c.users[i := v]);
    forall w | w in d.users
      ensures w.addr != server && w.addr in clients && clients[w.addr].server == server
      ensures Truthful(d, w, clients[w.addr]) && Informed(d, w, clients[w.addr])
    {
      var u := Unbeaten(c.users, i, v, w);
      assert InTune(c, clients, server, u);
      BeatTruthful(c, i, v, u, w, clients[u.addr]);
      BeatInformed(c, i, v, u, w, clients[u.addr]);
    }
  }

  /** `w` is `u`, but for the time stamp. */
  ghost predicate Same(u: User, w: User) {
    w == u.(lastPong := w.lastPong)
  }

  lemma Unbeaten(users: seq<User>, i: nat, v: User, w: User) returns (u: User)
    requires i < |users| && Same(users[i], v) && w in users[i := v]
    ensures u in users && Same(u, w)
  {
    var j :| 0 <= j < |users| && users[i := v][j] == w;
    u := users[j];
  }

  lemma BeatTruthful(c: ChannelState, i: nat, v: User, u: User, w: User, k: ClientState)
    requires i < |c.users| && Same(c.users[i], v) && u in c.users && Same(u, w) && Truthful(c, u, k)
    ensures Truthful(c.(users := c.users[i := v]), w, k)
  {
    var users := c.users[i := v];
    forall p | p in k.peers ensures Describes(p, w, users) {
      assert Describes(p, u, c.users);
      var x :| x in c.users && x.name != u.name && x.name == p.username && x.addr == p.addr
          && (p.useServerRelay ==> x.needsServerRelay);
      var j :| 0 <= j < |c.users| && c.users[j] == x;
      assert users[j] in users && Same(x, users[j]);
    }
  }

  lemma BeatInformed(c: ChannelState, i: nat, v: User, u: User, w: User, k: ClientState)
    requires i < |c.users| && Same(c.users[i], v) && u in c.users && Same(u, w) && Informed(c, u, k)
    ensures Informed(c.(users := c.users[i := v]), w, k)
  {
    var users := c.users[i := v];
    forall y | y in users ensures exists x :: x in c.users && Same(x, y) {
      var x := Unbeaten(c.users, i, v, y);
    }
  }

  lemma AnswerKeeps(m: Meeting, server: Addr, e: Event)
    requires Harmony(m, server) && e.Answer?
    ensures Harmony(Happen(m, server, e), server)
  {
    SilenceChangesNothing(m.clients, e.now);
    var c, i := m.c, Position(LocatedAt(e.addr), m.c.users);
    if i < |c.users| {
      var v := c.users[i].(lastPong := e.now);
      UpdateKeeps(c, i, v);
      SameElection(c.users, i, v, c.relay);
      BeatAgrees(c, m.clients, server, i, v);
    }
  }

  // Departures

  /** DISCONNECT keeps agreement exactly when it is allowed. */
  lemma PartKeeps(m: Meeting, server: Addr, e: Event)
    requires Harmony(m, server) && e.Part?
    ensures Harmony(Happen(m, server, e), server) <==> Allowed(m, server, e)
  {
    LeaveKeeps(m.c, e.name, e.addr);
    DepartureAgrees(m.c, m.clients, server, e.name, e.addr, e.now);
  }

  /** PEER_TIMEOUT keeps agreement exactly when it is allowed. */
  lemma ReportKeeps(m: Meeting, server: Addr, e: Event)
    requires Harmony(m, server) && e.Report?
    ensures Harmony(Happen(m, server, e), server) <==> Allowed(m, server, e)
  {
    FilterStepKeeps(m.c, NotNamed(e.name));
    if TimeoutSpares(m.c, e.name) {
      TimeoutAgrees(m.c, m.clients, server, e.name, e.now);
    } else {
      TimeoutDisagrees(m.c, m.clients, server, e.name, e.now);
    }
  }

  /** A sweep keeps agreement exactly when it is allowed. */
  lemma SweepEventKeeps(m: Meeting, server: Addr, e: Event)
    requires Harmony(m, server) && e.Sweep?
    ensures Harmony(Happen(m, server, e), server) <==> Allowed(m, server, e)
  {
    SweepKeeps(m.c, e.now);
    SweepAgrees(m.c, m.clients, server, e.now);
  }

  // Whole runs

  /** An event keeps agreement if and only if it is allowed. */
  lemma EventKeeps(m: Meeting, server: Addr, e: Event)
    requires Harmony(m, server) && (e.Again? ==> HasSession(m.c, e.name, e.addr))
    ensures Harmony(Happen(m, server, e), server) <==> Allowed(m, server, e)
  {
    match e
    case Join(_, _, _, _, _) => JoinKeeps(m, server, e);
    case Again(_, _, _, _, _) => AgainKeeps(m, server, e);
    case AskRelay(_, _) => AskRelayKeeps(m, server, e);
    case Beat(_, _, _) => BeatKeeps(m, server, e);
    case Answer(_, _) => AnswerKeeps(m, server, e);
    case Part(_, _, _) => PartKeeps(m, server, e);
    case Report(_, _) => ReportKeeps(m, server, e);
    case Sweep(_) => SweepEventKeeps(m, server, e);
  }

  lemma OpeningInHarmony(server: Addr)
    ensures Harmony(OPENING, server)
  {
    ExactIsPick([], None);
  }

  /** View agreement over whole runs: every allowed run from the empty channel keeps
      the relay exact and the server and all clients of one mind. */
  lemma {:induction false} RunKeepsHarmony(m: Meeting, server: Addr, es: seq<Event>)
    requires Harmony(m, server) && AllAllowed(m, server, es)
    ensures Harmony(After(m, server, es), server)
    decreases |es|
  {
    if es != [] {
      EventKeeps(m, server, es[0]);
      RunKeepsHarmony(Happen(m, server, es[0]), server, es[1..]);
    }
  }

  /** Every repeated CONNECT of a run is one of a session present at its time. */
  ghost predicate AllTimely(m: Meeting, server: Addr, es: seq<Event>)
    decreases |es|
  {
    es == []
    || ((es[0].Again? ==> HasSession(m.c, es[0].name, es[0].addr))
        && AllTimely(Happen(m, server, es[0]), server, es[1..]))
  }

  /** There is harmony after every event of a run. */
  ghost predicate AllInHarmony(m: Meeting, server: Addr, es: seq<Event>)
    decreases |es|
  {
    es == [] || (Harmony(Happen(m, server, es[0]), server) && AllInHarmony(Happen(m, server, es[0]), server, es[1..]))
  }

  /** A run keeps harmony all the way if and only if every event of it is allowed. */
  lemma {:induction false} RunExact(m: Meeting, server: Addr, es: seq<Event>)
    requires Harmony(m, server) && AllTimely(m, server, es)
    ensures AllInHarmony(m, server, es) <==> AllAllowed(m, server, es)
    decreases |es|
  {
    if es != [] {
      EventKeeps(m, server, es[0]);
      if Allowed(m, server, es[0]) {
        RunExact(Happen(m, server, es[0]), server, es[1..]);
      }
    }
  }

  // How clients read what they are sent

  lemma OneLineNotices(c: ChannelState, e: Event, g: Datagram)
    requires g in NoticesOf(c, e) && !e.Sweep?
    ensures |g.lines| == 1
  {
    match e
    case Join(name, addr, nat_, now, freshId) => ConnectLines(c, name, addr, nat_, now, freshId, g);
    case Again(name, addr, nat_, now, freshId) => ConnectLines(c, name, addr, nat_, now, freshId, g);
    case Part(name, addr, _) => DisconnectLines(c, name, addr, g);
    case _ =>
  }

  ghost predicate OneLiners(sent: seq<Datagram>) {
    forall g :: g in sent ==> |g.lines| == 1
  }

  lemma ConnectLines(c: ChannelState, name: Name, addr: Addr, nat_: NatKind, now: Time, freshId: u64, g: Datagram)
    requires g in ConnectNotices(c, name, addr, nat_, now, freshId)
    ensures |g.lines| == 1
  {
    var e := Enter(c, name, addr, nat_, now, freshId);
    AnnounceLines(e.users, e.relay, name, addr);
  }

  lemma AnnounceLines(users: seq<User>, relay: Option<Name>, name: Name, addr: Addr)
    ensures OneLiners(AnnounceNotices(users, relay, name, addr))
  {
    if |users| <= 1 {
      FlatMapMembers(MutualIntroduction(name, addr), users);
    } else {
      ElectionLines(users, relay);
    }
  }

  lemma ElectionLines(users: seq<User>, relay: Option<Name>)
    ensures OneLiners(ElectionNotices(users, relay))
  {
    match PickOnNotify(users)
    case Some(r) => RelayLines(users, r, relay != Some(r.name));
    case None => FlatMapMembers(ServerRelayToAll(users), users);
  }

  lemma RelayLines(users: seq<User>, r: User, changed: bool)
    ensures OneLiners(RelayNotices(users, r, changed)) && OneLiners(ServedNotices(users, r))
  {
    FlatMapMembers(ServerRelayPair(r), Filter(ServerPeerOf(r.name), users));
  }

  lemma DisconnectLines(c: ChannelState, name: Name, addr: Addr, g: Datagram)
    requires g in DisconnectNotices(c, name, addr)
    ensures |g.lines| == 1
  {
    var users := Leave(c, name, addr).users;
    FlatMapMembers(ServerRelayToAll(users), users);
  }

  /** Everything the server sends is read alike whether the client's two passes go over
      whole datagrams or over one line after the other, as `Hear` does. */
  lemma ReadLineByLine(c: ChannelState, e: Event, g: Datagram)
    requires g in NoticesOf(c, e)
    ensures OnePass(g.lines)
  {
    if e.Sweep? {
      SweepOnePass(c, e.now, g);
    } else {
      OneLineNotices(c, e, g);
    }
  }
}
