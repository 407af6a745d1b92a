/** What the survivors of a sweep make of it, however many relays fail on the way. */
module Sweeps {
  import opened Agreement
  import opened ChannelSteps
  import opened ClientSteps
  import opened Departures
  import opened Election
  import opened Hearing
  import opened Seqs
  import opened Structures
  import opened Sweep
  import opened SweepNews
  import opened Views
  import opened Wrappers

  // Notifications and inboxes

  lemma SendsHas(notes: seq<Notification>, g: Datagram)
    ensures g in Sends(notes) <==> exists n :: n in notes && g.dst in n.dests && g.lines == n.lines
  {
    FlatMapMembers(Outgoing(), notes);
    if n :| n in notes && g.dst in n.dests && g.lines == n.lines {
      MapHas(Carrying(n.lines), n.dests, g.dst);
      assert g in Outgoing()(n);
    }
    if g in Sends(notes) {
      var n :| n in notes && g in Outgoing()(n);
      assert g.dst in n.dests && g.lines == n.lines;
    }
  }

  lemma InboxHears(a: Addr, notes: seq<Notification>, l: Line)
    ensures l in Inbox(a, Sends(notes)) <==> Hears(notes, a, l)
  {
    InboxHas(a, Sends(notes), l);
    if Hears(notes, a, l) {
      var n :| n in notes && a in n.dests && l in n.lines;
      SendsHas(notes, Datagram(a, n.lines));
    }
    if g :| g in Sends(notes) && g.dst == a && l in g.lines {
      SendsHas(notes, g);
      var n :| n in notes && g.dst in n.dests && g.lines == n.lines;
      assert a in n.dests && l in n.lines;
    }
  }

  lemma InboxAppend(a: Addr, x: seq<Notification>, y: seq<Notification>)
    ensures Inbox(a, Sends(x + y)) == Inbox(a, Sends(x)) + Inbox(a, Sends(y))
  {
    FlatMapAppend(Outgoing(), x, y);
    FlatMapAppend(LinesTo(a), Sends(x), Sends(y));
  }

  lemma {:induction false} PassOnePass(users: seq<User>, relay: Option<Name>, i: nat, now: Time, n: Notification)
    requires i <= |users| && n in PassFrom(users, relay, i, now).notes
    ensures OnePass(n.lines)
    decreases |users| - i
  {
    if i < |users| {
      if Expired(users[i], now) {
        PassStep(users, relay, i, now);
        if n in TimeOut(users, relay, i).notes {
          StepOnePass(users, relay, i, n);
        } else {
          PassOnePass(RemoveAt(users, i), TimeOut(users, relay, i).relay, i, now, n);
        }
      } else {
        PassOnePass(users, relay, i + 1, now, n);
      }
    }
  }

  lemma StepOnePass(users: seq<User>, relay: Option<Name>, i: nat, n: Notification)
    requires i < |users| && n in TimeOut(users, relay, i).notes
    ensures OnePass(n.lines)
  {
    TailSilent(users, relay, i, UserLeft(users[i].name, users[i].addr));
    assert n in LeftNotes(users, users[i]) || n in TimeOutTail(users, relay, i);
  }

  lemma SweepOnePass(c: ChannelState, now: Time, g: Datagram)
    requires g in SweepNotices(c, now)
    ensures OnePass(g.lines)
  {
    if g in Sends(SweepPass(c, now).notes) {
      SendsHas(SweepPass(c, now).notes, g);
      var n :| n in SweepPass(c, now).notes && g.dst in n.dests && g.lines == n.lines;
      if n in PassFrom(c.users, c.relay, 0, now).notes {
        PassOnePass(c.users, c.relay, 0, now, n);
      }
    }
  }

  // The lines of one time-out

  /** What the time-out of the user at `i` may tell a user `u` that stays. */
  ghost predicate StepTells(users: seq<User>, i: nat, u: User, l: Line)
    requires i < |users|
  {
    var rest := RemoveAt(users, i);
    match l
    case UserLeft(name, _) => name == users[i].name
    case ModeRelay => true
    case ModeDirect(name, addr) => exists x :: x in rest && x.name == name && x.addr == addr && x.name != u.name
    case ModeServerRelay(_) => forall x :: x in rest ==> x.needsServerRelay
    case _ => false
  }

  lemma IntroductionTells(users: seq<User>, r: User, u: User, l: Line)
    requires DistinctAddrs(users) && u in users && r in users && u.addr == r.addr
    requires l in Map(Introduction(), Filter(NotNamed(r.name), users))
    ensures l.ModeDirect? && exists x :: x in users && x.name == l.name && x.addr == l.addr && x.name != u.name
  {
    var peers := Filter(NotNamed(r.name), users);
    SameAddr(users, u, r);
    var j :| 0 <= j < |peers| && l == Introduction()(peers[j]);
    assert peers[j] in peers;
  }

  lemma PeerTold(users: seq<User>, r: User, u: User, l: Line)
    requires DistinctAddrs(users) && u in users && r in users && u.addr in Addrs(Filter(NotNamed(r.name), users))
    requires l in Map(IntroductionOf(r), Filter(NotNamed(r.name), users))
    ensures l == ModeDirect(r.name, r.addr) && r.name != u.name
  {
    var peers := Filter(NotNamed(r.name), users);
    var j :| 0 <= j < |peers| && Addrs(peers)[j] == u.addr;
    assert peers[j] in peers;
    SameAddr(users, u, peers[j]);
  }

  lemma NotesOfReelection(users: seq<User>, n: Notification)
    requires n in ReelectNotes(users)
    ensures match PickOnTimeout(users)
            case Some(r) =>
              var peers := Filter(NotNamed(r.name), users);
              || n == Notification([r.addr], [ModeRelay])
              || n == Notification(Addrs(peers), Map(IntroductionOf(r), peers))
              || n == Notification([r.addr], Map(Introduction(), peers))
            case None => n == Notification(Addrs(users), Map(ServerRelayLine(), users))
  {
  }

  lemma ReelectionTells(users: seq<User>, u: User, n: Notification, l: Line)
    requires DistinctAddrs(users) && u in users && n in ReelectNotes(users) && u.addr in n.dests && l in n.lines
    ensures match l
            case ModeRelay => true
            case ModeDirect(name, addr) =>
              exists x :: x in users && x.name == name && x.addr == addr && x.name != u.name
            case ModeServerRelay(_) => forall x :: x in users ==> x.needsServerRelay
            case _ => false
  {
    NotesOfReelection(users, n);
    PickOnTimeoutIsFirst(users);
    match PickOnTimeout(users)
    case Some(r) =>
      var peers := Filter(NotNamed(r.name), users);
      if l in Map(Introduction(), peers) && u.addr == r.addr {
        IntroductionTells(users, r, u, l);
      } else if l in Map(IntroductionOf(r), peers) && u.addr in Addrs(peers) {
        PeerTold(users, r, u, l);
      }
    case None =>
  }

  lemma StepLine(users: seq<User>, relay: Option<Name>, i: nat, u: User, l: Line)
    requires i < |users| && DistinctAddrs(users) && u in RemoveAt(users, i)
    requires Hears(TimeOut(users, relay, i).notes, u.addr, l)
    ensures StepTells(users, i, u, l)
  {
    var gone, rest := users[i], RemoveAt(users, i);
    TailSilent(users, relay, i, UserLeft(gone.name, gone.addr));
    var n :| n in LeftNotes(users, gone) + TimeOutTail(users, relay, i) && u.addr in n.dests && l in n.lines;
    if n in LeftNotes(users, gone) {
      assert l == UserLeft(gone.name, gone.addr);
    } else if relay == Some(gone.name) {
      RemovalKeepsAddrs(users, i);
      ReelectionTells(rest, u, n, l);
    }
  }

  // The lines of the whole pass

  /** The users before position `i` are still alive. */
  ghost predicate AliveBefore(users: seq<User>, i: nat, now: Time)
    requires i <= |users|
  {
    forall j :: 0 <= j < i ==> !Expired(users[j], now)
  }

  lemma SurvivorAlive(users: seq<User>, relay: Option<Name>, i: nat, now: Time, u: User)
    requires i <= |users| && AliveBefore(users, i, now)
    ensures u in PassFrom(users, relay, i, now).users <==> u in users && !Expired(u, now)
  {
    PassFilters(users, relay, i, now);
    assert users == users[..i] + users[i..];
    if u in users[..i] {
      var j :| 0 <= j < i && users[j] == u;
    }
  }

  lemma PlaceAfter(users: seq<User>, i: nat, now: Time, x: User) returns (k: nat)
    requires i <= |users| && AliveBefore(users, i, now) && x in users && Expired(x, now)
    ensures i <= k < |users| && users[k] == x
  {
    k :| 0 <= k < |users| && users[k] == x;
  }

  lemma ResidentOfRow(kept: seq<User>, before: seq<User>, after: seq<User>, now: Time, u: User)
    requires u in kept || (u in before && !Expired(u, now)) || u in after
    ensures Residents(u.addr, kept + Filter(Alive(now), before) + after) >= 1
  {
    var all := kept + Filter(Alive(now), before) + after;
    assert u in all && LocatedAt(u.addr)(u);
    assert u in Filter(LocatedAt(u.addr), all);
  }

  /** A user that is yet to be removed will be said to have left. */
  lemma LaterLeft(users: seq<User>, relay: Option<Name>, i: nat, now: Time, u: User, x: User)
    requires i <= |users| && DistinctNames(users) && DistinctAddrs(users) && AliveBefore(users, i, now)
    requires u in users && !Expired(u, now) && x in users && Expired(x, now)
    ensures Hears(PassFrom(users, relay, i, now).notes, u.addr, UserLeft(x.name, x.addr))
  {
    var k := PlaceAfter(users, i, now, x);
    var kept, before, after := users[..i], users[i..k], users[k + 1..];
    var l, notes := UserLeft(x.name, x.addr), PassFrom(users, relay, i, now).notes;
    assert users == Row(kept, before, x, after);
    OthersOfRow(users, i, k, u);
    EachTurn(kept, before, x, after, relay, now, u.addr);
    ResidentOfRow(kept, before, after, now, u);
    if u.addr == x.addr { SameAddr(users, u, x); }
    var copies := Filter(Carries(u.addr, l), Sends(notes));
    assert |copies| >= 1 && copies[0] in copies;
    SendsHas(notes, copies[0]);
  }

  lemma OthersOfRow(users: seq<User>, i: nat, k: nat, u: User)
    requires i <= k < |users| && DistinctNames(users)
    ensures forall v :: v in users[..i] || v in users[i..k] || v in users[k + 1..] ==> v.name != users[k].name
    ensures u in users && u != users[k] ==> u in users[..i] || u in users[i..k] || u in users[k + 1..]
  {
    if u in users && u != users[k] {
      var j :| 0 <= j < |users| && users[j] == u;
      assert j < i ==> users[..i][j] == u;
      assert i <= j < k ==> users[i..k][j - i] == u;
      assert j > k ==> users[k + 1..][j - k - 1] == u;
    }
  }

  /** `d` is the channel the pass over `users` leaves, and only its relay is told that it
      is the relay. */
  ghost predicate Leading(users: seq<User>, relay: Option<Name>, i: nat, now: Time, d: ChannelState, u: User)
    requires i <= |users|
  {
    var p := PassFrom(users, relay, i, now);
    && d.users == p.users && u in users && !Expired(u, now)
    && (Hears(p.notes, u.addr, ModeRelay) ==> d.relay == Some(u.name))
  }

  lemma StepLineFine(users: seq<User>, relay: Option<Name>, i: nat, now: Time, d: ChannelState, u: User, l: Line)
    requires i < |users| && Expired(users[i], now) && DistinctNames(users) && DistinctAddrs(users)
    requires AliveBefore(users, i, now) && Leading(users, relay, i, now, d, u)
    requires Hears(TimeOut(users, relay, i).notes, u.addr, l)
    ensures var tail := PassFrom(RemoveAt(users, i), TimeOut(users, relay, i).relay, i, now);
            Sound(d, u, l) || PassingBy(l, Inbox(u.addr, Sends(tail.notes)))
    ensures l.ModeDirect? ==> exists x :: x in users && x.name == l.name && x.addr == l.addr
  {
    var rest, relay' := RemoveAt(users, i), TimeOut(users, relay, i).relay;
    StaysInRest(users, i, u, now);
    RestStaysDistinct(users, i, now);
    StepLine(users, relay, i, u, l);
    PassStep(users, relay, i, now);
    PassShrinks(rest, relay', i, now);
    match l
    case ModeRelay => HearsMore(PassFrom(rest, relay', i, now).notes, TimeOut(users, relay, i).notes, u.addr, l);
    case ModeDirect(name, addr) =>
      var x :| x in rest && x.name == name && x.addr == addr && x.name != u.name;
      if Expired(x, now) {
        LaterLeft(rest, relay', i, now, u, x);
        InboxHears(u.addr, PassFrom(rest, relay', i, now).notes, UserLeft(x.name, x.addr));
      } else {
        SurvivorAlive(rest, relay', i, now, x);
      }
    case _ =>
  }

  lemma StaysInRest(users: seq<User>, i: nat, u: User, now: Time)
    requires i < |users| && u in users && Expired(users[i], now) && !Expired(u, now)
    ensures u in RemoveAt(users, i)
  {
    var j :| 0 <= j < |users| && users[j] == u;
    assert RemoveAt(users, i)[if j < i then j else j - 1] == u;
  }

  lemma RestStaysDistinct(users: seq<User>, i: nat, now: Time)
    requires i < |users| && DistinctNames(users) && DistinctAddrs(users) && AliveBefore(users, i, now)
    ensures var rest := RemoveAt(users, i);
            && DistinctNames(rest) && DistinctAddrs(rest) && |rest| == |users| - 1 && AliveBefore(rest, i, now)
            && forall x :: x in rest ==> x in users && x.name != users[i].name
  {
    RemoveAtMembers(users, i);
    RemovalKeepsAddrs(users, i);
    RemoveAtIsFilter(users, i);
  }

  lemma LeadingOn(users: seq<User>, relay: Option<Name>, i: nat, now: Time, d: ChannelState, u: User)
    requires i < |users| && Expired(users[i], now) && Leading(users, relay, i, now, d, u)
    ensures |RemoveAt(users, i)| == |users| - 1
    ensures Leading(RemoveAt(users, i), TimeOut(users, relay, i).relay, i, now, d, u)
  {
    var step := TimeOut(users, relay, i);
    var tail := PassFrom(RemoveAt(users, i), step.relay, i, now);
    PassStep(users, relay, i, now);
    StaysInRest(users, i, u, now);
    if Hears(tail.notes, u.addr, ModeRelay) {
      HearsMore(step.notes, tail.notes, u.addr, ModeRelay);
    }
  }

  /** What a survivor hears of the pass. */
  function PassLines(users: seq<User>, relay: Option<Name>, i: nat, now: Time, u: User): seq<Line>
    requires i <= |users|
  {
    Inbox(u.addr, Sends(PassFrom(users, relay, i, now).notes))
  }

  lemma StepLinesFine(users: seq<User>, relay: Option<Name>, i: nat, now: Time, d: ChannelState, u: User)
    requires i < |users| && Expired(users[i], now) && DistinctNames(users) && DistinctAddrs(users)
    requires AliveBefore(users, i, now) && Leading(users, relay, i, now, d, u)
    requires var later := PassLines(RemoveAt(users, i), TimeOut(users, relay, i).relay, i, now, u);
             Fine(d, u, later) && IntroducesOnly(RemoveAt(users, i), later)
    ensures Fine(d, u, PassLines(users, relay, i, now, u)) && IntroducesOnly(users, PassLines(users, relay, i, now, u))
  {
    var step := TimeOut(users, relay, i);
    var tail := PassFrom(RemoveAt(users, i), step.relay, i, now);
    var x, y := Inbox(u.addr, Sends(step.notes)), Inbox(u.addr, Sends(tail.notes));
    PassStep(users, relay, i, now);
    InboxAppend(u.addr, step.notes, tail.notes);
    RemoveAtMembers(users, i);
    forall l | l in x
      ensures Sound(d, u, l) || PassingBy(l, y)
      ensures l.ModeDirect? ==> exists v :: v in users && v.name == l.name && v.addr == l.addr
    {
      InboxHears(u.addr, step.notes, l);
      StepLineFine(users, relay, i, now, d, u, l);
    }
    FineAppend(d, u, x, y);
  }

  /** Whatever is wrong among the lines of a pass is put right by the lines after it. */
  lemma {:induction false} PassFine(users: seq<User>, relay: Option<Name>, i: nat, now: Time, d: ChannelState, u: User)
    requires i <= |users| && DistinctNames(users) && DistinctAddrs(users) && AliveBefore(users, i, now)
    requires Leading(users, relay, i, now, d, u)
    ensures Fine(d, u, PassLines(users, relay, i, now, u)) && IntroducesOnly(users, PassLines(users, relay, i, now, u))
    decreases |users| - i
  {
    if i == |users| {
      assert PassLines(users, relay, i, now, u) == [];
    } else if Expired(users[i], now) {
      RestStaysDistinct(users, i, now);
      LeadingOn(users, relay, i, now, d, u);
      PassFine(RemoveAt(users, i), TimeOut(users, relay, i).relay, i, now, d, u);
      StepLinesFine(users, relay, i, now, d, u);
    } else {
      PassFine(users, relay, i + 1, now, d, u);
    }
  }

  /** While an eligible user survives nobody is told that the server relays for someone. */
  lemma {:induction false} PassNamesNobodyServed(users: seq<User>, relay: Option<Name>, i: nat, now: Time, r: User,
                                                 u: User, l: Line)
    requires i <= |users| && DistinctNames(users) && DistinctAddrs(users) && AliveBefore(users, i, now)
    requires r in users && Eligible(r) && !Expired(r, now) && u in users && !Expired(u, now)
    requires Hears(PassFrom(users, relay, i, now).notes, u.addr, l)
    ensures !l.ModeServerRelay?
    decreases |users| - i
  {
    if i < |users| {
      if Expired(users[i], now) {
        var step := TimeOut(users, relay, i);
        PassStep(users, relay, i, now);
        StaysInRest(users, i, r, now);
        StaysInRest(users, i, u, now);
        if Hears(step.notes, u.addr, l) {
          StepLine(users, relay, i, u, l);
        } else {
          HeardLater(step.notes, PassFrom(RemoveAt(users, i), step.relay, i, now).notes, u.addr, l);
          RestStaysDistinct(users, i, now);
          PassNamesNobodyServed(RemoveAt(users, i), step.relay, i, now, r, u, l);
        }
      } else {
        PassNamesNobodyServed(users, relay, i + 1, now, r, u, l);
      }
    }
  }

  // All that a sweep sends

  function SoloNotes(p: Pass): seq<Notification> {
    if |p.users| == 1 && !Eligible(p.users[0])
    then [Notification([p.users[0].addr], [ModeServerRelay(p.users[0].name)])] else []
  }

  /** What a survivor hears of a sweep. */
  function SweepLines(c: ChannelState, now: Time, u: User): seq<Line> {
    Inbox(u.addr, SweepNotices(c, now))
  }

  lemma LinesOfSweep(c: ChannelState, now: Time, u: User)
    ensures SweepLines(c, now, u)
            == Inbox(u.addr, Map(Pinging(), SoloPing(SweepChannel(c, now).users)))
               + PassLines(c.users, c.relay, 0, now, u)
               + Inbox(u.addr, Sends(SoloNotes(PassFrom(c.users, c.relay, 0, now))))
  {
    var p := PassFrom(c.users, c.relay, 0, now);
    var pings := Map(Pinging(), SoloPing(SweepChannel(c, now).users));
    NotesOfSweep(c, now);
    FlatMapAppend(LinesTo(u.addr), pings, Sends(SweepPass(c, now).notes));
    InboxAppend(u.addr, p.notes, SoloNotes(p));
    var x, y, z := Inbox(u.addr, pings), PassLines(c.users, c.relay, 0, now, u), Inbox(u.addr, Sends(SoloNotes(p)));
    assert x + (y + z) == x + y + z;
  }

  lemma NotesOfSweep(c: ChannelState, now: Time)
    ensures var p := PassFrom(c.users, c.relay, 0, now); SweepPass(c, now).notes == p.notes + SoloNotes(p)
  {
  }

  lemma PingLines(users: seq<User>, a: Addr, l: Line)
    requires l in Inbox(a, Map(Pinging(), SoloPing(users)))
    ensures l == Ping
  {
    InboxHas(a, Map(Pinging(), SoloPing(users)), l);
  }

  lemma SoloLines(p: Pass, u: User, l: Line)
    requires u in p.users && l in Inbox(u.addr, Sends(SoloNotes(p)))
    ensures p.users == [u] && l == ModeServerRelay(u.name) && u.needsServerRelay
  {
    InboxHears(u.addr, SoloNotes(p), l);
  }

  lemma LedRightly(c: ChannelState, now: Time, u: User)
    requires u in SweepChannel(c, now).users && !WronglyAppoints(c, now)
    ensures Leading(c.users, c.relay, 0, now, SweepChannel(c, now), u)
  {
    SurvivorAlive(c.users, c.relay, 0, now, u);
    SoloNoteAppointsNobody(PassFrom(c.users, c.relay, 0, now), u.addr);
  }

  lemma SweepFine(c: ChannelState, now: Time, u: User)
    requires DistinctNames(c.users) && DistinctAddrs(c.users) && u in SweepChannel(c, now).users
    requires !WronglyAppoints(c, now)
    ensures Fine(SweepChannel(c, now), u, SweepLines(c, now, u)) && IntroducesOnly(c.users, SweepLines(c, now, u))
  {
    var d, p := SweepChannel(c, now), PassFrom(c.users, c.relay, 0, now);
    var x, z := Inbox(u.addr, Map(Pinging(), SoloPing(d.users))), Inbox(u.addr, Sends(SoloNotes(p)));
    LedRightly(c, now, u);
    PassFine(c.users, c.relay, 0, now, d, u);
    forall l | l in x ensures Sound(d, u, l) && !l.ModeDirect? { PingLines(d.users, u.addr, l); }
    forall l | l in z ensures Sound(d, u, l) && !l.ModeDirect? { SoloLines(p, u, l); }
    LinesOfSweep(c, now, u);
    FineSurrounded(d, u, x, PassLines(c.users, c.relay, 0, now, u), z, c.users);
  }

  /** Sound lines other than introductions do no harm before and after. */
  lemma FineSurrounded(d: ChannelState, u: User, x: seq<Line>, y: seq<Line>, z: seq<Line>, users: seq<User>)
    requires Fine(d, u, y) && IntroducesOnly(users, y)
    requires forall l :: l in x || l in z ==> Sound(d, u, l) && !l.ModeDirect?
    ensures Fine(d, u, x + y + z) && IntroducesOnly(users, x + y + z)
  {
    SoundIsFine(d, u, z);
    FineJoin(d, u, y, z);
    FineAppend(d, u, x, y + z);
    assert x + (y + z) == x + y + z;
  }

  lemma {:induction false} FineJoin(c: ChannelState, u: User, x: seq<Line>, y: seq<Line>)
    requires Fine(c, u, x) && Fine(c, u, y)
    ensures Fine(c, u, x + y)
    decreases |x|
  {
    if x == [] {
      assert x + y == y;
    } else {
      assert (x + y)[0] == x[0] && (x + y)[1..] == x[1..] + y;
      FineJoin(c, u, x[1..], y);
      if PassingBy(x[0], x[1..]) {
        LeftInMore(y, x[1..], x[0].name);
      }
    }
  }

  /** Every survivor hears of everyone who is gone. */
  lemma LeaversHeard(c: ChannelState, now: Time, u: User, v: User)
    requires DistinctNames(c.users) && DistinctAddrs(c.users)
    requires u in SweepChannel(c, now).users && v in c.users && v !in SweepChannel(c, now).users
    ensures LeftIn(SweepLines(c, now, u), v.name)
  {
    var l, p := UserLeft(v.name, v.addr), PassFrom(c.users, c.relay, 0, now);
    SurvivorAlive(c.users, c.relay, 0, now, u);
    SurvivorAlive(c.users, c.relay, 0, now, v);
    LaterLeft(c.users, c.relay, 0, now, u, v);
    InboxHears(u.addr, p.notes, l);
    LinesOfSweep(c, now, u);
    assert l in SweepLines(c, now, u);
  }

  /** A relay that survives a sweep stays the relay. */
  lemma RelayOutlives(c: ChannelState, now: Time, u: User)
    requires DistinctNames(c.users) && RelayExact(c) && u in SweepChannel(c, now).users && c.relay == Some(u.name)
    ensures SweepChannel(c, now).relay == c.relay
  {
    SurvivorAlive(c.users, c.relay, 0, now, u);
    ExactServes(c);
    var x :| x in c.users && x.name == u.name && Eligible(x);
    SameName(c.users, x, u);
    PassSpares(c.users, c.relay, 0, now, u);
    SoloIsRelay(PassFrom(c.users, c.relay, 0, now), u);
  }

  lemma SoloIsRelay(p: Pass, r: User)
    requires r in p.users && Eligible(r) && p.relay == Some(r.name)
    ensures SettleSolo(p) == p
  {
  }

  lemma SweepRecovers(c: ChannelState, clients: map<Addr, ClientState>, server: Addr, now: Time)
    requires Settled(c, clients, server)
    ensures AllRecover(SweepChannel(c, now), clients, server, SweepNotices(c, now))
  {
    var d, sent := SweepChannel(c, now), SweepNotices(c, now);
    forall u | u in d.users ensures Recovering(d, clients, server, sent, u) {
      SurvivorAlive(c.users, c.relay, 0, now, u);
      assert InTune(c, clients, server, u);
      forall p | p in clients[u.addr].peers
        ensures Describes(p, u, d.users) || LeftIn(Inbox(u.addr, sent), p.username)
      {
        assert Describes(p, u, c.users);
        var v :| v in c.users && v.name != u.name && v.name == p.username && v.addr == p.addr
            && (p.useServerRelay ==> v.needsServerRelay);
        if v !in d.users { LeaversHeard(c, now, u, v); }
      }
      if c.relay == Some(u.name) { RelayOutlives(c, now, u); }
    }
  }

  // Who is informed

  /** Where the relay stays, what was known suffices. */
  lemma StayInformed(c: ChannelState, d: ChannelState, clients: map<Addr, ClientState>, server: Addr,
                     sent: seq<Datagram>, now: Time, u: User)
    requires Agreed(c, clients, server) && DistinctAddrs(c.users) && (forall v :: v in d.users ==> v in c.users)
    requires d.relay == c.relay && RelayServes(d) && DistinctNames(d.users) && u in d.users
    requires Fine(d, u, Inbox(u.addr, sent))
    ensures u.addr in clients && InformedBy(d, clients, sent, now, u)
  {
    assert InTune(c, clients, server, u);
    var k, lines := clients[u.addr], Inbox(u.addr, sent);
    HearGains(k, lines, now);
    forall v | v in d.users && Knows(k, v.addr) ensures Knows(Hear(k, lines, now), v.addr) {
      KnownIsListed(c, u, k, v);
      StaysListed(d, u, k, lines, now, v);
    }
    if u.needsServerRelay { StaysServed(d, u, k, lines, now); }
  }

  lemma StaysServed(d: ChannelState, u: User, k: ClientState, lines: seq<Line>, now: Time)
    requires DistinctNames(d.users) && RelayServes(d) && u in d.users && u.needsServerRelay
    requires k.sendViaServer && Fine(d, u, lines)
    ensures Hear(k, lines, now).sendViaServer
  {
    ServedNotRelay(d, u);
    if ModeRelay in lines {
      FineMember(d, u, lines, ModeRelay);
    }
    HearServed(k, lines, now);
  }

  lemma ServedNotRelay(d: ChannelState, u: User)
    requires DistinctNames(d.users) && RelayServes(d) && u in d.users && u.needsServerRelay
    ensures d.relay != Some(u.name)
  {
    if d.relay.Some? {
      var r :| r in d.users && r.name == d.relay.value && Eligible(r);
      if r.name == u.name { SameName(d.users, r, u); }
    }
  }

  lemma HeardOfSweep(c: ChannelState, now: Time, a: Addr, l: Line)
    requires Hears(SweepPass(c, now).notes, a, l)
    ensures l in Inbox(a, SweepNotices(c, now))
  {
    InboxHears(a, SweepPass(c, now).notes, l);
    FlatMapAppend(LinesTo(a), Map(Pinging(), SoloPing(SweepChannel(c, now).users)), Sends(SweepPass(c, now).notes));
  }

  lemma NewRelayInformed(c: ChannelState, clients: map<Addr, ClientState>, server: Addr, now: Time, r: User)
    requires Settled(c, clients, server) && r in SweepChannel(c, now).users
             && SweepChannel(c, now).relay == Some(r.name)
    requires RelayProclaimed(SweepPass(c, now).notes, r, SweepChannel(c, now).users) && !WronglyAppoints(c, now)
    requires MirrorsOrNeedNot(SweepChannel(c, now), clients, r) && Eligible(r)
    ensures r.addr in clients && InformedBy(SweepChannel(c, now), clients, SweepNotices(c, now), now, r)
  {
    var d, lines := SweepChannel(c, now), SweepLines(c, now, r);
    SurvivorAlive(c.users, c.relay, 0, now, r);
    assert InTune(c, clients, server, r);
    var k := clients[r.addr];
    SweepFine(c, now, r);
    HeardOfSweep(c, now, r.addr, ModeRelay);
    HearRelay(k, lines, now);
    HearGains(k, lines, now);
    forall v | v in d.users && v.name != r.name ensures Knows(Hear(k, lines, now), v.addr) {
      SurvivorAlive(c.users, c.relay, 0, now, v);
      HeardOfSweep(c, now, r.addr, ModeDirect(v.name, v.addr));
      BecomesListed(c, d, r, k, lines, now, v);
    }
  }

  lemma NewFollowerInformed(c: ChannelState, clients: map<Addr, ClientState>, server: Addr, now: Time, r: User, u: User)
    requires Settled(c, clients, server) && r in SweepChannel(c, now).users
             && SweepChannel(c, now).relay == Some(r.name)
    requires RelayProclaimed(SweepPass(c, now).notes, r, SweepChannel(c, now).users) && !WronglyAppoints(c, now)
    requires u in SweepChannel(c, now).users && u.name != r.name && Eligible(r)
    ensures u.addr in clients && InformedBy(SweepChannel(c, now), clients, SweepNotices(c, now), now, u)
  {
    var d, lines := SweepChannel(c, now), SweepLines(c, now, u);
    SurvivorAlive(c.users, c.relay, 0, now, r);
    SurvivorAlive(c.users, c.relay, 0, now, u);
    assert InTune(c, clients, server, u);
    var k := clients[u.addr];
    SweepFine(c, now, u);
    HeardOfSweep(c, now, u.addr, ModeDirect(r.name, r.addr));
    BecomesListed(c, d, u, k, lines, now, r);
    SweepFilters(c, now);
    FilterKeeps(Alive(now), c.users);
    forall q | q in d.users && d.relay == Some(q.name) ensures q == r { SameName(d.users, q, r); }
    if u.needsServerRelay { StaysServed(d, u, k, lines, now); }
  }

  /** Without a relay only served members remain, and they stay served. */
  lemma LeaderlessInformed(c: ChannelState, clients: map<Addr, ClientState>, server: Addr, now: Time, u: User)
    requires Settled(c, clients, server) && u in SweepChannel(c, now).users && SweepChannel(c, now).relay.None?
    requires !WronglyAppoints(c, now)
    ensures u.addr in clients && InformedBy(SweepChannel(c, now), clients, SweepNotices(c, now), now, u)
  {
    var d := SweepChannel(c, now);
    SurvivorAlive(c.users, c.relay, 0, now, u);
    assert InTune(c, clients, server, u);
    SweepExact(c, now);
    ExactServes(d);
    SweepFilters(c, now);
    FilterKeeps(Alive(now), c.users);
    SweepFine(c, now, u);
    StaysServed(d, u, clients[u.addr], SweepLines(c, now, u), now);
  }

  // When a sweep keeps agreement

  /** The condition on the successor of a relay that timed out. */
  ghost predicate SuccessorFits(c: ChannelState, clients: map<Addr, ClientState>, now: Time) {
    var left := Filter(Alive(now), c.users);
    match PickOnTimeout(left)
    case None => true
    case Some(r) => c.relay == Some(r.name) || MirrorsOrNeedNot(c.(users := left), clients, r)
  }

  /** A sweep leaves no served user alone after a served one, and a new relay has nobody
      to mirror for, or mirrors already. */
  ghost predicate SweepSpares(c: ChannelState, clients: map<Addr, ClientState>, now: Time) {
    var left := Filter(Alive(now), c.users);
    !(|left| == 1 && left[0].needsServerRelay && LastGoneServed(c.users, 0, now)) && SuccessorFits(c, clients, now)
  }

  lemma RelayOfSweep(c: ChannelState, now: Time)
    requires RelayExact(c)
    ensures SweepChannel(c, now).users == Filter(Alive(now), c.users)
    ensures SweepChannel(c, now).relay == NameOf(PickOnTimeout(Filter(Alive(now), c.users)))
  {
    SweepFilters(c, now);
    SweepExact(c, now);
    ExactIsPick(SweepChannel(c, now).users, SweepChannel(c, now).relay);
  }

  lemma SurvivorInformed(c: ChannelState, clients: map<Addr, ClientState>, server: Addr, now: Time, u: User)
    requires Settled(c, clients, server) && SuccessorFits(c, clients, now) && !WronglyAppoints(c, now)
    requires u in SweepChannel(c, now).users
    ensures u.addr in clients && InformedBy(SweepChannel(c, now), clients, SweepNotices(c, now), now, u)
  {
    var d := SweepChannel(c, now);
    RelayOfSweep(c, now);
    FilterKeeps(Alive(now), c.users);
    SweepExact(c, now);
    ExactServes(d);
    if d.relay.None? {
      LeaderlessInformed(c, clients, server, now, u);
    } else if d.relay == c.relay {
      SweepFine(c, now, u);
      StayInformed(c, d, clients, server, SweepNotices(c, now), now, u);
    } else {
      var r := PickOnTimeout(d.users).value;
      SuccessorProclaimed(c, now, r);
      if u.name == r.name {
        SameName(d.users, u, r);
        NewRelayInformed(c, clients, server, now, r);
      } else {
        NewFollowerInformed(c, clients, server, now, r, u);
      }
    }
  }

  lemma SuccessorProclaimed(c: ChannelState, now: Time, r: User)
    requires DistinctNames(c.users) && RelayExact(c) && SweepChannel(c, now).relay != c.relay
    requires PickOnTimeout(SweepChannel(c, now).users) == Some(r) && SweepChannel(c, now).relay == Some(r.name)
    ensures r in SweepChannel(c, now).users && Eligible(r)
    ensures RelayProclaimed(SweepPass(c, now).notes, r, SweepChannel(c, now).users)
  {
    var d := SweepChannel(c, now);
    PickOnTimeoutIsFirst(d.users);
    SweptRelayProclaimed(c, now);
    SweepFilters(c, now);
    FilterKeeps(Alive(now), c.users);
    var x :| x in d.users && x.name == r.name && RelayProclaimed(SweepPass(c, now).notes, x, d.users);
    SameName(d.users, x, r);
  }

  lemma SweepSparing(c: ChannelState, clients: map<Addr, ClientState>, server: Addr, now: Time)
    requires Settled(c, clients, server) && SuccessorFits(c, clients, now) && !WronglyAppoints(c, now)
    ensures Settled(SweepChannel(c, now), HearAll(clients, SweepNotices(c, now), now), server)
  {
    var d, sent := SweepChannel(c, now), SweepNotices(c, now);
    RelayOfSweep(c, now);
    FilterKeeps(Alive(now), c.users);
    SweepExact(c, now);
    SweepRecovers(c, clients, server, now);
    forall u | u in d.users ensures Fine(d, u, Inbox(u.addr, sent)) {
      SweepFine(c, now, u);
    }
    forall u | u in d.users ensures u.addr in clients && InformedBy(d, clients, sent, now, u) {
      SurvivorInformed(c, clients, server, now, u);
    }
    AgreedAfter(d, clients, server, sent, now);
  }

  /** A survivor told that it is the relay takes itself for the relay from then on. */
  lemma AppointedMisled(c: ChannelState, clients: map<Addr, ClientState>, server: Addr, now: Time)
    requires Agreed(c, clients, server) && WronglyAppoints(c, now)
    ensures !Agreed(SweepChannel(c, now), HearAll(clients, SweepNotices(c, now), now), server)
  {
    var d := SweepChannel(c, now);
    var u :| u in d.users && d.relay != Some(u.name) && Hears(SweepPass(c, now).notes, u.addr, ModeRelay);
    SurvivorAlive(c.users, c.relay, 0, now, u);
    assert InTune(c, clients, server, u);
    HeardOfSweep(c, now, u.addr, ModeRelay);
    HearRelay(clients[u.addr], SweepLines(c, now, u), now);
    assert !InTune(d, HearAll(clients, SweepNotices(c, now), now), server, u);
  }

  lemma NewRelayNotTold(c: ChannelState, now: Time, r: User)
    requires DistinctNames(c.users) && DistinctAddrs(c.users) && r in SweepChannel(c, now).users && Eligible(r)
    ensures forall l :: l in SweepLines(c, now, r) ==> !l.ModeServerRelay?
  {
    var p := PassFrom(c.users, c.relay, 0, now);
    SurvivorAlive(c.users, c.relay, 0, now, r);
    LinesOfSweep(c, now, r);
    forall l | l in SweepLines(c, now, r) ensures !l.ModeServerRelay? {
      if l in PassLines(c.users, c.relay, 0, now, r) {
        InboxHears(r.addr, p.notes, l);
        PassNamesNobodyServed(c.users, c.relay, 0, now, r, r, l);
      } else if l in Inbox(r.addr, Sends(SoloNotes(p))) {
        SoloLines(p, r, l);
      } else {
        PingLines(SweepChannel(c, now).users, r.addr, l);
      }
    }
  }

  lemma SuccessorUninformed(c: ChannelState, clients: map<Addr, ClientState>, server: Addr, now: Time)
    requires Settled(c, clients, server) && !SuccessorFits(c, clients, now)
    ensures !Agreed(SweepChannel(c, now), HearAll(clients, SweepNotices(c, now), now), server)
  {
    var d := SweepChannel(c, now);
    RelayOfSweep(c, now);
    var r := PickOnTimeout(d.users).value;
    PickOnTimeoutIsFirst(d.users);
    SurvivorAlive(c.users, c.relay, 0, now, r);
    assert InTune(c, clients, server, r);
    NewRelayNotTold(c, now, r);
    HearNobodyServed(clients[r.addr], SweepLines(c, now, r), now);
    assert !InTune(d, HearAll(clients, SweepNotices(c, now), now), server, r);
  }

  /** Any sweep, once its notices are delivered, leaves server and clients in agreement if
      and only if it does not leave one served user alone after a served one, and the relay
      it leaves is the old one, or has no served member, or mirrors to the server already. */
  lemma SweepAgrees(c: ChannelState, clients: map<Addr, ClientState>, server: Addr, now: Time)
    requires Settled(c, clients, server)
    ensures Settled(SweepChannel(c, now), HearAll(clients, SweepNotices(c, now), now), server)
            <==> SweepSpares(c, clients, now)
  {
    SweepAppoints(c, now);
    if WronglyAppoints(c, now) {
      AppointedMisled(c, clients, server, now);
    } else if SuccessorFits(c, clients, now) {
      SweepSparing(c, clients, server, now);
    } else {
      SuccessorUninformed(c, clients, server, now);
    }
  }
}
