/** The periodic sweep over one channel (src/signaling/heartbeat.rs) as a function
    of the channel's value, and what one pass achieves. */
module Sweep {
  import opened ChannelSteps
  import opened Election
  import opened Seqs
  import opened Structures
  import opened Wrappers

  const USER_TIMEOUT: Time := 40 * SECOND

  predicate Expired(u: User, now: Time) { now - u.lastPong > USER_TIMEOUT }
  function Alive(now: Time): User -> bool { (u: User) => !Expired(u, now) }

  /** One pending message: the same lines to several addresses. */
  datatype Notification = Notification(dests: seq<Addr>, lines: seq<Line>)

  /** What `send_notifications` puts on the wire. */
  function Sends(notes: seq<Notification>): seq<Datagram> {
    FlatMap(Outgoing(), notes)
  }

  function Outgoing(): Notification -> seq<Datagram> { (n: Notification) => Map(Carrying(n.lines), n.dests) }
  function Carrying(lines: seq<Line>): Addr -> Datagram { (a: Addr) => Datagram(a, lines) }

  function AddrOf(): User -> Addr { (u: User) => u.addr }
  function Addrs(users: seq<User>): seq<Addr> { Map(AddrOf(), users) }

  function Introduction(): User -> Line { (p: User) => ModeDirect(p.name, p.addr) }
  function IntroductionOf(r: User): User -> Line { (p: User) => ModeDirect(r.name, r.addr) }
  function ServerRelayLine(): User -> Line { (u: User) => ModeServerRelay(u.name) }

  function NoteUnlessEmpty(dests: seq<Addr>, lines: seq<Line>): seq<Notification> {
    if dests == [] then [] else [Notification(dests, lines)]
  }

  /** `handle_relay_timeout`: what re-election announces. */
  function ReelectNotes(users: seq<User>): seq<Notification> {
    match PickOnTimeout(users)
    case Some(r) =>
      var peers := Filter(NotNamed(r.name), users);
      [Notification([r.addr], [ModeRelay])]
      + NoteUnlessEmpty(Addrs(peers), Map(IntroductionOf(r), peers))
      + (if peers == [] then [] else [Notification([r.addr], Map(Introduction(), peers))])
    case None => NoteUnlessEmpty(Addrs(users), Map(ServerRelayLine(), users))
  }

  function LeftNotes(users: seq<User>, gone: User): seq<Notification> {
    NoteUnlessEmpty(Addrs(Filter(NotLocatedAt(gone.addr), users)), [UserLeft(gone.name, gone.addr)])
  }

  datatype Pass = Pass(users: seq<User>, relay: Option<Name>, notes: seq<Notification>)

  /** `handle_timed_out_user` on position `i`. */
  function TimeOut(users: seq<User>, relay: Option<Name>, i: nat): Pass
    requires i < |users|
  {
    var gone, rest := users[i], RemoveAt(users, i);
    if relay == Some(gone.name) then
      Pass(rest, NameOf(PickOnTimeout(rest)), LeftNotes(users, gone) + ReelectNotes(rest))
    else if |rest| == 1 then
      Pass(rest, Some(rest[0].name), LeftNotes(users, gone) + [Notification([rest[0].addr], [ModeRelay])])
    else
      Pass(rest, relay, LeftNotes(users, gone))
  }

  /** A time-out tells of the departure first. */
  lemma TimeOutOrder(users: seq<User>, relay: Option<Name>, i: nat, before: seq<Notification>)
    requires i < |users|
    ensures var gone, rest := users[i], RemoveAt(users, i);
            before + TimeOut(users, relay, i).notes
            == if relay == Some(gone.name) then before + LeftNotes(users, gone) + ReelectNotes(rest)
               else if |rest| == 1 then before + LeftNotes(users, gone) + [Notification([rest[0].addr], [ModeRelay])]
               else before + LeftNotes(users, gone)
  {
    var left, rest := LeftNotes(users, users[i]), RemoveAt(users, i);
    assert before + (left + ReelectNotes(rest)) == before + left + ReelectNotes(rest);
    if |rest| == 1 {
      var appointed := [Notification([rest[0].addr], [ModeRelay])];
      assert before + (left + appointed) == before + left + appointed;
    }
  }

  /** The rest of the pass, from position `i` on. */
  function PassFrom(users: seq<User>, relay: Option<Name>, i: nat, now: Time): (p: Pass)
    requires i <= |users|
    decreases |users| - i
  {
    if i == |users| then Pass(users, relay, [])
    else if Expired(users[i], now) then
      var step := TimeOut(users, relay, i);
      var rest := PassFrom(step.users, step.relay, i, now);
      rest.(notes := step.notes + rest.notes)
    else PassFrom(users, relay, i + 1, now)
  }

  /** The final fix-up of a lone user. */
  function SettleSolo(p: Pass): Pass {
    if |p.users| != 1 then p
    else if Eligible(p.users[0]) then p.(relay := Some(p.users[0].name))
    else Pass(p.users, None, p.notes + [Notification([p.users[0].addr], [ModeServerRelay(p.users[0].name)])])
  }

  function SweepPass(c: ChannelState, now: Time): Pass {
    SettleSolo(PassFrom(c.users, c.relay, 0, now))
  }

  function SoloPing(users: seq<User>): seq<Addr> {
    if |users| == 1 && Eligible(users[0]) then [users[0].addr] else []
  }

  function Pinging(): Addr -> Datagram { (a: Addr) => Datagram(a, [Ping]) }

  /** All that a sweep sends to the members of one channel. */
  function SweepNotices(c: ChannelState, now: Time): seq<Datagram> {
    Map(Pinging(), SoloPing(SweepChannel(c, now).users)) + Sends(SweepPass(c, now).notes)
  }

  function SweepChannel(c: ChannelState, now: Time): ChannelState {
    var p := SweepPass(c, now);
    c.(users := p.users, relay := p.relay)
  }

  lemma PassStep(users: seq<User>, relay: Option<Name>, i: nat, now: Time)
    requires i < |users| && Expired(users[i], now)
    ensures var p, step := PassFrom(users, relay, i, now), TimeOut(users, relay, i);
            var tail := PassFrom(RemoveAt(users, i), step.relay, i, now);
            p.users == tail.users && p.relay == tail.relay && p.notes == step.notes + tail.notes
  {
  }

  /** The pass from here on, after `told`, ends as `p`. */
  ghost predicate Ahead(users: seq<User>, relay: Option<Name>, i: nat, now: Time, told: seq<Notification>, p: Pass) {
    && i <= |users|
    && var rest := PassFrom(users, relay, i, now);
       rest.users == p.users && rest.relay == p.relay && told + rest.notes == p.notes
  }

  lemma AheadStart(users: seq<User>, relay: Option<Name>, now: Time)
    ensures Ahead(users, relay, 0, now, [], PassFrom(users, relay, 0, now))
  {
    assert [] + PassFrom(users, relay, 0, now).notes == PassFrom(users, relay, 0, now).notes;
  }

  lemma AheadTimeOut(users: seq<User>, relay: Option<Name>, i: nat, now: Time, told: seq<Notification>, p: Pass)
    requires i < |users| && Expired(users[i], now) && Ahead(users, relay, i, now, told, p)
    ensures var step := TimeOut(users, relay, i); Ahead(step.users, step.relay, i, now, told + step.notes, p)
  {
    var step := TimeOut(users, relay, i);
    PassStep(users, relay, i, now);
    var later := PassFrom(step.users, step.relay, i, now).notes;
    assert told + (step.notes + later) == (told + step.notes) + later;
  }

  lemma AheadKeep(users: seq<User>, relay: Option<Name>, i: nat, now: Time, told: seq<Notification>, p: Pass)
    requires i < |users| && !Expired(users[i], now) && Ahead(users, relay, i, now, told, p)
    ensures Ahead(users, relay, i + 1, now, told, p)
  {
  }

  lemma AheadEnd(users: seq<User>, relay: Option<Name>, now: Time, told: seq<Notification>, p: Pass)
    requires Ahead(users, relay, |users|, now, told, p)
    ensures p == Pass(users, relay, told)
  {
  }

  // The pass is a filter

  lemma {:induction false} PassFilters(users: seq<User>, relay: Option<Name>, i: nat, now: Time)
    requires i <= |users|
    ensures PassFrom(users, relay, i, now).users == users[..i] + Filter(Alive(now), users[i..])
    decreases |users| - i
  {
    if i == |users| {
      assert users[..i] == users;
    } else {
      OneIteration(users, relay, i, now);
      if Expired(users[i], now) {
        FilterRemoved(users, i, now);
        PassFilters(RemoveAt(users, i), TimeOut(users, relay, i).relay, i, now);
      } else {
        FilterKept(users, i, now);
        PassFilters(users, relay, i + 1, now);
      }
    }
  }

  lemma FilterRemoved(users: seq<User>, i: nat, now: Time)
    requires i < |users| && Expired(users[i], now)
    ensures |RemoveAt(users, i)| == |users| - 1
    ensures RemoveAt(users, i)[..i] + Filter(Alive(now), RemoveAt(users, i)[i..])
            == users[..i] + Filter(Alive(now), users[i..])
  {
    FilterHead(users, i, now);
    assert RemoveAt(users, i)[..i] == users[..i] && RemoveAt(users, i)[i..] == users[i + 1..];
  }

  lemma FilterKept(users: seq<User>, i: nat, now: Time)
    requires i < |users| && !Expired(users[i], now)
    ensures users[..i + 1] + Filter(Alive(now), users[i + 1..]) == users[..i] + Filter(Alive(now), users[i..])
  {
    FilterHead(users, i, now);
    assert users[..i + 1] == users[..i] + [users[i]];
  }

  lemma OneIteration(users: seq<User>, relay: Option<Name>, i: nat, now: Time)
    requires i < |users|
    ensures PassFrom(users, relay, i, now).users
            == if Expired(users[i], now) then PassFrom(RemoveAt(users, i), TimeOut(users, relay, i).relay, i, now).users
               else PassFrom(users, relay, i + 1, now).users
  {
  }

  lemma FilterHead(users: seq<User>, i: nat, now: Time)
    requires i < |users|
    ensures Filter(Alive(now), users[i..])
            == (if Expired(users[i], now) then [] else [users[i]]) + Filter(Alive(now), users[i + 1..])
  {
    assert users[i..][0] == users[i] && users[i..][1..] == users[i + 1..];
  }

  /** Exactly the users not older than 40 s remain, in their order. */
  lemma SweepFilters(c: ChannelState, now: Time)
    ensures SweepChannel(c, now).users == Filter(Alive(now), c.users)
  {
    PassFilters(c.users, c.relay, 0, now);
    assert c.users[0..] == c.users;
  }

  lemma SweepKeeps(c: ChannelState, now: Time)
    ensures Evolves(c, SweepChannel(c, now))
    ensures WellFormed(c) ==> WellFormed(SweepChannel(c, now))
  {
    SweepFilters(c, now);
    EvolvesWhenUsersRemain(c, SweepChannel(c, now));
    FilterKeeps(Alive(now), c.users);
  }

  // The relay through the pass

  /** What holds at the loop head: the relay is exact, or it is the lone user left. */
  ghost predicate LoopRelay(users: seq<User>, relay: Option<Name>) {
    ExactRelay(users, relay) || (|users| == 1 && relay == Some(users[0].name))
  }

  lemma {:induction false} PassRelay(users: seq<User>, relay: Option<Name>, i: nat, now: Time)
    requires i <= |users| && LoopRelay(users, relay)
    ensures LoopRelay(PassFrom(users, relay, i, now).users, PassFrom(users, relay, i, now).relay)
    decreases |users| - i
  {
    if i == |users| {
    } else if Expired(users[i], now) {
      TimeOutRelay(users, relay, i);
      PassRelay(RemoveAt(users, i), TimeOut(users, relay, i).relay, i, now);
    } else {
      PassRelay(users, relay, i + 1, now);
    }
  }

  lemma TimeOutRelay(users: seq<User>, relay: Option<Name>, i: nat)
    requires i < |users| && LoopRelay(users, relay)
    ensures LoopRelay(RemoveAt(users, i), TimeOut(users, relay, i).relay)
  {
    var gone, rest := users[i], RemoveAt(users, i);
    if relay == Some(gone.name) {
      ExactIsPick(rest, NameOf(PickOnTimeout(rest)));
    } else if |rest| != 1 {
      ExactIsPick(users, relay);
      FindIsAtPosition(NoRelayNeeded(), users);
      assert i != Position(NoRelayNeeded(), users);
      FindWithout(NoRelayNeeded(), users, i);
      ExactIsPick(rest, relay);
    }
  }

  /** What is left of the users, and of the relay, at the end of the loop. */
  lemma PassEnds(users: seq<User>, relay: Option<Name>, now: Time)
    ensures var p := PassFrom(users, relay, 0, now);
            p.users == Filter(Alive(now), users) && (LoopRelay(users, relay) ==> LoopRelay(p.users, p.relay))
  {
    PassFilters(users, relay, 0, now);
    assert users[0..] == users && users[..0] == [];
    if LoopRelay(users, relay) {
      PassRelay(users, relay, 0, now);
    }
  }

  /** The sweep keeps the relay exact for any user list and any set of timed-out
      users, and repairs any relay value when exactly one user is left. */
  lemma SweepExact(c: ChannelState, now: Time)
    ensures RelayExact(c) || |SweepChannel(c, now).users| == 1 ==> RelayExact(SweepChannel(c, now))
  {
    var p := SweepPass(c, now);
    PickOnTimeoutIsFirst(p.users);
    if RelayExact(c) {
      PassRelay(c.users, c.relay, 0, now);
    }
    if |p.users| == 1 {
      ExactIsPick(p.users, p.relay);
    }
  }

  // Who hears of a departure

  function Carries(a: Addr, l: Line): Datagram -> bool { (d: Datagram) => d.dst == a && l in d.lines }

  /** How many of the datagrams bring line `l` to address `a`. */
  function Copies(a: Addr, l: Line, sent: seq<Datagram>): nat { |Filter(Carries(a, l), sent)| }

  lemma CopiesAppend(a: Addr, l: Line, x: seq<Notification>, y: seq<Notification>)
    ensures Sends(x + y) == Sends(x) + Sends(y)
    ensures Copies(a, l, Sends(x + y)) == Copies(a, l, Sends(x)) + Copies(a, l, Sends(y))
  {
    FlatMapAppend(Outgoing(), x, y);
    FilterAppend(Carries(a, l), Sends(x), Sends(y));
  }

  function Residents(a: Addr, users: seq<User>): nat { |Filter(LocatedAt(a), users)| }

  lemma CopiesToOneMore(u: User, rest: seq<User>, lines: seq<Line>, a: Addr, l: Line)
    ensures Copies(a, l, Map(Carrying(lines), Addrs([u] + rest)))
            == Copies(a, l, Map(Carrying(lines), Addrs(rest))) + if u.addr == a && l in lines then 1 else 0
  {
    MapCons(AddrOf(), u, rest);
    MapCons(Carrying(lines), u.addr, Addrs(rest));
    CopiesOfCons(a, l, Datagram(u.addr, lines), Map(Carrying(lines), Addrs(rest)));
  }

  lemma CopiesOfCons(a: Addr, l: Line, g: Datagram, later: seq<Datagram>)
    ensures Copies(a, l, [g] + later) == Copies(a, l, later) + if Carries(a, l)(g) then 1 else 0
  {
    assert ([g] + later)[0] == g && ([g] + later)[1..] == later;
  }

  lemma OneMoreResident(u: User, rest: seq<User>, a: Addr)
    ensures Residents(a, [u] + rest) == Residents(a, rest) + if u.addr == a then 1 else 0
  {
    assert ([u] + rest)[1..] == rest;
  }

  lemma {:induction false} CopiesToAll(peers: seq<User>, lines: seq<Line>, a: Addr, l: Line)
    ensures Copies(a, l, Map(Carrying(lines), Addrs(peers))) == if l in lines then Residents(a, peers) else 0
  {
    if peers != [] {
      var u, rest := peers[0], peers[1..];
      assert peers == [u] + rest;
      CopiesToAll(rest, lines, a, l);
      CopiesToOneMore(u, rest, lines, a, l);
      OneMoreResident(u, rest, a);
    }
  }

  lemma CopiesOfNote(dests: seq<Addr>, lines: seq<Line>)
    ensures Sends(NoteUnlessEmpty(dests, lines)) == Map(Carrying(lines), dests)
  {
    var n := Notification(dests, lines);
    assert [n][1..] == [];
    assert Sends([n]) == Outgoing()(n) + Sends([]);
  }

  lemma {:induction false} ResidentsElsewhere(a: Addr, b: Addr, users: seq<User>)
    ensures Residents(a, Filter(NotLocatedAt(b), users)) == if a == b then 0 else Residents(a, users)
  {
    if users != [] {
      ResidentsElsewhere(a, b, users[1..]);
      if NotLocatedAt(b)(users[0]) {
        assert Filter(NotLocatedAt(b), users)[1..] == Filter(NotLocatedAt(b), users[1..]);
      }
    }
  }

  lemma LeftNoteCopies(users: seq<User>, gone: User, a: Addr, l: Line)
    ensures Copies(a, l, Sends(LeftNotes(users, gone)))
            == if l == UserLeft(gone.name, gone.addr) && a != gone.addr then Residents(a, users) else 0
  {
    var peers := Filter(NotLocatedAt(gone.addr), users);
    CopiesOfNote(Addrs(peers), [UserLeft(gone.name, gone.addr)]);
    CopiesToAll(peers, [UserLeft(gone.name, gone.addr)], a, l);
    ResidentsElsewhere(a, gone.addr, users);
  }

  lemma {:induction false} SilentNotes(notes: seq<Notification>, a: Addr, l: Line)
    requires forall n :: n in notes ==> l !in n.lines
    ensures Copies(a, l, Sends(notes)) == 0
  {
    if notes != [] {
      SilentNotes(notes[1..], a, l);
      var n := notes[0];
      FilterAppend(Carries(a, l), Outgoing()(n), Sends(notes[1..]));
      forall d | d in Outgoing()(n) ensures !Carries(a, l)(d) {
        var i :| 0 <= i < |n.dests| && Outgoing()(n)[i] == d;
        assert d == Datagram(n.dests[i], n.lines) && n in notes;
      }
      FilterNone(Carries(a, l), Outgoing()(n));
    }
  }

  lemma TimeOutCopies(users: seq<User>, relay: Option<Name>, i: nat, a: Addr, name: Name, addr: Addr)
    requires i < |users|
    ensures Copies(a, UserLeft(name, addr), Sends(TimeOut(users, relay, i).notes))
            == if name == users[i].name && addr == users[i].addr && a != addr then Residents(a, users) else 0
  {
    var gone, tail := users[i], TimeOutTail(users, relay, i);
    LeftNoteCopies(users, gone, a, UserLeft(name, addr));
    TailSilent(users, relay, i, UserLeft(name, addr));
    SilentTail(LeftNotes(users, gone), tail, a, UserLeft(name, addr));
  }

  /** What follows the USER_LEFT of a timed-out user. */
  function TimeOutTail(users: seq<User>, relay: Option<Name>, i: nat): seq<Notification>
    requires i < |users|
  {
    var gone, rest := users[i], RemoveAt(users, i);
    if relay == Some(gone.name) then ReelectNotes(rest)
    else if |rest| == 1 then [Notification([rest[0].addr], [ModeRelay])] else []
  }

  lemma TailSilent(users: seq<User>, relay: Option<Name>, i: nat, l: Line)
    requires i < |users| && l.UserLeft?
    ensures forall n :: n in TimeOutTail(users, relay, i) ==> l !in n.lines
    ensures TimeOut(users, relay, i).notes == LeftNotes(users, users[i]) + TimeOutTail(users, relay, i)
  {
  }

  lemma SilentTail(notes: seq<Notification>, tail: seq<Notification>, a: Addr, l: Line)
    requires forall n :: n in tail ==> l !in n.lines
    ensures Copies(a, l, Sends(notes + tail)) == Copies(a, l, Sends(notes))
  {
    SilentNotes(tail, a, l);
    CopiesAppend(a, l, notes, tail);
  }

  lemma {:induction false} NoCopiesOfStrangers(users: seq<User>, relay: Option<Name>, i: nat, now: Time, a: Addr,
                                               name: Name, addr: Addr)
    requires i <= |users| && forall u :: u in users ==> u.name != name
    ensures Copies(a, UserLeft(name, addr), Sends(PassFrom(users, relay, i, now).notes)) == 0
    decreases |users| - i
  {
    if i < |users| {
      if Expired(users[i], now) {
        RemoveAtMembers(users, i);
        assert users[i] in users;
        NoCopiesOfStrangers(RemoveAt(users, i), TimeOut(users, relay, i).relay, i, now, a, name, addr);
        CopiesOfOneStep(users, relay, i, now, a, name, addr);
      } else {
        NoCopiesOfStrangers(users, relay, i + 1, now, a, name, addr);
      }
    }
  }

  /** A user list seen from one of its users: those kept so far, those whose turn
      comes before `gone`, `gone`, and those after it. */
  function Row(kept: seq<User>, before: seq<User>, gone: User, after: seq<User>): seq<User> {
    kept + before + [gone] + after
  }

  lemma RowNext(kept: seq<User>, before: seq<User>, gone: User, after: seq<User>)
    requires before != []
    ensures var row := Row(kept, before, gone, after);
            && |kept| < |row| && row[|kept|] == before[0]
            && RemoveAt(row, |kept|) == Row(kept, before[1..], gone, after)
            && row == Row(kept + [before[0]], before[1..], gone, after)
  {
  }

  lemma RowTurn(kept: seq<User>, gone: User, after: seq<User>)
    ensures var row := Row(kept, [], gone, after);
            |kept| < |row| && row[|kept|] == gone && RemoveAt(row, |kept|) == kept + after
                && row == kept + ([gone] + after)
  {
  }

  lemma OneElsewhere(kept: seq<User>, gone: User, after: seq<User>, a: Addr)
    requires a != gone.addr
    ensures Residents(a, kept + ([gone] + after)) == Residents(a, kept + after)
  {
    FilterAppend(LocatedAt(a), kept, [gone] + after);
    FilterAppend(LocatedAt(a), kept, after);
    assert ([gone] + after)[1..] == after;
  }

  /** Who hears of `gone`, the pass having reached position `|kept|`. */
  ghost predicate AllTold(kept: seq<User>, before: seq<User>, gone: User, after: seq<User>, relay: Option<Name>,
                          now: Time, a: Addr) {
    Copies(a, UserLeft(gone.name, gone.addr), Sends(PassFrom(Row(kept, before, gone, after), relay, |kept|, now).notes))
    == if a == gone.addr then 0 else Residents(a, kept + Filter(Alive(now), before) + after)
  }

  lemma ToldAtTurn(kept: seq<User>, gone: User, after: seq<User>, relay: Option<Name>, now: Time, a: Addr)
    requires Expired(gone, now) && forall u :: u in kept || u in after ==> u.name != gone.name
    ensures AllTold(kept, [], gone, after, relay, now, a)
  {
    var row, i := Row(kept, [], gone, after), |kept|;
    RowTurn(kept, gone, after);
    if a != gone.addr {
      OneElsewhere(kept, gone, after, a);
    }
    CopiesOfOneStep(row, relay, i, now, a, gone.name, gone.addr);
    NoCopiesOfStrangers(kept + after, TimeOut(row, relay, i).relay, i, now, a, gone.name, gone.addr);
    assert kept + Filter(Alive(now), []) + after == kept + after;
  }

  lemma ToldAfterRemoval(kept: seq<User>, before: seq<User>, gone: User, after: seq<User>, relay: Option<Name>,
                         now: Time, a: Addr)
    requires before != [] && before[0].name != gone.name && Expired(before[0], now)
    requires var row := Row(kept, before, gone, after);
             AllTold(kept, before[1..], gone, after, TimeOut(row, relay, |kept|).relay, now, a)
    ensures AllTold(kept, before, gone, after, relay, now, a)
  {
    RowNext(kept, before, gone, after);
    CopiesOfOneStep(Row(kept, before, gone, after), relay, |kept|, now, a, gone.name, gone.addr);
  }

  lemma ToldAfterKeeping(kept: seq<User>, before: seq<User>, gone: User, after: seq<User>, relay: Option<Name>,
                         now: Time, a: Addr)
    requires before != [] && !Expired(before[0], now)
             && AllTold(kept + [before[0]], before[1..], gone, after, relay, now, a)
    ensures AllTold(kept, before, gone, after, relay, now, a)
  {
    RowNext(kept, before, gone, after);
    var rest := Filter(Alive(now), before[1..]);
    assert kept + [before[0]] + rest + after == kept + ([before[0]] + rest) + after;
  }

  lemma {:induction false} EachTurn(kept: seq<User>, before: seq<User>, gone: User, after: seq<User>,
                                    relay: Option<Name>, now: Time, a: Addr)
    requires Expired(gone, now) && forall u :: u in kept || u in before || u in after ==> u.name != gone.name
    ensures AllTold(kept, before, gone, after, relay, now, a)
    decreases |before|
  {
    if before == [] {
      ToldAtTurn(kept, gone, after, relay, now, a);
    } else {
      assert before[0] in before && forall u :: u in before[1..] ==> u in before;
      if Expired(before[0], now) {
        EachTurn(kept, before[1..], gone, after, TimeOut(Row(kept, before, gone, after), relay, |kept|).relay, now, a);
        ToldAfterRemoval(kept, before, gone, after, relay, now, a);
      } else {
        EachTurn(kept + [before[0]], before[1..], gone, after, relay, now, a);
        ToldAfterKeeping(kept, before, gone, after, relay, now, a);
      }
    }
  }

  /** The USER_LEFT of the user at position `k` goes to everyone listed when its turn
      comes, the survivors before it and all users after it, minus its own address. */
  lemma PassLeftCopies(users: seq<User>, relay: Option<Name>, k: nat, now: Time, a: Addr)
    requires k < |users| && DistinctNames(users) && Expired(users[k], now)
    ensures Copies(a, UserLeft(users[k].name, users[k].addr), Sends(PassFrom(users, relay, 0, now).notes))
            == if a == users[k].addr then 0
               else Residents(a, Filter(Alive(now), users[..k])) + Residents(a, users[k + 1..])
  {
    var before, gone, after := users[..k], users[k], users[k + 1..];
    SplitAround(users, k);
    RowFromStart(before, gone, after);
    NamedApart(users, k);
    EachTurn([], before, gone, after, relay, now, a);
    ResidentsOfTwo(a, Filter(Alive(now), before), after);
  }

  lemma RowFromStart(before: seq<User>, gone: User, after: seq<User>)
    ensures Row([], before, gone, after) == before + ([gone] + after)
  {
  }

  lemma ResidentsOfTwo(a: Addr, x: seq<User>, y: seq<User>)
    ensures Residents(a, [] + x + y) == Residents(a, x) + Residents(a, y)
  {
    assert [] + x + y == x + y;
    FilterAppend(LocatedAt(a), x, y);
  }

  lemma CopiesOfOneStep(users: seq<User>, relay: Option<Name>, i: nat, now: Time, a: Addr, name: Name, addr: Addr)
    requires i < |users| && Expired(users[i], now)
    ensures Copies(a, UserLeft(name, addr), Sends(PassFrom(users, relay, i, now).notes))
            == (if name == users[i].name && addr == users[i].addr && a != addr then Residents(a, users) else 0)
               + Copies(a, UserLeft(name, addr),
                        Sends(PassFrom(RemoveAt(users, i), TimeOut(users, relay, i).relay, i, now).notes))
  {
    var step := TimeOut(users, relay, i);
    CopiesAppend(a, UserLeft(name, addr), step.notes, PassFrom(step.users, step.relay, i, now).notes);
    TimeOutCopies(users, relay, i, a, name, addr);
  }

  lemma {:induction false} OneResident(users: seq<User>, s: User)
    requires DistinctAddrs(users)
    ensures Residents(s.addr, users) <= 1
    ensures s in users ==> Residents(s.addr, users) == 1
  {
    if users != [] {
      OneResident(users[1..], s);
      if users[0].addr == s.addr {
        NoResident(users[1..], s.addr);
      }
    }
  }

  /** Every survivor of a sweep is told exactly once of every user it removed, when
      names and addresses are distinct. */
  lemma SurvivorsHearOnce(c: ChannelState, now: Time, s: User, d: User)
    requires DistinctNames(c.users) && DistinctAddrs(c.users)
    requires s in SweepChannel(c, now).users && d in c.users && d !in SweepChannel(c, now).users
    ensures Copies(s.addr, UserLeft(d.name, d.addr), Sends(SweepPass(c, now).notes)) == 1
  {
    SweepFilters(c, now);
    var k :| 0 <= k < |c.users| && c.users[k] == d;
    var j :| 0 <= j < |c.users| && c.users[j] == s;
    PassLeftCopies(c.users, c.relay, k, now, s.addr);
    SoloNoteSilent(c, now, s.addr, UserLeft(d.name, d.addr));
    ListedOnce(c.users, j, k, now);
  }

  lemma ListedOnce(users: seq<User>, j: nat, k: nat, now: Time)
    requires DistinctAddrs(users) && j < |users| && k < |users| && j != k && !Expired(users[j], now)
    ensures users[j].addr != users[k].addr
    ensures Residents(users[j].addr, Filter(Alive(now), users[..k])) + Residents(users[j].addr, users[k + 1..]) == 1
  {
    if j < k { ListedBefore(users, j, k, now); } else { ListedAfter(users, j, k, now); }
  }

  lemma ListedBefore(users: seq<User>, j: nat, k: nat, now: Time)
    requires DistinctAddrs(users) && j < k < |users| && !Expired(users[j], now)
    ensures Residents(users[j].addr, Filter(Alive(now), users[..k])) == 1
    ensures Residents(users[j].addr, users[k + 1..]) == 0
  {
    assert users[..k][j] == users[j];
    FilterKeeps(Alive(now), users[..k]);
    OneResident(Filter(Alive(now), users[..k]), users[j]);
    NoResident(users[k + 1..], users[j].addr);
  }

  lemma ListedAfter(users: seq<User>, j: nat, k: nat, now: Time)
    requires DistinctAddrs(users) && k < j < |users|
    ensures Residents(users[j].addr, Filter(Alive(now), users[..k])) == 0
    ensures Residents(users[j].addr, users[k + 1..]) == 1
  {
    assert users[k + 1..][j - k - 1] == users[j];
    OneResident(users[k + 1..], users[j]);
    NoResident(Filter(Alive(now), users[..k]), users[j].addr);
  }

  lemma NoResident(users: seq<User>, a: Addr)
    requires forall u :: u in users ==> u.addr != a
    ensures Residents(a, users) == 0
  {
    FilterNone(LocatedAt(a), users);
  }

  lemma SoloNoteSilent(c: ChannelState, now: Time, a: Addr, l: Line)
    requires l.UserLeft?
    ensures Copies(a, l, Sends(SweepPass(c, now).notes))
            == Copies(a, l, Sends(PassFrom(c.users, c.relay, 0, now).notes))
  {
    var p := PassFrom(c.users, c.relay, 0, now);
    if |p.users| == 1 && !Eligible(p.users[0]) {
      var note := [Notification([p.users[0].addr], [ModeServerRelay(p.users[0].name)])];
      SilentNotes(note, a, l);
      CopiesAppend(a, l, p.notes, note);
    }
  }
}
