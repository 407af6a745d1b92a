/** What a sweep tells the survivors about the relay: who is introduced to whom, and
    exactly when it appoints someone who is not the relay it leaves. */
module SweepNews {
  import opened ChannelRounds
  import opened ChannelSteps
  import opened Election
  import opened Seqs
  import opened Structures
  import opened Sweep
  import opened Wrappers

  /** A notification brings line `l` to address `a`. */
  ghost predicate Hears(notes: seq<Notification>, a: Addr, l: Line) {
    exists n :: n in notes && a in n.dests && l in n.lines
  }

  // A changed relay is announced

  /** `r` hears that it is the relay, and it and everyone else hear of each other. */
  ghost predicate RelayProclaimed(notes: seq<Notification>, r: User, users: seq<User>) {
    && Hears(notes, r.addr, ModeRelay)
    && forall u :: u in users && u.name != r.name ==>
         Hears(notes, u.addr, ModeDirect(r.name, r.addr)) && Hears(notes, r.addr, ModeDirect(u.name, u.addr))
  }

  ghost predicate ServerProclaimed(notes: seq<Notification>, users: seq<User>) {
    forall u, v :: u in users && v in users ==> Hears(notes, u.addr, ModeServerRelay(v.name))
  }

  /** The relay `p` ends with, someone of `pool`, has been announced to those left. */
  ghost predicate Proclaimed(pool: seq<User>, p: Pass) {
    match p.relay
    case Some(n) => exists r :: r in pool && r.name == n && RelayProclaimed(p.notes, r, p.users)
    case None => ServerProclaimed(p.notes, p.users)
  }

  lemma HearsMore(more: seq<Notification>, notes: seq<Notification>, a: Addr, l: Line)
    requires Hears(notes, a, l)
    ensures Hears(notes + more, a, l) && Hears(more + notes, a, l)
  {
    var n :| n in notes && a in n.dests && l in n.lines;
    assert n in notes + more && n in more + notes;
  }

  /** Being announced does not suffer from more notes and fewer users. */
  lemma ProclaimedStill(pool: seq<User>, p: Pass, q: Pass, more: seq<Notification>)
    requires Proclaimed(pool, p) && q.relay == p.relay && (q.notes == p.notes + more || q.notes == more + p.notes)
    requires forall u :: u in q.users ==> u in p.users
    ensures Proclaimed(pool, q)
  {
    forall a, l | Hears(p.notes, a, l) ensures Hears(q.notes, a, l) {
      HearsMore(more, p.notes, a, l);
    }
    match p.relay
    case Some(n) =>
      var r :| r in pool && r.name == n && RelayProclaimed(p.notes, r, p.users);
      assert RelayProclaimed(q.notes, r, q.users);
    case None => assert ServerProclaimed(q.notes, q.users);
  }

  lemma ReelectionIntroduces(users: seq<User>, r: User, u: User)
    requires PickOnTimeout(users) == Some(r) && u in users && u.name != r.name
    ensures Hears(ReelectNotes(users), u.addr, ModeDirect(r.name, r.addr))
    ensures Hears(ReelectNotes(users), r.addr, ModeDirect(u.name, u.addr))
  {
    var peers, notes := Filter(NotNamed(r.name), users), ReelectNotes(users);
    MapHas(AddrOf(), peers, u);
    MapHas(IntroductionOf(r), peers, u);
    MapHas(Introduction(), peers, u);
    var told := Notification(Addrs(peers), Map(IntroductionOf(r), peers));
    assert notes[1] == told && notes[2] == Notification([r.addr], Map(Introduction(), peers));
  }

  lemma ReelectionProclaims(users: seq<User>)
    ensures Proclaimed(users, Pass(users, NameOf(PickOnTimeout(users)), ReelectNotes(users)))
  {
    PickOnTimeoutIsFirst(users);
    var notes := ReelectNotes(users);
    match PickOnTimeout(users)
    case Some(r) =>
      forall u | u in users && u.name != r.name
        ensures Hears(notes, u.addr, ModeDirect(r.name, r.addr)) && Hears(notes, r.addr, ModeDirect(u.name, u.addr))
      {
        ReelectionIntroduces(users, r, u);
      }
      assert notes[0] == Notification([r.addr], [ModeRelay]);
      assert RelayProclaimed(notes, r, users);
    case None =>
      forall u, v | u in users && v in users ensures Hears(notes, u.addr, ModeServerRelay(v.name)) {
        AllServedHeard(users, u, v);
      }
  }

  /** What re-election says: a new relay is told so, and it and each other user are
      introduced to each other; without one everyone hears that the server relays for
      everyone. */
  ghost predicate ReelectionSays(users: seq<User>, a: Addr, l: Line) {
    match PickOnTimeout(users)
    case Some(r) => (a == r.addr && l == ModeRelay) || exists u :: Acquaints(users, r, u, a, l)
    case None => exists u, v :: u in users && v in users && a == u.addr && l == ModeServerRelay(v.name)
  }

  ghost predicate Acquaints(users: seq<User>, r: User, u: User, a: Addr, l: Line) {
    && u in users && u.name != r.name
    && ((a == u.addr && l == ModeDirect(r.name, r.addr)) || (a == r.addr && l == ModeDirect(u.name, u.addr)))
  }

  /** Both directions: nobody is left out and nothing else is said. */
  lemma ReelectionHeard(users: seq<User>, a: Addr, l: Line)
    ensures Hears(ReelectNotes(users), a, l) <==> ReelectionSays(users, a, l)
  {
    if Hears(ReelectNotes(users), a, l) {
      var n :| n in ReelectNotes(users) && a in n.dests && l in n.lines;
      match PickOnTimeout(users)
      case Some(r) => OnlyIntroductions(users, r, n, a, l);
      case None => OnlyServerRelays(users, n, a, l);
    }
    if ReelectionSays(users, a, l) {
      ReelectionReaches(users, a, l);
    }
  }

  lemma ReelectionReaches(users: seq<User>, a: Addr, l: Line)
    requires ReelectionSays(users, a, l)
    ensures Hears(ReelectNotes(users), a, l)
  {
    var elected := PickOnTimeout(users);
    if elected.None? {
      LeaderlessReached(users, a, l);
    } else if a == elected.value.addr && l == ModeRelay {
      AppointmentHeard(users, elected.value);
    } else {
      var u :| Acquaints(users, elected.value, u, a, l);
      AcquaintanceHeard(users, elected.value, u, a, l);
    }
  }

  lemma AcquaintanceHeard(users: seq<User>, r: User, u: User, a: Addr, l: Line)
    requires PickOnTimeout(users) == Some(r) && Acquaints(users, r, u, a, l)
    ensures Hears(ReelectNotes(users), a, l)
  {
    ReelectionIntroduces(users, r, u);
  }

  lemma LeaderlessReached(users: seq<User>, a: Addr, l: Line)
    requires PickOnTimeout(users).None? && ReelectionSays(users, a, l)
    ensures Hears(ReelectNotes(users), a, l)
  {
    var u, v :| u in users && v in users && a == u.addr && l == ModeServerRelay(v.name);
    AllServedHeard(users, u, v);
  }

  lemma AppointmentHeard(users: seq<User>, r: User)
    requires PickOnTimeout(users) == Some(r)
    ensures Hears(ReelectNotes(users), r.addr, ModeRelay)
  {
    assert ReelectNotes(users)[0] == Notification([r.addr], [ModeRelay]);
  }

  lemma AllServedHeard(users: seq<User>, u: User, v: User)
    requires PickOnTimeout(users).None? && u in users && v in users
    ensures Hears(ReelectNotes(users), u.addr, ModeServerRelay(v.name))
  {
    MapHas(AddrOf(), users, u);
    MapHas(ServerRelayLine(), users, v);
    assert ReelectNotes(users)[0] == Notification(Addrs(users), Map(ServerRelayLine(), users));
  }

  lemma OnlyServerRelays(users: seq<User>, n: Notification, a: Addr, l: Line)
    requires PickOnTimeout(users).None? && n in ReelectNotes(users) && a in n.dests && l in n.lines
    ensures ReelectionSays(users, a, l)
  {
    var i :| 0 <= i < |users| && Addrs(users)[i] == a;
    var j :| 0 <= j < |users| && Map(ServerRelayLine(), users)[j] == l;
    assert users[i] in users && users[j] in users;
  }

  lemma OnlyIntroductions(users: seq<User>, r: User, n: Notification, a: Addr, l: Line)
    requires PickOnTimeout(users) == Some(r) && n in ReelectNotes(users) && a in n.dests && l in n.lines
    ensures ReelectionSays(users, a, l)
  {
    var peers := Filter(NotNamed(r.name), users);
    if n == Notification(Addrs(peers), Map(IntroductionOf(r), peers)) {
      var i :| 0 <= i < |peers| && Addrs(peers)[i] == a;
      assert peers[i] in peers && Acquaints(users, r, peers[i], a, l);
    } else if n == Notification([r.addr], Map(Introduction(), peers)) {
      var i :| 0 <= i < |peers| && Map(Introduction(), peers)[i] == l;
      assert peers[i] in peers && Acquaints(users, r, peers[i], a, l);
    }
  }

  /** Whom the removal of one user tells what: everyone elsewhere of the departure, and of
      the relay what re-election says, or a lone user left that it is the relay. */
  lemma TimeOutHeard(users: seq<User>, relay: Option<Name>, i: nat, a: Addr, l: Line)
    requires i < |users|
    ensures var gone, rest := users[i], RemoveAt(users, i);
            Hears(TimeOut(users, relay, i).notes, a, l) <==>
            || (l == UserLeft(gone.name, gone.addr) && a != gone.addr && exists u :: u in users && u.addr == a)
            || (if relay == Some(gone.name) then ReelectionSays(rest, a, l)
                else |rest| == 1 && a == rest[0].addr && l == ModeRelay)
  {
    var gone, rest := users[i], RemoveAt(users, i);
    LeaverHeard(users, gone, a, l);
    TailSilent(users, relay, i, UserLeft(gone.name, gone.addr));
    HearsEither(LeftNotes(users, gone), TimeOutTail(users, relay, i), a, l);
    if relay == Some(gone.name) {
      ReelectionHeard(rest, a, l);
    } else if |rest| == 1 {
      assert TimeOutTail(users, relay, i)[0] == Notification([rest[0].addr], [ModeRelay]);
    }
  }

  lemma HearsEither(x: seq<Notification>, y: seq<Notification>, a: Addr, l: Line)
    ensures Hears(x + y, a, l) <==> Hears(x, a, l) || Hears(y, a, l)
  {
    if Hears(x, a, l) {
      HearsMore(y, x, a, l);
    }
    if Hears(y, a, l) {
      HearsMore(x, y, a, l);
    }
  }

  lemma LeaverHeard(users: seq<User>, gone: User, a: Addr, l: Line)
    ensures Hears(LeftNotes(users, gone), a, l) <==>
            l == UserLeft(gone.name, gone.addr) && a != gone.addr && exists u :: u in users && u.addr == a
  {
    var peers := Filter(NotLocatedAt(gone.addr), users);
    if a in Addrs(peers) {
      var j :| 0 <= j < |peers| && Addrs(peers)[j] == a;
      assert peers[j] in peers;
    }
    if l == UserLeft(gone.name, gone.addr) && a != gone.addr && exists u :: u in users && u.addr == a {
      var u :| u in users && u.addr == a;
      MapHas(AddrOf(), peers, u);
      assert LeftNotes(users, gone)[0] == Notification(Addrs(peers), [l]);
    }
  }

  lemma TimeOutProclaims(users: seq<User>, relay: Option<Name>, i: nat)
    requires i < |users|
    ensures var p := TimeOut(users, relay, i); p.relay == relay || Proclaimed(p.users, p)
  {
    var gone, rest, p := users[i], RemoveAt(users, i), TimeOut(users, relay, i);
    if relay == Some(gone.name) {
      ReelectionProclaims(rest);
      ProclaimedStill(rest, Pass(rest, p.relay, ReelectNotes(rest)), p, LeftNotes(users, gone));
    } else if |rest| == 1 {
      assert rest[0] in rest && p.notes[|p.notes| - 1] == Notification([rest[0].addr], [ModeRelay]);
      assert RelayProclaimed(p.notes, rest[0], p.users);
    }
  }

  lemma {:induction false} PassProclaims(users: seq<User>, relay: Option<Name>, i: nat, now: Time)
    requires i <= |users|
    ensures var p := PassFrom(users, relay, i, now); p.relay == relay || Proclaimed(users, p)
    decreases |users| - i
  {
    if i < |users| {
      if Expired(users[i], now) {
        var step := TimeOut(users, relay, i);
        var tail := PassFrom(step.users, step.relay, i, now);
        var p := PassFrom(users, relay, i, now);
        TimeOutProclaims(users, relay, i);
        PassProclaims(step.users, step.relay, i, now);
        PassShrinks(step.users, step.relay, i, now);
        RemoveAtMembers(users, i);
        if tail.relay != step.relay {
          ProclaimedStill(step.users, tail, p, step.notes);
          ProclaimedFrom(step.users, users, p);
        } else if step.relay != relay {
          ProclaimedStill(step.users, step, p, tail.notes);
          ProclaimedFrom(step.users, users, p);
        }
      } else {
        PassProclaims(users, relay, i + 1, now);
      }
    }
  }

  lemma ProclaimedFrom(pool: seq<User>, larger: seq<User>, p: Pass)
    requires Proclaimed(pool, p) && forall u :: u in pool ==> u in larger
    ensures Proclaimed(larger, p)
  {
  }

  lemma PassShrinks(users: seq<User>, relay: Option<Name>, i: nat, now: Time)
    requires i <= |users|
    ensures var p := PassFrom(users, relay, i, now);
            |p.users| <= |users| && forall u :: u in p.users ==> u in users
  {
    PassFilters(users, relay, i, now);
  }

  /** When a sweep leaves an exact relay changed, however many relays failed on the way:
      the relay it leaves is a survivor that has been told, and it and every other
      survivor have been introduced to each other; without a relay every survivor has
      been told that the server relays for every survivor. */
  lemma SweptRelayProclaimed(c: ChannelState, now: Time)
    requires DistinctNames(c.users) && RelayExact(c)
    ensures SweepChannel(c, now).relay != c.relay ==> Proclaimed(SweepChannel(c, now).users, SweepPass(c, now))
  {
    var d, p := SweepChannel(c, now), PassFrom(c.users, c.relay, 0, now);
    PassProclaims(c.users, c.relay, 0, now);
    PassRelay(c.users, c.relay, 0, now);
    if |p.users| == 1 && !Eligible(p.users[0]) {
      LonerProclaimed(p);
    } else {
      SoloKeepsRelay(p);
      SweepExact(c, now);
      PassShrinks(c.users, c.relay, 0, now);
      if d.relay != c.relay {
        ProclaimedBySurvivor(c.users, d, p);
      }
    }
  }

  lemma LonerProclaimed(p: Pass)
    requires |p.users| == 1 && !Eligible(p.users[0])
    ensures Proclaimed(p.users, SettleSolo(p))
  {
    var u, q := p.users[0], SettleSolo(p);
    assert q.notes[|p.notes|] == Notification([u.addr], [ModeServerRelay(u.name)]);
  }

  lemma SoloKeepsRelay(p: Pass)
    requires LoopRelay(p.users, p.relay) && !(|p.users| == 1 && !Eligible(p.users[0]))
    ensures SettleSolo(p) == p
  {
    if |p.users| == 1 {
      LoneExact(p.users[0], p.relay);
      assert p.users == [p.users[0]];
    }
  }

  lemma ProclaimedBySurvivor(users: seq<User>, d: ChannelState, p: Pass)
    requires DistinctNames(users) && Proclaimed(users, p) && d.users == p.users && d.relay == p.relay && RelayExact(d)
    requires forall u :: u in d.users ==> u in users
    ensures Proclaimed(d.users, p)
  {
    if d.relay.Some? {
      var r :| r in users && r.name == d.relay.value && RelayProclaimed(p.notes, r, p.users);
      ExactRelayIsMember(d.users, r.name);
      var v :| v in d.users && v.name == r.name;
      SameName(users, r, v);
    }
  }

  // A relay that survives

  /** While the relay's user stays listed the relay does not change, and all that is
      told is who has left and, to the relay, that it is the relay. */
  lemma {:induction false} PassSpares(users: seq<User>, relay: Option<Name>, i: nat, now: Time, r: User)
    requires i <= |users| && DistinctNames(users) && relay == Some(r.name)
    requires r in PassFrom(users, relay, i, now).users
    ensures var p := PassFrom(users, relay, i, now);
            && p.relay == relay
            && forall n :: n in p.notes ==> OfLeaver(users, n, now) || n == Notification([r.addr], [ModeRelay])
    decreases |users| - i
  {
    if i < |users| {
      if Expired(users[i], now) {
        var rest := RemoveAt(users, i);
        PassShrinks(rest, TimeOut(users, relay, i).relay, i, now);
        RemoveAtMembers(users, i);
        StepSpares(users, relay, i, now, r);
        PassSpares(rest, relay, i, now, r);
      } else {
        PassSpares(users, relay, i + 1, now, r);
      }
    }
  }

  lemma StepSpares(users: seq<User>, relay: Option<Name>, i: nat, now: Time, r: User)
    requires i < |users| && DistinctNames(users) && relay == Some(r.name) && r in RemoveAt(users, i)
             && Expired(users[i], now)
    ensures var p := TimeOut(users, relay, i);
            && p.relay == relay
            && forall n :: n in p.notes ==> OfLeaver(users, n, now) || n == Notification([r.addr], [ModeRelay])
  {
    var gone, rest := users[i], RemoveAt(users, i);
    RemoveAtIsFilter(users, i);
    assert gone in users && relay != Some(gone.name);
    TailSilent(users, relay, i, UserLeft(gone.name, gone.addr));
    forall n | n in LeftNotes(users, gone) ensures OfLeaver(users, n, now) {
      assert n.lines == [UserLeft(gone.name, gone.addr)];
    }
    assert |rest| == 1 ==> rest[0] == r;
  }

  /** `n` says that an expired user of `users` has left. */
  ghost predicate OfLeaver(users: seq<User>, n: Notification, now: Time) {
    exists g :: g in users && Expired(g, now) && n.lines == [UserLeft(g.name, g.addr)]
  }

  // Who is appointed without being the relay in the end

  function Gone(now: Time): User -> bool { (u: User) => Expired(u, now) }

  /** The last user in list order whose time is up, from position `i` on, needs the server. */
  predicate LastGoneServed(users: seq<User>, i: nat, now: Time)
    requires i <= |users|
  {
    var gone := Filter(Gone(now), users[i..]);
    gone != [] && gone[|gone| - 1].needsServerRelay
  }

  lemma GoneNext(users: seq<User>, i: nat, now: Time)
    requires i < |users|
    ensures Expired(users[i], now) ==>
              Filter(Gone(now), users[i..]) == [users[i]] + Filter(Gone(now), RemoveAt(users, i)[i..])
    ensures !Expired(users[i], now) ==> Filter(Gone(now), users[i..]) == Filter(Gone(now), users[i + 1..])
  {
    assert users[i..][0] == users[i] && users[i..][1..] == users[i + 1..];
    RemovedTail(users, i);
  }

  lemma RemovedTail(users: seq<User>, i: nat)
    requires i < |users|
    ensures RemoveAt(users, i)[i..] == users[i + 1..]
  {
  }

  /** What the time-out of one user leads to for `u`, if it stays listed. */
  lemma StepAppoints(users: seq<User>, relay: Option<Name>, i: nat, now: Time, u: User)
    requires i < |users| && Expired(users[i], now) && DistinctNames(users) && DistinctAddrs(users)
             && LoopRelay(users, relay)
    requires u in PassFrom(users, relay, i, now).users && Hears(TimeOut(users, relay, i).notes, u.addr, ModeRelay)
    ensures var p := PassFrom(users, relay, i, now);
            if Eligible(u) then p.relay == Some(u.name) else p.users == [u] && LastGoneServed(users, i, now)
  {
    var gone, rest, step := users[i], RemoveAt(users, i), TimeOut(users, relay, i);
    PassShrinks(rest, step.relay, i, now);
    RemoveAtMembers(users, i);
    AppointeeOfStep(users, relay, i, u);
    if Eligible(u) {
      PassSpares(rest, step.relay, i, now, u);
    } else {
      assert rest == [u];
      LonerStays(rest, step.relay, i, now, u);
      GoneNext(users, i, now);
      LoserServed(users, relay, i, u);
    }
  }

  /** The time-out of a user appoints the relay it leads to, which is eligible or alone. */
  lemma AppointeeOfStep(users: seq<User>, relay: Option<Name>, i: nat, u: User)
    requires i < |users| && DistinctAddrs(users) && u in RemoveAt(users, i)
    requires Hears(TimeOut(users, relay, i).notes, u.addr, ModeRelay)
    ensures TimeOut(users, relay, i).relay == Some(u.name)
    ensures Eligible(u) || (RemoveAt(users, i) == [u] && relay != Some(users[i].name))
  {
    var gone, rest := users[i], RemoveAt(users, i);
    TailSilent(users, relay, i, UserLeft(gone.name, gone.addr));
    var n :| n in TimeOut(users, relay, i).notes && u.addr in n.dests && ModeRelay in n.lines;
    assert n !in LeftNotes(users, gone);
    if relay == Some(gone.name) {
      RemovalKeepsAddrs(users, i);
      ElectedAtAddr(rest, u, n);
    }
  }

  lemma ElectedAtAddr(rest: seq<User>, u: User, n: Notification)
    requires DistinctAddrs(rest) && u in rest && n in ReelectNotes(rest) && u.addr in n.dests && ModeRelay in n.lines
    ensures PickOnTimeout(rest) == Some(u) && Eligible(u)
  {
    ElectionAppoints(rest, n);
    SameAddr(rest, u, PickOnTimeout(rest).value);
  }

  lemma ElectionAppoints(users: seq<User>, n: Notification)
    requires n in ReelectNotes(users) && ModeRelay in n.lines
    ensures PickOnTimeout(users).Some?
    ensures var r := PickOnTimeout(users).value; r in users && Eligible(r) && n.dests == [r.addr]
  {
    PickOnTimeoutIsFirst(users);
    match PickOnTimeout(users)
    case Some(r) =>
      var peers := Filter(NotNamed(r.name), users);
      assert ModeRelay !in Map(IntroductionOf(r), peers) && ModeRelay !in Map(Introduction(), peers);
    case None =>
  }

  lemma PairOf(users: seq<User>, i: nat, u: User)
    requires i < |users| && RemoveAt(users, i) == [u]
    ensures |users| == 2 && users[1 - i] == u
  {
    assert |RemoveAt(users, i)| == 1 && RemoveAt(users, i)[0] == u;
  }

  lemma LonerStays(rest: seq<User>, relay: Option<Name>, i: nat, now: Time, u: User)
    requires i <= |rest| && rest == [u] && u in PassFrom(rest, relay, i, now).users
    ensures PassFrom(rest, relay, i, now).users == [u] && Filter(Gone(now), rest[i..]) == []
  {
    PassFilters(rest, relay, i, now);
    if i == 0 {
      assert rest[0..] == [u] && rest[..0] == [];
    }
  }

  /** A user that leaves one served user behind, and was not the relay, was served. */
  lemma LoserServed(users: seq<User>, relay: Option<Name>, i: nat, u: User)
    requires i < |users| && LoopRelay(users, relay) && relay != Some(users[i].name)
    requires RemoveAt(users, i) == [u] && !Eligible(u)
    ensures users[i].needsServerRelay && relay.None?
  {
    PairOf(users, i, u);
    var f :| FirstEligible(users, f) && NameOf(f) == relay;
    assert users[0] in users && users[1] in users;
  }

  /** A survivor that hears it is the relay is the relay left, or is alone, needs the
      server, and lost a served user last. */
  ghost predicate RightlyAppointed(users: seq<User>, relay: Option<Name>, i: nat, now: Time, u: User)
    requires i <= |users|
  {
    var p := PassFrom(users, relay, i, now);
    u in p.users && Hears(p.notes, u.addr, ModeRelay) ==>
      if Eligible(u) then p.relay == Some(u.name) else p.users == [u] && LastGoneServed(users, i, now)
  }

  lemma AppointsAfterStep(users: seq<User>, relay: Option<Name>, i: nat, now: Time, u: User)
    requires i < |users| && Expired(users[i], now) && DistinctNames(users) && DistinctAddrs(users)
             && LoopRelay(users, relay)
    requires RightlyAppointed(RemoveAt(users, i), TimeOut(users, relay, i).relay, i, now, u)
    ensures RightlyAppointed(users, relay, i, now, u)
  {
    var step, p := TimeOut(users, relay, i), PassFrom(users, relay, i, now);
    PassStep(users, relay, i, now);
    if u in p.users && Hears(p.notes, u.addr, ModeRelay) {
      if Hears(step.notes, u.addr, ModeRelay) {
        StepAppoints(users, relay, i, now, u);
      } else {
        HeardLater(step.notes, PassFrom(RemoveAt(users, i), step.relay, i, now).notes, u.addr, ModeRelay);
        GoneNext(users, i, now);
      }
    }
  }

  lemma HeardLater(x: seq<Notification>, y: seq<Notification>, a: Addr, l: Line)
    requires Hears(x + y, a, l) && !Hears(x, a, l)
    ensures Hears(y, a, l)
  {
    var n :| n in x + y && a in n.dests && l in n.lines;
    assert n !in x;
  }

  lemma {:induction false} PassAppoints(users: seq<User>, relay: Option<Name>, i: nat, now: Time, u: User)
    requires i <= |users| && DistinctNames(users) && DistinctAddrs(users) && LoopRelay(users, relay)
    ensures RightlyAppointed(users, relay, i, now, u)
    decreases |users| - i
  {
    if i < |users| {
      if Expired(users[i], now) {
        RemoveAtMembers(users, i);
        RemovalKeepsAddrs(users, i);
        TimeOutRelay(users, relay, i);
        PassAppoints(RemoveAt(users, i), TimeOut(users, relay, i).relay, i, now, u);
        AppointsAfterStep(users, relay, i, now, u);
      } else {
        PassAppoints(users, relay, i + 1, now, u);
        GoneNext(users, i, now);
      }
    }
  }

  lemma RemovalKeepsAddrs(users: seq<User>, i: nat)
    requires i < |users| && DistinctAddrs(users)
    ensures DistinctAddrs(RemoveAt(users, i))
  {
    var r := RemoveAt(users, i);
    assert forall j :: 0 <= j < |r| ==> r[j] == users[if j < i then j else j + 1];
  }

  /** The last to leave a served user alone, served itself, makes that user the relay. */
  ghost predicate AppointsLoner(users: seq<User>, relay: Option<Name>, i: nat, now: Time, u: User)
    requires i <= |users|
  {
    var p := PassFrom(users, relay, i, now);
    p.users == [u] && !Eligible(u) && LastGoneServed(users, i, now) ==> Hears(p.notes, u.addr, ModeRelay)
  }

  lemma LastStepAppoints(users: seq<User>, relay: Option<Name>, i: nat, now: Time, u: User)
    requires i < |users| && LoopRelay(users, relay) && users[i].needsServerRelay && !Eligible(u)
    requires Filter(Gone(now), RemoveAt(users, i)[i..]) == []
    requires PassFrom(RemoveAt(users, i), TimeOut(users, relay, i).relay, i, now).users == [u]
    ensures Hears(TimeOut(users, relay, i).notes, u.addr, ModeRelay)
  {
    NobodyElseGoes(RemoveAt(users, i), TimeOut(users, relay, i).relay, i, now);
    LoneStepAppoints(users, relay, i, u);
  }

  lemma LonerHeardLater(users: seq<User>, relay: Option<Name>, i: nat, now: Time, u: User)
    requires i < |users| && Expired(users[i], now)
    requires Hears(PassFrom(RemoveAt(users, i), TimeOut(users, relay, i).relay, i, now).notes, u.addr, ModeRelay)
    ensures Hears(PassFrom(users, relay, i, now).notes, u.addr, ModeRelay)
  {
    var step := TimeOut(users, relay, i);
    PassStep(users, relay, i, now);
    HearsMore(step.notes, PassFrom(RemoveAt(users, i), step.relay, i, now).notes, u.addr, ModeRelay);
  }

  lemma LonerHeardNow(users: seq<User>, relay: Option<Name>, i: nat, now: Time, u: User)
    requires i < |users| && Expired(users[i], now) && Hears(TimeOut(users, relay, i).notes, u.addr, ModeRelay)
    ensures Hears(PassFrom(users, relay, i, now).notes, u.addr, ModeRelay)
  {
    var step := TimeOut(users, relay, i);
    PassStep(users, relay, i, now);
    HearsMore(PassFrom(RemoveAt(users, i), step.relay, i, now).notes, step.notes, u.addr, ModeRelay);
  }

  lemma LonerAfterStep(users: seq<User>, relay: Option<Name>, i: nat, now: Time, u: User)
    requires i < |users| && Expired(users[i], now) && LoopRelay(users, relay)
    requires AppointsLoner(RemoveAt(users, i), TimeOut(users, relay, i).relay, i, now, u)
    requires PassFrom(users, relay, i, now).users == [u] && !Eligible(u) && LastGoneServed(users, i, now)
    ensures Hears(PassFrom(users, relay, i, now).notes, u.addr, ModeRelay)
  {
    GoneNext(users, i, now);
    PassStep(users, relay, i, now);
    if Filter(Gone(now), RemoveAt(users, i)[i..]) != [] {
      LonerHeardLater(users, relay, i, now, u);
    } else {
      LastStepAppoints(users, relay, i, now, u);
      LonerHeardNow(users, relay, i, now, u);
    }
  }

  lemma {:induction false} PassAppointsLoner(users: seq<User>, relay: Option<Name>, i: nat, now: Time, u: User)
    requires i <= |users| && LoopRelay(users, relay)
    ensures AppointsLoner(users, relay, i, now, u)
    decreases |users| - i
  {
    if i < |users| {
      if Expired(users[i], now) {
        TimeOutRelay(users, relay, i);
        PassAppointsLoner(RemoveAt(users, i), TimeOut(users, relay, i).relay, i, now, u);
        if PassFrom(users, relay, i, now).users == [u] && !Eligible(u) && LastGoneServed(users, i, now) {
          LonerAfterStep(users, relay, i, now, u);
        }
      } else {
        PassAppointsLoner(users, relay, i + 1, now, u);
        GoneNext(users, i, now);
      }
    }
  }

  lemma NobodyElseGoes(users: seq<User>, relay: Option<Name>, i: nat, now: Time)
    requires i <= |users| && Filter(Gone(now), users[i..]) == []
    ensures PassFrom(users, relay, i, now).users == users
  {
    PassFilters(users, relay, i, now);
    NobodyGone(users[i..], now);
    SplitAt(users, i);
  }

  lemma SplitAt(users: seq<User>, i: nat)
    requires i <= |users|
    ensures users[..i] + users[i..] == users
  {
  }

  lemma NobodyGone(todo: seq<User>, now: Time)
    requires Filter(Gone(now), todo) == []
    ensures Filter(Alive(now), todo) == todo
  {
    forall u | u in todo ensures Alive(now)(u) {
      assert u !in Filter(Gone(now), todo);
    }
    FilterAll(Alive(now), todo);
  }

  lemma LoneStepAppoints(users: seq<User>, relay: Option<Name>, i: nat, u: User)
    requires i < |users| && LoopRelay(users, relay) && RemoveAt(users, i) == [u]
    requires !Eligible(u) && users[i].needsServerRelay
    ensures Hears(TimeOut(users, relay, i).notes, u.addr, ModeRelay)
  {
    PairOf(users, i, u);
    var f :| FirstEligible(users, f) && NameOf(f) == relay;
    assert f.None?;
    var notes := TimeOut(users, relay, i).notes;
    assert notes[|notes| - 1] == Notification([u.addr], [ModeRelay]);
  }

  /** Some survivor other than the relay left has been told that it is the relay. */
  ghost predicate WronglyAppoints(c: ChannelState, now: Time) {
    exists u :: u in SweepChannel(c, now).users && SweepChannel(c, now).relay != Some(u.name)
                && Hears(SweepPass(c, now).notes, u.addr, ModeRelay)
  }

  lemma SoloNoteAppointsNobody(p: Pass, a: Addr)
    ensures Hears(SettleSolo(p).notes, a, ModeRelay) <==> Hears(p.notes, a, ModeRelay)
  {
    if Hears(p.notes, a, ModeRelay) {
      var n :| n in p.notes && a in n.dests && ModeRelay in n.lines;
      assert n in SettleSolo(p).notes;
    }
    if n :| n in SettleSolo(p).notes && a in n.dests && ModeRelay in n.lines {
      assert n in p.notes;
    }
  }

  lemma AppointedIsLoner(c: ChannelState, now: Time, u: User)
    requires DistinctNames(c.users) && DistinctAddrs(c.users) && RelayExact(c)
    requires u in SweepChannel(c, now).users && SweepChannel(c, now).relay != Some(u.name)
    requires Hears(SweepPass(c, now).notes, u.addr, ModeRelay)
    ensures Filter(Alive(now), c.users) == [u] && u.needsServerRelay && LastGoneServed(c.users, 0, now)
  {
    var p := PassFrom(c.users, c.relay, 0, now);
    SweepFilters(c, now);
    SoloNoteAppointsNobody(p, u.addr);
    PassAppoints(c.users, c.relay, 0, now, u);
    EligibleRelayStays(p, u);
  }

  lemma EligibleRelayStays(p: Pass, u: User)
    requires u in p.users
    ensures Eligible(u) && p.relay == Some(u.name) ==> SettleSolo(p).relay == Some(u.name)
  {
  }

  lemma LonerIsAppointed(c: ChannelState, now: Time, u: User)
    requires RelayExact(c) && Filter(Alive(now), c.users) == [u] && u.needsServerRelay
             && LastGoneServed(c.users, 0, now)
    ensures SweepChannel(c, now).users == [u] && SweepChannel(c, now).relay.None?
    ensures Hears(SweepPass(c, now).notes, u.addr, ModeRelay)
  {
    var p := PassFrom(c.users, c.relay, 0, now);
    SweepFilters(c, now);
    PassAppointsLoner(c.users, c.relay, 0, now, u);
    SoloNoteAppointsNobody(p, u.addr);
  }

  /** A sweep tells a survivor that it is the relay, and then leaves it without that
      role, if and only if it leaves one user, that user needs the server, and so did
      the last user in list order that it removed. */
  lemma SweepAppoints(c: ChannelState, now: Time)
    requires DistinctNames(c.users) && DistinctAddrs(c.users) && RelayExact(c)
    ensures WronglyAppoints(c, now) <==>
            var left := Filter(Alive(now), c.users);
            |left| == 1 && left[0].needsServerRelay && LastGoneServed(c.users, 0, now)
  {
    var left := Filter(Alive(now), c.users);
    if WronglyAppoints(c, now) {
      var u :| u in SweepChannel(c, now).users && SweepChannel(c, now).relay != Some(u.name)
               && Hears(SweepPass(c, now).notes, u.addr, ModeRelay);
      AppointedIsLoner(c, now, u);
    }
    if |left| == 1 && left[0].needsServerRelay && LastGoneServed(c.users, 0, now) {
      LonerIsAppointed(c, now, left[0]);
      assert left[0] in SweepChannel(c, now).users;
    }
  }
}
