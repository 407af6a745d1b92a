/** One uninterrupted round of the heartbeat task over all channels
    (src/signaling/heartbeat.rs): the map it leaves and all that it sends. */
module HeartbeatRounds {
  import opened ChannelSteps
  import opened Election
  import opened Routing
  import opened Seqs
  import opened ServerRounds
  import opened ServerSteps
  import opened Structures
  import opened Sweep
  import opened Wrappers

  type ChannelKey = (string, string)

  function SweepNotesOf(st: ServerMap, now: Time): ChannelKey -> seq<Notification> {
    (k: ChannelKey) => SweepPass(ChannelOr(st, k.0, k.1), now).notes
  }

  function SweepPingsOf(st: ServerMap, now: Time): ChannelKey -> seq<Addr> {
    (k: ChannelKey) => SoloPing(SweepChannel(ChannelOr(st, k.0, k.1), now).users)
  }

  function SweepCleanupOf(st: ServerMap, now: Time): ChannelKey -> seq<ChannelKey> {
    (k: ChannelKey) => if SweepChannel(ChannelOr(st, k.0, k.1), now).users == [] then [k] else []
  }

  // What the cleanup removes

  lemma {:induction false} CleanedAre(st: ServerMap, names: seq<ChannelKey>, sid: string, cname: string)
    ensures HasChannel(CleanAll(st, names), sid, cname) <==> HasChannel(st, sid, cname) && (sid, cname) !in names
    ensures HasChannel(CleanAll(st, names), sid, cname) ==> CleanAll(st, names)[sid][cname] == st[sid][cname]
  {
    if names != [] {
      CleanedOne(st, names[0].0, names[0].1, sid, cname);
      CleanedAre(CleanOne(st, names[0].0, names[0].1), names[1..], sid, cname);
    }
  }

  lemma CleanedOne(st: ServerMap, s: string, cn: string, sid: string, cname: string)
    ensures HasChannel(CleanOne(st, s, cn), sid, cname) <==> HasChannel(st, sid, cname) && (sid, cname) != (s, cn)
    ensures HasChannel(CleanOne(st, s, cn), sid, cname) ==> CleanOne(st, s, cn)[sid][cname] == st[sid][cname]
  {
    if s in st && s == sid {
      var chans := st[s] - {cn};
      assert cname in chans <==> cname in st[s] && cname != cn;
    }
  }

  /** What an uninterrupted round leaves. */
  lemma RoundLeaves(st: ServerMap, order: seq<ChannelKey>, now: Time)
    requires Enumerates(order, st)
    ensures var emptied := FlatMap(SweepCleanupOf(st, now), order);
            Handle(st, Tick(now, emptied)) == CleanAll(SweepEvery(st, now), emptied)
    ensures var after := Handle(st, Tick(now, FlatMap(SweepCleanupOf(st, now), order)));
            && (forall sid, cname :: HasChannel(after, sid, cname) <==>
                  HasChannel(st, sid, cname) && SweepChannel(st[sid][cname], now).users != [])
            && (forall sid, cname :: HasChannel(after, sid, cname) ==>
                  after[sid][cname] == SweepChannel(st[sid][cname], now))
  {
    RunTwo(st, SweepAll(now), Cleanup(FlatMap(SweepCleanupOf(st, now), order)));
    OnlyEmptiedGo(st, order, now);
  }

  /** After the round no channel is empty, and no other channel has gone. */
  lemma OnlyEmptiedGo(st: ServerMap, order: seq<ChannelKey>, now: Time)
    requires Enumerates(order, st)
    ensures var after := CleanAll(SweepEvery(st, now), FlatMap(SweepCleanupOf(st, now), order));
            forall sid, cname :: (HasChannel(after, sid, cname) <==>
                HasChannel(st, sid, cname) && SweepChannel(st[sid][cname], now).users != [])
              && (HasChannel(after, sid, cname) ==> after[sid][cname] == SweepChannel(st[sid][cname], now))
  {
    var emptied := FlatMap(SweepCleanupOf(st, now), order);
    FlatMapMembers(SweepCleanupOf(st, now), order);
    forall sid, cname
      ensures var after := CleanAll(SweepEvery(st, now), emptied);
              && (HasChannel(after, sid, cname) <==>
                    HasChannel(st, sid, cname) && SweepChannel(st[sid][cname], now).users != [])
              && (HasChannel(after, sid, cname) ==> after[sid][cname] == SweepChannel(st[sid][cname], now))
    {
      CleanedAre(SweepEvery(st, now), emptied, sid, cname);
      EmptiedWhen(st, order, now, sid, cname);
    }
  }

  lemma EmptiedWhen(st: ServerMap, order: seq<ChannelKey>, now: Time, sid: string, cname: string)
    requires Enumerates(order, st)
    ensures (sid, cname) in FlatMap(SweepCleanupOf(st, now), order) <==>
            HasChannel(st, sid, cname) && SweepChannel(st[sid][cname], now).users == []
  {
    var key: ChannelKey := (sid, cname);
    FlatMapMembers(SweepCleanupOf(st, now), order);
    if HasChannel(st, sid, cname) {
      assert key in order;
      if SweepChannel(st[sid][cname], now).users == [] {
        assert key in SweepCleanupOf(st, now)(key);
      }
    }
    if key in FlatMap(SweepCleanupOf(st, now), order) {
      var x :| x in order && key in SweepCleanupOf(st, now)(x);
      assert x == key;
    }
  }

  lemma EmptiedAre(st: ServerMap, order: seq<ChannelKey>, now: Time)
    requires Enumerates(order, st)
    ensures forall sid, cname :: (sid, cname) in FlatMap(SweepCleanupOf(st, now), order) <==>
              HasChannel(st, sid, cname) && SweepChannel(st[sid][cname], now).users == []
  {
    forall sid, cname
      ensures (sid, cname) in FlatMap(SweepCleanupOf(st, now), order) <==>
              HasChannel(st, sid, cname) && SweepChannel(st[sid][cname], now).users == []
    {
      EmptiedWhen(st, order, now, sid, cname);
    }
  }

  // The sweep of some of the channels

  ghost predicate NoRepeats(order: seq<ChannelKey>) {
    forall i, j :: 0 <= i < j < |order| ==> order[i] != order[j]
  }

  function SweepSome(st: ServerMap, swept: seq<ChannelKey>, now: Time): ServerMap {
    map sid | sid in st ::
      map cn | cn in st[sid] :: if (sid, cn) in swept then SweepChannel(st[sid][cn], now) else st[sid][cn]
  }

  lemma SweepNone(st: ServerMap, now: Time)
    ensures SweepSome(st, [], now) == st
  {
    forall sid | sid in st ensures SweepSome(st, [], now)[sid] == st[sid] {
    }
  }

  lemma SweepNext(st: ServerMap, order: seq<ChannelKey>, k: nat, now: Time)
    requires k < |order| && Enumerates(order, st) && NoRepeats(order)
    ensures HasChannel(st, order[k].0, order[k].1)
    ensures var some := SweepSome(st, order[..k], now);
            && HasChannel(some, order[k].0, order[k].1)
            && some[order[k].0][order[k].1] == st[order[k].0][order[k].1]
            && SweepSome(st, order[..k + 1], now)
               == Put(some, order[k].0, order[k].1, SweepChannel(st[order[k].0][order[k].1], now))
  {
    var (sid, cname) := order[k];
    assert (sid, cname) == order[k] && order[k] in order;
    assert order[k] !in order[..k];
    var some := SweepSome(st, order[..k], now);
    forall s | s in st
      ensures SweepSome(st, order[..k + 1], now)[s] == Put(some, sid, cname, SweepChannel(st[sid][cname], now))[s]
    {
      SweepNextOf(st, order, k, now, s);
    }
  }

  lemma SweepNextOf(st: ServerMap, order: seq<ChannelKey>, k: nat, now: Time, s: string)
    requires k < |order| && s in st && HasChannel(st, order[k].0, order[k].1)
    ensures SweepSome(st, order[..k + 1], now)[s]
            == if s == order[k].0
               then SweepSome(st, order[..k], now)[s][order[k].1 := SweepChannel(st[s][order[k].1], now)]
               else SweepSome(st, order[..k], now)[s]
  {
    assert order[..k + 1] == order[..k] + [order[k]];
    forall cn ensures (s, cn) in order[..k + 1] <==> (s, cn) in order[..k] || (s, cn) == order[k] {
    }
  }

  lemma SweepDone(st: ServerMap, order: seq<ChannelKey>, now: Time)
    requires Enumerates(order, st)
    ensures SweepSome(st, order, now) == SweepEvery(st, now)
  {
    forall sid | sid in st ensures SweepSome(st, order, now)[sid] == SweepEvery(st, now)[sid] {
      forall cn | cn in st[sid] ensures (sid, cn) in order {
        assert HasChannel(st, sid, cn);
      }
    }
  }

  // What the round sends

  /** First the pings of all channels, then the notifications of all channels. */
  function RoundSends(st: ServerMap, order: seq<ChannelKey>, now: Time): seq<Datagram> {
    Map(Pinging(), FlatMap(SweepPingsOf(st, now), order)) + Sends(FlatMap(SweepNotesOf(st, now), order))
  }

  lemma RoundAppended(sent: seq<Datagram>, st: ServerMap, order: seq<ChannelKey>, now: Time)
    ensures sent + Map(Pinging(), FlatMap(SweepPingsOf(st, now), order)) + Sends(FlatMap(SweepNotesOf(st, now), order))
            == sent + RoundSends(st, order, now)
    ensures (sent + RoundSends(st, order, now))[|sent|..] == RoundSends(st, order, now)
  {
  }

  /** What the sweeps of the channels have to say, channel after channel. */
  function SweepsOneByOne(st: ServerMap, order: seq<ChannelKey>, now: Time): seq<Datagram> {
    if order == [] then []
    else SweepNotices(ChannelOr(st, order[0].0, order[0].1), now) + SweepsOneByOne(st, order[1..], now)
  }

  lemma RoundStep(st: ServerMap, order: seq<ChannelKey>, now: Time)
    requires order != []
    ensures var key, rest := order[0], order[1..];
            RoundSends(st, order, now)
            == (Map(Pinging(), SweepPingsOf(st, now)(key)) + Map(Pinging(), FlatMap(SweepPingsOf(st, now), rest)))
               + (Sends(SweepNotesOf(st, now)(key)) + Sends(FlatMap(SweepNotesOf(st, now), rest)))
  {
    var key, rest := order[0], order[1..];
    var x, y := Map(Pinging(), SweepPingsOf(st, now)(key)), Map(Pinging(), FlatMap(SweepPingsOf(st, now), rest));
    assert Map(Pinging(), FlatMap(SweepPingsOf(st, now), order)) == x + y;
    FlatMapAppend(Outgoing(), SweepNotesOf(st, now)(key), FlatMap(SweepNotesOf(st, now), rest));
  }

  lemma Shuffled(x: seq<Datagram>, xs: seq<Datagram>, y: seq<Datagram>, ys: seq<Datagram>)
    ensures multiset((x + xs) + (y + ys)) == multiset((x + y) + (xs + ys))
  {
  }

  lemma SameAfter(x: seq<Datagram>, y: seq<Datagram>, z: seq<Datagram>)
    requires multiset(y) == multiset(z)
    ensures multiset(x + y) == multiset(x + z)
  {
  }

  /** The round sends every datagram as often as the sweeps of its channels have it. */
  lemma {:induction false} RoundConserves(st: ServerMap, order: seq<ChannelKey>, now: Time)
    ensures multiset(RoundSends(st, order, now)) == multiset(SweepsOneByOne(st, order, now))
  {
    if order != [] {
      var key, rest := order[0], order[1..];
      RoundStep(st, order, now);
      Shuffled(Map(Pinging(), SweepPingsOf(st, now)(key)), Map(Pinging(), FlatMap(SweepPingsOf(st, now), rest)),
               Sends(SweepNotesOf(st, now)(key)), Sends(FlatMap(SweepNotesOf(st, now), rest)));
      RoundConserves(st, rest, now);
      SameAfter(SweepNotices(ChannelOr(st, key.0, key.1), now), RoundSends(st, rest, now),
                SweepsOneByOne(st, rest, now));
    }
  }

  lemma {:induction false} OneByOneHas(st: ServerMap, order: seq<ChannelKey>, now: Time, g: Datagram)
    ensures g in SweepsOneByOne(st, order, now) <==>
            exists key :: key in order && g in SweepNotices(ChannelOr(st, key.0, key.1), now)
  {
    if order != [] {
      OneByOneHas(st, order[1..], now, g);
      assert forall key :: key in order <==> key == order[0] || key in order[1..];
    }
  }

  /** What is sent is exactly what the sweep of some channel has to say. */
  ghost predicate RoundTells(st: ServerMap, now: Time, sent: seq<Datagram>) {
    forall g :: g in sent <==>
                exists sid, cname :: HasChannel(st, sid, cname) && g in SweepNotices(st[sid][cname], now)
  }

  lemma RoundIsTold(st: ServerMap, order: seq<ChannelKey>, now: Time)
    requires Enumerates(order, st)
    ensures RoundTells(st, now, RoundSends(st, order, now))
  {
    RoundConserves(st, order, now);
    var sent := RoundSends(st, order, now);
    forall g
      ensures g in sent <==>
              exists sid, cname :: HasChannel(st, sid, cname) && g in SweepNotices(st[sid][cname], now)
    {
      ToldOrNot(st, order, now, g);
    }
  }

  lemma ToldOrNot(st: ServerMap, order: seq<ChannelKey>, now: Time, g: Datagram)
    requires Enumerates(order, st)
    ensures g in RoundSends(st, order, now) <==>
            exists sid, cname :: HasChannel(st, sid, cname) && g in SweepNotices(st[sid][cname], now)
  {
    RoundConserves(st, order, now);
    assert g in RoundSends(st, order, now) <==> g in multiset(RoundSends(st, order, now));
    assert g in SweepsOneByOne(st, order, now) <==> g in multiset(SweepsOneByOne(st, order, now));
    OneByOneHas(st, order, now, g);
    if sid, cname :| HasChannel(st, sid, cname) && g in SweepNotices(st[sid][cname], now) {
      assert (sid, cname) in order && g in SweepNotices(ChannelOr(st, sid, cname), now);
    }
    if key :| key in order && g in SweepNotices(ChannelOr(st, key.0, key.1), now) {
      assert (key.0, key.1) in order && HasChannel(st, key.0, key.1);
    }
  }

  // How often a survivor hears of a departure

  lemma {:induction false} FilterCounts<T(!new)>(p: T -> bool, s: seq<T>, x: T)
    ensures multiset(Filter(p, s))[x] == if p(x) then multiset(s)[x] else 0
  {
    if s != [] {
      FilterCounts(p, s[1..], x);
      assert s == [s[0]] + s[1..];
    }
  }

  lemma SameCopies(a: Addr, l: Line, x: seq<Datagram>, y: seq<Datagram>)
    requires multiset(x) == multiset(y)
    ensures Copies(a, l, x) == Copies(a, l, y)
  {
    var p, q := Filter(Carries(a, l), x), Filter(Carries(a, l), y);
    forall g ensures multiset(p)[g] == multiset(q)[g] {
      FilterCounts(Carries(a, l), x, g);
      FilterCounts(Carries(a, l), y, g);
    }
    assert multiset(p) == multiset(q);
    assert |multiset(p)| == |p| && |multiset(q)| == |q|;
  }

  /** Every note of a pass goes to addresses of users. */
  lemma {:induction false} PassStaysInside(users: seq<User>, relay: Option<Name>, i: nat, now: Time, n: Notification,
                                           a: Addr)
    requires i <= |users| && n in PassFrom(users, relay, i, now).notes && a in n.dests
    ensures exists u :: u in users && u.addr == a
    decreases |users| - i
  {
    if i < |users| {
      if Expired(users[i], now) {
        PassStep(users, relay, i, now);
        if n in TimeOut(users, relay, i).notes {
          StepStaysInside(users, relay, i, n, a);
        } else {
          PassStaysInside(RemoveAt(users, i), TimeOut(users, relay, i).relay, i, now, n, a);
        }
      } else {
        PassStaysInside(users, relay, i + 1, now, n, a);
      }
    }
  }

  lemma AddrOfUser(users: seq<User>, a: Addr)
    requires a in Addrs(users)
    ensures exists u :: u in users && u.addr == a
  {
    var i :| 0 <= i < |users| && Addrs(users)[i] == a;
    assert users[i] in users;
  }

  lemma StepStaysInside(users: seq<User>, relay: Option<Name>, i: nat, n: Notification, a: Addr)
    requires i < |users| && n in TimeOut(users, relay, i).notes && a in n.dests
    ensures exists u :: u in users && u.addr == a
  {
    TailSilent(users, relay, i, UserLeft(users[i].name, users[i].addr));
    RemoveAtMembers(users, i);
    if n in LeftNotes(users, users[i]) {
      AddrOfUser(Filter(NotLocatedAt(users[i].addr), users), a);
    } else if relay == Some(users[i].name) {
      ReelectionStaysInside(RemoveAt(users, i), n, a);
    }
  }

  lemma ReelectionStaysInside(users: seq<User>, n: Notification, a: Addr)
    requires n in ReelectNotes(users) && a in n.dests
    ensures exists u :: u in users && u.addr == a
  {
    FindIsFirst(NoRelayNeeded(), users);
    match PickOnTimeout(users)
    case Some(r) =>
      var peers := Filter(NotNamed(r.name), users);
      if a != r.addr {
        AddrOfUser(peers, a);
      }
    case None => AddrOfUser(users, a);
  }

  /** A sweep writes to users of its channel only. */
  lemma SweepStaysInside(c: ChannelState, now: Time, g: Datagram)
    requires g in SweepNotices(c, now)
    ensures KnownAt(c, g.dst)
  {
    SweepFilters(c, now);
    var left := SweepChannel(c, now).users;
    if g in Map(Pinging(), SoloPing(left)) {
      assert g.dst == left[0].addr && left[0] in left;
    } else {
      NoteOf(SweepPass(c, now).notes, g);
      var n :| n in SweepPass(c, now).notes && g.dst in n.dests;
      if n in PassFrom(c.users, c.relay, 0, now).notes {
        PassStaysInside(c.users, c.relay, 0, now, n, g.dst);
      } else {
        assert g.dst == left[0].addr && left[0] in left;
      }
    }
  }

  lemma NoteOf(notes: seq<Notification>, g: Datagram)
    requires g in Sends(notes)
    ensures exists n :: n in notes && g.dst in n.dests
  {
    FlatMapMembers(Outgoing(), notes);
    var n :| n in notes && g in Outgoing()(n);
    assert g.dst in n.dests;
  }

  /** At an address known in one channel only, the round brings what that channel's sweep brings. */
  lemma {:induction false} CopiesOfRound(st: ServerMap, order: seq<ChannelKey>, now: Time, sid: string, cname: string,
                                         a: Addr, l: Line)
    requires HasChannel(st, sid, cname) && OnlyIn(st, sid, cname, a) && NoRepeats(order)
    requires forall key :: key in order ==> HasChannel(st, key.0, key.1)
    ensures Copies(a, l, SweepsOneByOne(st, order, now))
            == if (sid, cname) in order then Copies(a, l, SweepNotices(st[sid][cname], now)) else 0
  {
    if order != [] {
      var key, rest := order[0], order[1..];
      assert forall k :: k in order <==> k == key || k in rest;
      CopiesOfRound(st, rest, now, sid, cname, a, l);
      var mine := SweepNotices(ChannelOr(st, key.0, key.1), now);
      FilterAppend(Carries(a, l), mine, SweepsOneByOne(st, rest, now));
      if key != (sid, cname) {
        NoCopiesElsewhere(st, key, now, sid, cname, a, l);
      }
    }
  }

  lemma NoCopiesElsewhere(st: ServerMap, key: ChannelKey, now: Time, sid: string, cname: string, a: Addr, l: Line)
    requires HasChannel(st, key.0, key.1) && OnlyIn(st, sid, cname, a) && key != (sid, cname)
    ensures Copies(a, l, SweepNotices(ChannelOr(st, key.0, key.1), now)) == 0
  {
    var c := st[key.0][key.1];
    assert (key.0, key.1) != (sid, cname);
    forall g | g in SweepNotices(c, now) ensures !Carries(a, l)(g) {
      SweepStaysInside(c, now, g);
    }
    FilterNone(Carries(a, l), SweepNotices(c, now));
  }

  /** A survivor whose address no other channel knows hears exactly once of every user
      removed from its channel. */
  ghost predicate TellsSurvivorsOnce(st: ServerMap, now: Time, sent: seq<Datagram>) {
    forall sid, cname, s: User, d: User ::
      HasChannel(st, sid, cname) && OnlyIn(st, sid, cname, s.addr) && RemovedBeside(st[sid][cname], now, s, d) ==>
        Copies(s.addr, UserLeft(d.name, d.addr), sent) == 1
  }

  /** The sweep of a channel with distinct names and addresses keeps `s` and removes `d`. */
  ghost predicate RemovedBeside(c: ChannelState, now: Time, s: User, d: User) {
    && DistinctNames(c.users) && DistinctAddrs(c.users)
    && s in SweepChannel(c, now).users && d in c.users && d !in SweepChannel(c, now).users
  }

  lemma RoundTellsOnce(st: ServerMap, order: seq<ChannelKey>, now: Time)
    requires Enumerates(order, st) && NoRepeats(order)
    ensures TellsSurvivorsOnce(st, now, RoundSends(st, order, now))
  {
    forall sid, cname, s: User, d: User |
      HasChannel(st, sid, cname) && OnlyIn(st, sid, cname, s.addr) && RemovedBeside(st[sid][cname], now, s, d)
      ensures Copies(s.addr, UserLeft(d.name, d.addr), RoundSends(st, order, now)) == 1
    {
      SurvivorToldOnce(st, order, now, sid, cname, s, d);
    }
  }

  lemma SurvivorToldOnce(st: ServerMap, order: seq<ChannelKey>, now: Time, sid: string, cname: string, s: User, d: User)
    requires Enumerates(order, st) && NoRepeats(order)
    requires HasChannel(st, sid, cname) && OnlyIn(st, sid, cname, s.addr) && RemovedBeside(st[sid][cname], now, s, d)
    ensures Copies(s.addr, UserLeft(d.name, d.addr), RoundSends(st, order, now)) == 1
  {
    var c, l := st[sid][cname], UserLeft(d.name, d.addr);
    RoundConserves(st, order, now);
    SameCopies(s.addr, l, RoundSends(st, order, now), SweepsOneByOne(st, order, now));
    assert forall key :: key in order ==> (key.0, key.1) in order;
    CopiesOfRound(st, order, now, sid, cname, s.addr, l);
    var pings := Map(Pinging(), SoloPing(SweepChannel(c, now).users));
    FilterAppend(Carries(s.addr, l), pings, Sends(SweepPass(c, now).notes));
    FilterNone(Carries(s.addr, l), pings);
    SurvivorsHearOnce(c, now, s, d);
  }
}
