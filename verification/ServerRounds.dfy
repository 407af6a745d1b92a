/** Requests handled without interruption, as runs of lock sections, and exactly
    which of them keep every channel's relay exact. */
module ServerRounds {
  import opened ChannelRounds
  import opened ChannelSteps
  import opened Election
  import opened Ints
  import opened Seqs
  import opened ServerSteps
  import opened Structures
  import opened Sweep
  import opened Wrappers

  datatype Request =
    | Arrive(sid: string, cname: string, name: Name, addr: Addr, nat_: NatKind, now: Time, freshId: u64)
    | Depart(sid: string, cname: string, name: Name, addr: Addr)
    | ReportTimeout(sid: string, cname: string, name: Name)
    | RequestServerRelay(sid: string, cname: string, name: Name)
    | ReceivePong(addr: Addr, now: Time)
    | ReceiveBeat(sid: string, cname: string, name: Name, addr: Addr, now: Time)
    | Tick(now: Time, emptied: seq<(string, string)>)

  /** The lock sections of an uninterrupted request. */
  function Sections(st: ServerMap, q: Request): seq<Section> {
    match q
    case Arrive(sid, cname, name, addr, nat_, now, freshId) =>
      var users := Enter(ChannelOr(st, sid, cname), name, addr, nat_, now, freshId).users;
      [Admission(sid, cname, name, addr, nat_, now, freshId)]
      + (if HasSession(ChannelOr(st, sid, cname), name, addr) || |users| <= 1 then []
         else [AtChannel(sid, cname, SetRelay(NameOf(PickOnNotify(users))))])
    case Depart(sid, cname, name, addr) =>
      var c := ChannelOr(st, sid, cname);
      var users := Leave(c, name, addr).users;
      [AtChannel(sid, cname, Removal(name, addr))]
      + (if LeavingRelay(c, name, addr) && |users| != 1
          then [AtChannel(sid, cname, SetRelay(NameOf(PickOnNotify(users))))] else [])
    case ReportTimeout(sid, cname, name) => [AtChannel(sid, cname, PeerTimeout(name))]
    case RequestServerRelay(sid, cname, name) => [AtChannel(sid, cname, RequestRelay(name))]
    case ReceivePong(addr, now) => [PongFrom(addr, now)]
    case ReceiveBeat(sid, cname, name, addr, now) => [AtChannel(sid, cname, Heartbeat(name, addr, now))]
    case Tick(now, emptied) => [SweepAll(now), Cleanup(emptied)]
  }

  function Handle(st: ServerMap, q: Request): ServerMap { Run(st, Sections(st, q)) }

  function HandleAll(st: ServerMap, qs: seq<Request>): ServerMap
    decreases |qs|
  {
    if qs == [] then st else HandleAll(Handle(st, qs[0]), qs[1..])
  }

  ghost predicate AllExact(st: ServerMap) {
    forall sid, cname :: HasChannel(st, sid, cname) ==> RelayExact(st[sid][cname])
  }

  ghost predicate RequestHasRoom(st: ServerMap, q: Request) {
    q.Arrive? ==> ChannelOr(st, q.sid, q.cname).nextPeerId < U32_MAX
  }

  /** Whether a request keeps every relay exact, said before it is handled. */
  ghost predicate Harmless(st: ServerMap, q: Request) {
    match q
    case Arrive(sid, cname, name, addr, nat_, _, _) =>
      && !LoneRelayTurnsSymmetric(ChannelOr(st, sid, cname), name, addr, nat_)
      && forall cn :: HasChannel(st, sid, cn) && cn != cname ==> !LeavingRelay(st[sid][cn], name, addr)
    case Depart(sid, cname, name, addr) =>
      var c := ChannelOr(st, sid, cname);
      !(LeavingRelay(c, name, addr) && |c.users| == 2
        && forall u :: u in c.users && u.name != name ==> u.needsServerRelay)
    case ReportTimeout(sid, cname, name) =>
      HasChannel(st, sid, cname) ==>
        var c := st[sid][cname];
        var users := Filter(NotNamed(name), c.users);
        if |users| == 1 then Eligible(users[0]) else c.relay != Some(name)
    case RequestServerRelay(sid, cname, name) => ChannelOr(st, sid, cname).relay != Some(name)
    case _ => true
  }

  // The channels after a request

  lemma RunTwo(st: ServerMap, s: Section, t: Section)
    ensures Run(st, [s]) == Apply(st, s)
    ensures Run(st, [s, t]) == Apply(Apply(st, s), t)
  {
    assert [s, t][1..] == [t];
    RunOne(st, s);
    RunOne(Apply(st, s), t);
  }

  lemma RunOne(st: ServerMap, s: Section)
    ensures Run(st, [s]) == Apply(st, s)
  {
    assert [s][1..] == [];
    assert Run(Apply(st, s), []) == Apply(st, s);
  }

  /** An uninterrupted CONNECT, section by section. */
  lemma ArriveRuns(st: ServerMap, sid: string, cname: string, name: Name, addr: Addr, nat_: NatKind, now: Time,
                   freshId: u64)
    ensures var e, first := Enter(ChannelOr(st, sid, cname), name, addr, nat_, now, freshId),
            EnterServer(st, sid, cname, name, addr, nat_, now, freshId);
            Handle(st, Arrive(sid, cname, name, addr, nat_, now, freshId))
            == if HasSession(ChannelOr(st, sid, cname), name, addr) || |e.users| <= 1 then first
               else Apply(first, AtChannel(sid, cname, SetRelay(NameOf(PickOnNotify(e.users)))))
  {
    var e := Enter(ChannelOr(st, sid, cname), name, addr, nat_, now, freshId);
    var s := Admission(sid, cname, name, addr, nat_, now, freshId);
    RunTwo(st, s, AtChannel(sid, cname, SetRelay(NameOf(PickOnNotify(e.users)))));
  }

  /** An uninterrupted DISCONNECT, section by section. */
  lemma DepartRuns(st: ServerMap, sid: string, cname: string, name: Name, addr: Addr)
    ensures var c, first := ChannelOr(st, sid, cname), Apply(st, AtChannel(sid, cname, Removal(name, addr)));
            var users := Leave(c, name, addr).users;
            Handle(st, Depart(sid, cname, name, addr))
            == if LeavingRelay(c, name, addr) && |users| != 1
               then Apply(first, AtChannel(sid, cname, SetRelay(NameOf(PickOnNotify(users))))) else first
  {
    var users := Leave(ChannelOr(st, sid, cname), name, addr).users;
    RunTwo(st, AtChannel(sid, cname, Removal(name, addr)),
           AtChannel(sid, cname, SetRelay(NameOf(PickOnNotify(users)))));
  }

  /** `after` differs from `st` in one channel only. */
  ghost predicate OnlyChannel(st: ServerMap, after: ServerMap, sid: string, cname: string, c: ChannelState) {
    && HasChannel(after, sid, cname) && after[sid][cname] == c
    && forall s, cn :: (s, cn) != (sid, cname) ==>
         (HasChannel(after, s, cn) <==> HasChannel(st, s, cn)) && (HasChannel(st, s, cn) ==> after[s][cn] == st[s][cn])
  }

  lemma WorkOnly(st: ServerMap, sid: string, cname: string, w: ChannelWork)
    requires HasChannel(st, sid, cname)
    ensures OnlyChannel(st, Apply(st, AtChannel(sid, cname, w)), sid, cname, Work(st[sid][cname], w))
  {
  }

  lemma OnlyChannelExact(st: ServerMap, after: ServerMap, sid: string, cname: string, c: ChannelState)
    requires AllExact(st) && OnlyChannel(st, after, sid, cname, c)
    ensures AllExact(after) <==> RelayExact(c)
  {
    if RelayExact(c) {
      forall s, cn | HasChannel(after, s, cn) ensures RelayExact(after[s][cn]) {
        if (s, cn) != (sid, cname) { assert HasChannel(st, s, cn); }
      }
    }
  }

  lemma ArriveChannels(st: ServerMap, sid: string, cname: string, name: Name, addr: Addr, nat_: NatKind, now: Time,
                       freshId: u64)
    ensures Arrived(st, Handle(st, Arrive(sid, cname, name, addr, nat_, now, freshId)), sid, cname, name, addr,
                    Connect(ChannelOr(st, sid, cname), name, addr, nat_, now, freshId))
  {
    var c := ChannelOr(st, sid, cname);
    var e, first := Enter(c, name, addr, nat_, now, freshId),
        EnterServer(st, sid, cname, name, addr, nat_, now, freshId);
    ArriveRuns(st, sid, cname, name, addr, nat_, now, freshId);
    EnterArrives(st, sid, cname, name, addr, e);
    if !HasSession(c, name, addr) && |e.users| > 1 {
      RelaySetArrived(st, first, sid, cname, name, addr, e, NameOf(PickOnNotify(e.users)));
    }
  }

  /** `after` is `st` with channel `c` in its place and its session gone from the others. */
  ghost predicate Arrived(st: ServerMap, after: ServerMap, sid: string, cname: string, name: Name, addr: Addr,
                          c: ChannelState) {
    && HasChannel(after, sid, cname) && after[sid][cname] == c
    && (forall cn :: cn != cname ==> (HasChannel(after, sid, cn) <==> HasChannel(st, sid, cn)))
    && (forall cn :: cn != cname && HasChannel(st, sid, cn) ==> after[sid][cn] == MoveAway(st[sid][cn], name, addr))
    && (forall s :: s != sid ==> (s in after <==> s in st) && (s in st ==> after[s] == st[s]))
  }

  lemma EnterArrives(st: ServerMap, sid: string, cname: string, name: Name, addr: Addr, c: ChannelState)
    ensures Arrived(st, Install(st, sid, cname, name, addr, c), sid, cname, name, addr, c)
  {
  }

  lemma RelaySetArrived(st: ServerMap, first: ServerMap, sid: string, cname: string, name: Name, addr: Addr,
                        c: ChannelState, relay: Option<Name>)
    requires Arrived(st, first, sid, cname, name, addr, c)
    ensures Arrived(st, Apply(first, AtChannel(sid, cname, SetRelay(relay))), sid, cname, name, addr,
                    c.(relay := relay))
  {
  }

  lemma ArriveExact(st: ServerMap, q: Request)
    requires q.Arrive? && ServerOk(st) && AllExact(st) && RequestHasRoom(st, q)
    ensures AllExact(Handle(st, q)) <==> Harmless(st, q)
  {
    var Arrive(sid, cname, name, addr, nat_, now, freshId) := q;
    var c, d := ChannelOr(st, sid, cname), Connect(ChannelOr(st, sid, cname), name, addr, nat_, now, freshId);
    ArriveChannels(st, sid, cname, name, addr, nat_, now, freshId);
    DefaultIsExact();
    ConnectExact(c, name, addr, nat_, now, freshId);
    ArrivedExact(st, Handle(st, q), sid, cname, name, addr, d);
  }

  lemma ArrivedExact(st: ServerMap, after: ServerMap, sid: string, cname: string, name: Name, addr: Addr,
                     d: ChannelState)
    requires ServerOk(st) && AllExact(st) && Arrived(st, after, sid, cname, name, addr, d)
    ensures AllExact(after) <==>
            && RelayExact(d)
            && forall cn :: HasChannel(st, sid, cn) && cn != cname ==> !LeavingRelay(st[sid][cn], name, addr)
  {
    forall cn | cn != cname && HasChannel(st, sid, cn)
      ensures HasChannel(after, sid, cn) && (RelayExact(after[sid][cn]) <==> !LeavingRelay(st[sid][cn], name, addr))
    {
      MoveAwayExact(st[sid][cn], name, addr);
    }
    if RelayExact(d) && forall cn :: HasChannel(st, sid, cn) && cn != cname ==> !LeavingRelay(st[sid][cn], name, addr) {
      forall s, cn | HasChannel(after, s, cn) ensures RelayExact(after[s][cn]) {
        assert s != sid ==> HasChannel(st, s, cn);
      }
    }
  }

  lemma DefaultIsExact()
    ensures RelayExact(DEFAULT_CHANNEL) && WellFormed(DEFAULT_CHANNEL)
  {
    ExactIsPick([], None);
  }

  lemma DepartChannel(st: ServerMap, sid: string, cname: string, name: Name, addr: Addr)
    requires HasChannel(st, sid, cname)
    ensures OnlyChannel(st, Handle(st, Depart(sid, cname, name, addr)), sid, cname,
            Disconnect(st[sid][cname], name, addr))
  {
    var s, users := AtChannel(sid, cname, Removal(name, addr)), Leave(st[sid][cname], name, addr).users;
    var t := AtChannel(sid, cname, SetRelay(NameOf(PickOnNotify(users))));
    RunTwo(st, s, t);
    WorkOnly(st, sid, cname, Removal(name, addr));
    WorkOnly(Apply(st, s), sid, cname, SetRelay(NameOf(PickOnNotify(users))));
  }

  lemma AbsentUntouched(st: ServerMap, q: Request)
    requires q.Depart? || q.ReportTimeout? || q.RequestServerRelay? || q.ReceiveBeat?
    requires !HasChannel(st, q.sid, q.cname)
    ensures Handle(st, q) == st
  {
    var ss := Sections(st, q);
    RunTwo(st, ss[0], ss[|ss| - 1]);
  }

  lemma CleanupExact(st: ServerMap, names: seq<(string, string)>)
    requires AllExact(st)
    ensures AllExact(CleanAll(st, names))
  {
    forall sid, cname | HasChannel(CleanAll(st, names), sid, cname)
      ensures RelayExact(CleanAll(st, names)[sid][cname])
    {
      if HasChannel(st, sid, cname) {
        CleanedOrSame(st, names, sid, cname);
      } else {
        StaysGone(st, names, sid, cname);
      }
    }
  }

  lemma SweepEveryExact(st: ServerMap, now: Time)
    requires ServerOk(st) && AllExact(st)
    ensures AllExact(SweepEvery(st, now))
  {
    forall sid, cname | HasChannel(SweepEvery(st, now), sid, cname)
      ensures RelayExact(SweepEvery(st, now)[sid][cname])
    {
      assert HasChannel(st, sid, cname);
      SweepExact(st[sid][cname], now);
    }
  }

  lemma TouchAllExact(st: ServerMap, addr: Addr, now: Time)
    requires AllExact(st)
    ensures AllExact(TouchAll(st, addr, now))
  {
    forall sid, cname | HasChannel(TouchAll(st, addr, now), sid, cname)
      ensures RelayExact(TouchAll(st, addr, now)[sid][cname])
    {
      assert HasChannel(st, sid, cname);
      var c := st[sid][cname];
      var i := Position(LocatedAt(addr), c.users);
      if i < |c.users| { SameElection(c.users, i, c.users[i].(lastPong := now), c.relay); }
    }
  }

  lemma BeatExact(c: ChannelState, name: Name, addr: Addr, now: Time)
    requires RelayExact(c)
    ensures RelayExact(Refresh(c, name, addr, now))
  {
    var i := Position(IsSession(name, addr), c.users);
    if i < |c.users| { SameElection(c.users, i, c.users[i].(lastPong := now), c.relay); }
  }

  lemma DepartExact(st: ServerMap, q: Request, c: ChannelState)
    requires q.Depart? && ServerOk(st) && AllExact(st) && HasChannel(st, q.sid, q.cname) && c == st[q.sid][q.cname]
    ensures AllExact(Handle(st, q)) <==> Harmless(st, q)
  {
    DepartChannel(st, q.sid, q.cname, q.name, q.addr);
    DisconnectExact(c, q.name, q.addr);
    OnlyChannelExact(st, Handle(st, q), q.sid, q.cname, Disconnect(c, q.name, q.addr));
  }

  /** A run of one section on one channel. */
  lemma WorkExact(st: ServerMap, sid: string, cname: string, w: ChannelWork)
    requires AllExact(st) && HasChannel(st, sid, cname)
    ensures AllExact(Run(st, [AtChannel(sid, cname, w)])) <==> RelayExact(Work(st[sid][cname], w))
  {
    RunOne(st, AtChannel(sid, cname, w));
    WorkOnly(st, sid, cname, w);
    OnlyChannelExact(st, Apply(st, AtChannel(sid, cname, w)), sid, cname, Work(st[sid][cname], w));
  }

  ghost predicate OnPresentChannel(st: ServerMap, q: Request) {
    (q.Depart? || q.ReportTimeout? || q.RequestServerRelay? || q.ReceiveBeat?) && HasChannel(st, q.sid, q.cname)
  }

  lemma OnPresentChannelExact(st: ServerMap, q: Request)
    requires ServerOk(st) && AllExact(st) && OnPresentChannel(st, q)
    ensures AllExact(Handle(st, q)) <==> Harmless(st, q)
  {
    var c := st[q.sid][q.cname];
    match q
    case Depart(_, _, _, _) => DepartExact(st, q, c);
    case ReportTimeout(_, _, _) => ReportExact(st, q, c);
    case RequestServerRelay(_, _, _) => RelayRequestExact(st, q, c);
    case ReceiveBeat(_, _, _, _, _) => BeatRequestExact(st, q, c);
  }

  lemma ReportExact(st: ServerMap, q: Request, c: ChannelState)
    requires q.ReportTimeout? && AllExact(st) && HasChannel(st, q.sid, q.cname) && c == st[q.sid][q.cname]
             && WellFormed(c)
    ensures AllExact(Handle(st, q)) <==> Harmless(st, q)
  {
    WorkExact(st, q.sid, q.cname, PeerTimeout(q.name));
    PeerTimeoutExact(c, q.name);
  }

  lemma RelayRequestExact(st: ServerMap, q: Request, c: ChannelState)
    requires q.RequestServerRelay? && AllExact(st) && HasChannel(st, q.sid, q.cname) && c == st[q.sid][q.cname]
             && WellFormed(c)
    ensures AllExact(Handle(st, q)) <==> Harmless(st, q)
  {
    WorkExact(st, q.sid, q.cname, RequestRelay(q.name));
    LatchExact(c, q.name);
  }

  lemma BeatRequestExact(st: ServerMap, q: Request, c: ChannelState)
    requires q.ReceiveBeat? && AllExact(st) && HasChannel(st, q.sid, q.cname) && c == st[q.sid][q.cname]
    ensures AllExact(Handle(st, q))
  {
    WorkExact(st, q.sid, q.cname, Heartbeat(q.name, q.addr, q.now));
    BeatExact(c, q.name, q.addr, q.now);
  }

  lemma EverywhereExact(st: ServerMap, q: Request)
    requires ServerOk(st) && AllExact(st) && (q.ReceivePong? || q.Tick?)
    ensures AllExact(Handle(st, q))
  {
    if q.ReceivePong? {
      RunOne(st, PongFrom(q.addr, q.now));
      TouchAllExact(st, q.addr, q.now);
    } else {
      RunTwo(st, SweepAll(q.now), Cleanup(q.emptied));
      SweepEveryExact(st, q.now);
      CleanupExact(SweepEvery(st, q.now), q.emptied);
    }
  }

  lemma AbsentHarmless(st: ServerMap, q: Request)
    requires q.Depart? || q.ReportTimeout? || q.RequestServerRelay? || q.ReceiveBeat?
    requires !HasChannel(st, q.sid, q.cname)
    ensures Harmless(st, q)
  {
  }

  /** Handled without interruption, a request keeps every channel's relay exact if
      and only if it is harmless. */
  lemma RequestExact(st: ServerMap, q: Request)
    requires ServerOk(st) && AllExact(st) && RequestHasRoom(st, q)
    ensures AllExact(Handle(st, q)) <==> Harmless(st, q)
  {
    if q.Arrive? {
      ArriveExact(st, q);
    } else if q.ReceivePong? || q.Tick? {
      EverywhereExact(st, q);
    } else if HasChannel(st, q.sid, q.cname) {
      OnPresentChannelExact(st, q);
    } else {
      AbsentUntouched(st, q);
      AbsentHarmless(st, q);
    }
  }

  ghost predicate AllHarmless(st: ServerMap, qs: seq<Request>)
    decreases |qs|
  {
    qs == [] || (RequestHasRoom(st, qs[0]) && Harmless(st, qs[0]) && AllHarmless(Handle(st, qs[0]), qs[1..]))
  }

  lemma SectionsShape(st: ServerMap, q: Request)
    ensures var ss := Sections(st, q);
            && 1 <= |ss| <= 2 && (RequestHasRoom(st, q) ==> HasRoom(st, ss[0])) && (|ss| == 2 ==> !ss[1].Admission?)
  {
  }

  lemma ShortRunKeeps(st: ServerMap, ss: seq<Section>)
    requires ServerOk(st) && 1 <= |ss| <= 2 && HasRoom(st, ss[0]) && (|ss| == 2 ==> !ss[1].Admission?)
    ensures ServerOk(Run(st, ss))
  {
    SectionKeeps(st, ss[0]);
    if |ss| == 1 {
      assert ss == [ss[0]];
      RunOne(st, ss[0]);
    } else {
      assert ss == [ss[0], ss[1]];
      RunTwo(st, ss[0], ss[1]);
      SectionKeeps(Apply(st, ss[0]), ss[1]);
    }
  }

  lemma HandleKeepsOk(st: ServerMap, q: Request)
    requires ServerOk(st) && RequestHasRoom(st, q)
    ensures ServerOk(Handle(st, q))
  {
    SectionsShape(st, q);
    ShortRunKeeps(st, Sections(st, q));
  }

  /** From the empty server, any run of harmless requests leaves every channel with
      its first eligible user as relay, and with the invariant of `ServerOk`. */
  lemma {:induction false} HarmlessRuns(st: ServerMap, qs: seq<Request>)
    requires ServerOk(st) && AllExact(st) && AllHarmless(st, qs)
    ensures ServerOk(HandleAll(st, qs)) && AllExact(HandleAll(st, qs))
    decreases |qs|
  {
    if qs != [] {
      HandleKeepsOk(st, qs[0]);
      RequestExact(st, qs[0]);
      HarmlessRuns(Handle(st, qs[0]), qs[1..]);
    }
  }

  lemma EmptyServer()
    ensures ServerOk(map[]) && AllExact(map[])
  {
  }
}
