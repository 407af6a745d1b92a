/** The server's shared state and its lock sections. A handler is a sequence of
    sections with other sections possibly in between, so what every section keeps,
    whatever its arguments, holds under every interleaving. */
module ServerSteps {
  import opened ChannelSteps
  import opened Ints
  import opened Seqs
  import opened Structures
  import opened Sweep
  import opened Wrappers

  type ServerMap = map<string, map<string, ChannelState>>

  /** A section that works on one existing channel. */
  datatype ChannelWork =
    | Removal(name: Name, addr: Addr)             // DISCONNECT, removal
    | SetRelay(relay: Option<Name>)               // elections written back after a snapshot
    | PeerTimeout(name: Name)                     // PEER_TIMEOUT
    | RequestRelay(name: Name)                    // REQUEST_RELAY
    | Heartbeat(name: Name, addr: Addr, now: Time) // HB

  datatype Section =
    | AtChannel(sid: string, cname: string, work: ChannelWork)
    | Admission(sid: string, cname: string, name: Name, addr: Addr, nat_: NatKind, now: Time, freshId: u64)
    | PongFrom(addr: Addr, now: Time)
    | SweepAll(now: Time)
    | Cleanup(names: seq<(string, string)>)

  predicate HasChannel(st: ServerMap, sid: string, cname: string) {
    sid in st && cname in st[sid]
  }

  function ChannelsOf(st: ServerMap, sid: string): map<string, ChannelState> {
    if sid in st then st[sid] else map[]
  }

  /** The channel that `entry(..).or_default()` finds or creates. */
  function ChannelOr(st: ServerMap, sid: string, cname: string): ChannelState {
    if HasChannel(st, sid, cname) then st[sid][cname] else DEFAULT_CHANNEL
  }

  function Put(st: ServerMap, sid: string, cname: string, c: ChannelState): ServerMap {
    st[sid := ChannelsOf(st, sid)[cname := c]]
  }

  function Work(c: ChannelState, w: ChannelWork): ChannelState {
    match w
    case Removal(name, addr) => Leave(c, name, addr)
    case SetRelay(relay) => c.(relay := relay)
    case PeerTimeout(name) => DropPeer(c, name)
    case RequestRelay(name) => Latch(c, name)
    case Heartbeat(name, addr, now) => Refresh(c, name, addr, now)
  }

  function MoveOthers(chans: map<string, ChannelState>, cname: string, name: Name, addr: Addr)
    : map<string, ChannelState>
  {
    map cn | cn in chans :: if cn == cname then chans[cn] else MoveAway(chans[cn], name, addr)
  }

  function TouchAll(st: ServerMap, addr: Addr, now: Time): ServerMap {
    map sid | sid in st :: map cn | cn in st[sid] :: Touch(st[sid][cn], addr, now)
  }

  function SweepEvery(st: ServerMap, now: Time): ServerMap {
    map sid | sid in st :: map cn | cn in st[sid] :: SweepChannel(st[sid][cn], now)
  }

  function CleanOne(st: ServerMap, sid: string, cname: string): ServerMap {
    if sid !in st then st
    else
      var chans := st[sid] - {cname};
      if chans == map[] then st - {sid} else st[sid := chans]
  }

  function CleanAll(st: ServerMap, names: seq<(string, string)>): ServerMap {
    if names == [] then st else CleanAll(CleanOne(st, names[0].0, names[0].1), names[1..])
  }

  /** Channel `c` takes its place, and its session leaves the other channels. */
  function Install(st: ServerMap, sid: string, cname: string, name: Name, addr: Addr, c: ChannelState): ServerMap {
    st[sid := MoveOthers(ChannelsOf(st, sid), cname, name, addr)[cname := c]]
  }

  function EnterServer(st: ServerMap, sid: string, cname: string, name: Name, addr: Addr, nat_: NatKind, now: Time,
                       freshId: u64): ServerMap {
    Install(st, sid, cname, name, addr, Enter(ChannelOr(st, sid, cname), name, addr, nat_, now, freshId))
  }

  function Apply(st: ServerMap, s: Section): ServerMap {
    match s
    case AtChannel(sid, cname, w) =>
      if HasChannel(st, sid, cname) then Put(st, sid, cname, Work(st[sid][cname], w)) else st
    case Admission(sid, cname, name, addr, nat_, now, freshId) =>
      EnterServer(st, sid, cname, name, addr, nat_, now, freshId)
    case PongFrom(addr, now) => TouchAll(st, addr, now)
    case SweepAll(now) => SweepEvery(st, now)
    case Cleanup(names) => CleanAll(st, names)
  }

  function Run(st: ServerMap, ss: seq<Section>): ServerMap
    decreases |ss|
  {
    if ss == [] then st else Run(Apply(st, ss[0]), ss[1..])
  }

  // The invariant

  /** No two channels of a server id hold the same (name, address) session. */
  ghost predicate Apart(c: ChannelState, d: ChannelState) {
    forall u, v :: u in c.users && v in d.users ==> !(u.name == v.name && u.addr == v.addr)
  }

  ghost predicate ChannelsOk(chans: map<string, ChannelState>) {
    && chans != map[]
    && (forall cn :: cn in chans ==> WellFormed(chans[cn]))
    && (forall cn, dn :: cn in chans && dn in chans && cn != dn ==> Apart(chans[cn], chans[dn]))
  }

  ghost predicate ServerOk(st: ServerMap) {
    forall sid :: sid in st ==> ChannelsOk(st[sid])
  }

  /** The next id of the channel a CONNECT enters has not reached the end of u32. */
  ghost predicate HasRoom(st: ServerMap, s: Section) {
    s.Admission? ==> ChannelOr(st, s.sid, s.cname).nextPeerId < U32_MAX
  }

  ghost predicate Roomy(st: ServerMap, ss: seq<Section>)
    decreases |ss|
  {
    ss == [] || (HasRoom(st, ss[0]) && Roomy(Apply(st, ss[0]), ss[1..]))
  }

  /** Every session of `d` was in `c`. */
  ghost predicate SessionsFrom(c: ChannelState, d: ChannelState) {
    forall v :: v in d.users ==> exists u :: u in c.users && u.name == v.name && u.addr == v.addr
  }

  /** A step of one channel that admits nobody. */
  ghost predicate Shrinks(c: ChannelState, d: ChannelState) {
    Evolves(c, d) && SessionsFrom(c, d) && (WellFormed(c) ==> WellFormed(d))
  }

  lemma UpdateShrinks(c: ChannelState, i: nat, v: User)
    requires i < |c.users| && SameIdentity(c.users[i], v) && (c.users[i].needsServerRelay ==> v.needsServerRelay)
    ensures Shrinks(c, c.(users := c.users[i := v]))
  {
    UpdateKeeps(c, i, v);
    var d := c.(users := c.users[i := v]);
    forall w | w in d.users ensures exists u :: u in c.users && SameIdentity(u, w) {
      var k :| 0 <= k < |d.users| && d.users[k] == w;
      assert c.users[k] in c.users && SameIdentity(c.users[k], w);
    }
  }

  lemma SubsetShrinks(c: ChannelState, d: ChannelState)
    requires d.nextPeerId == c.nextPeerId && d.channelId == c.channelId && (WellFormed(c) ==> WellFormed(d))
    requires forall v :: v in d.users ==> v in c.users
    ensures Shrinks(c, d)
  {
    EvolvesWhenUsersRemain(c, d);
  }

  lemma WorkShrinks(c: ChannelState, w: ChannelWork)
    ensures Shrinks(c, Work(c, w))
  {
    match w
    case Removal(name, addr) => LeaveShrinks(c, name, addr);
    case SetRelay(_) => SubsetShrinks(c, Work(c, w));
    case PeerTimeout(name) =>
      FilterStepKeeps(c, NotNamed(name));
      SubsetShrinks(c, DropPeer(c, name));
    case RequestRelay(name) => LatchShrinks(c, name);
    case Heartbeat(name, addr, now) => RefreshShrinks(c, name, addr, now);
  }

  lemma LeaveShrinks(c: ChannelState, name: Name, addr: Addr)
    ensures Shrinks(c, Leave(c, name, addr))
  {
    LeaveKeeps(c, name, addr);
    var i := Position(IsSession(name, addr), c.users);
    if i < |c.users| { RemoveAtMembers(c.users, i); }
    SubsetShrinks(c, Leave(c, name, addr));
  }

  lemma LatchShrinks(c: ChannelState, name: Name)
    ensures Shrinks(c, Latch(c, name))
  {
    var i := Position(Named(name), c.users);
    if i < |c.users| { UpdateShrinks(c, i, c.users[i].(needsServerRelay := true)); } else { ShrinksReflexive(c); }
  }

  lemma RefreshShrinks(c: ChannelState, name: Name, addr: Addr, now: Time)
    ensures Shrinks(c, Refresh(c, name, addr, now))
  {
    var i := Position(IsSession(name, addr), c.users);
    if i < |c.users| { UpdateShrinks(c, i, c.users[i].(lastPong := now)); } else { ShrinksReflexive(c); }
  }

  lemma TouchShrinks(c: ChannelState, addr: Addr, now: Time)
    ensures Shrinks(c, Touch(c, addr, now))
  {
    var i := Position(LocatedAt(addr), c.users);
    if i < |c.users| { UpdateShrinks(c, i, c.users[i].(lastPong := now)); } else { SubsetShrinks(c, c); }
  }

  lemma SweepShrinks(c: ChannelState, now: Time)
    ensures Shrinks(c, SweepChannel(c, now))
  {
    SweepKeeps(c, now);
    SweepFilters(c, now);
    SubsetShrinks(c, SweepChannel(c, now));
  }

  lemma MoveAwayShrinks(c: ChannelState, name: Name, addr: Addr)
    ensures Shrinks(c, MoveAway(c, name, addr))
  {
    FilterStepKeeps(c, NotSession(name, addr));
    SubsetShrinks(c, MoveAway(c, name, addr));
  }

  /** Channels that only shrink stay well formed and apart. */
  lemma ShrinkingKeeps(chans: map<string, ChannelState>, after: map<string, ChannelState>)
    requires ChannelsOk(chans) && after != map[] && after.Keys <= chans.Keys
    requires forall cn :: cn in after ==> Shrinks(chans[cn], after[cn])
    ensures ChannelsOk(after)
  {
    forall cn, dn | cn in after && dn in after && cn != dn ensures Apart(after[cn], after[dn]) {
      ApartShrinks(chans[cn], chans[dn], after[cn], after[dn]);
    }
  }

  lemma ApartShrinks(c: ChannelState, d: ChannelState, c': ChannelState, d': ChannelState)
    requires Apart(c, d) && SessionsFrom(c, c') && SessionsFrom(d, d')
    ensures Apart(c', d')
  {
    forall u, v | u in c'.users && v in d'.users ensures !(u.name == v.name && u.addr == v.addr) {
      var x :| x in c.users && x.name == u.name && x.addr == u.addr;
      var y :| y in d.users && y.name == v.name && y.addr == v.addr;
    }
  }

  lemma ShrinksReflexive(c: ChannelState)
    ensures Shrinks(c, c)
  {
    SubsetShrinks(c, c);
  }

  lemma WorkKeeps(st: ServerMap, sid: string, cname: string, w: ChannelWork)
    requires ServerOk(st) && HasChannel(st, sid, cname)
    ensures ServerOk(Apply(st, AtChannel(sid, cname, w)))
  {
    var chans := st[sid];
    var after := chans[cname := Work(chans[cname], w)];
    WorkShrinks(chans[cname], w);
    forall cn | cn in after ensures Shrinks(chans[cn], after[cn]) {
      if cn != cname { ShrinksReflexive(chans[cn]); }
    }
    assert cname in after;
    ShrinkingKeeps(chans, after);
  }

  /** A CONNECT leaves its session in the channel it names and in no other of that server id. */
  lemma EnterKeepsServer(st: ServerMap, sid: string, cname: string, name: Name, addr: Addr, nat_: NatKind, now: Time,
                         freshId: u64)
    requires ServerOk(st) && ChannelOr(st, sid, cname).nextPeerId < U32_MAX
    ensures var after := EnterServer(st, sid, cname, name, addr, nat_, now, freshId);
            && ServerOk(after)
            && forall cn :: cn in after[sid] ==> (HasSession(after[sid][cn], name, addr) <==> cn == cname)
  {
    var c := ChannelOr(st, sid, cname);
    EnterKeeps(c, name, addr, nat_, now, freshId);
    EnterSessions(c, name, addr, nat_, now, freshId);
    assert WellFormed(c);
    InstallKeeps(st, sid, cname, c, Enter(c, name, addr, nat_, now, freshId), name, addr);
  }

  lemma InstallKeeps(st: ServerMap, sid: string, cname: string, c: ChannelState, d: ChannelState, name: Name,
                     addr: Addr)
    requires ServerOk(st) && c == ChannelOr(st, sid, cname) && WellFormed(d) && HasSession(d, name, addr)
    requires forall v :: v in d.users ==>
               (v.name == name && v.addr == addr) || exists u :: u in c.users && u.name == v.name && u.addr == v.addr
    ensures var after := Install(st, sid, cname, name, addr, d);
            && ServerOk(after)
            && forall cn :: cn in after[sid] ==> (HasSession(after[sid][cn], name, addr) <==> cn == cname)
  {
    EnterKeepsChannels(ChannelsOf(st, sid), cname, c, d, name, addr);
  }

  lemma EnterKeepsChannels(chans: map<string, ChannelState>, cname: string, c: ChannelState, d: ChannelState,
                           name: Name, addr: Addr)
    requires chans == map[] || ChannelsOk(chans)
    requires WellFormed(d) && if cname in chans then c == chans[cname] else c.users == []
    requires forall v :: v in d.users ==>
               (v.name == name && v.addr == addr) || exists u :: u in c.users && u.name == v.name && u.addr == v.addr
    ensures var after := MoveOthers(chans, cname, name, addr)[cname := d];
            ChannelsOk(after) && forall cn :: cn in after && cn != cname ==> !HasSession(after[cn], name, addr)
  {
    var after := MoveOthers(chans, cname, name, addr)[cname := d];
    assert cname in after;
    forall cn | cn in after && cn != cname
      ensures WellFormed(after[cn]) && Apart(after[cn], d) && Apart(d, after[cn]) && !HasSession(after[cn], name, addr)
    {
      MoveAwayShrinks(chans[cn], name, addr);
      MovedApart(chans[cn], c, d, name, addr);
    }
    forall cn, dn | cn in after && dn in after && cn != dn && cn != cname && dn != cname
      ensures Apart(after[cn], after[dn])
    {
      MoveAwayShrinks(chans[cn], name, addr);
      MoveAwayShrinks(chans[dn], name, addr);
      ApartShrinks(chans[cn], chans[dn], after[cn], after[dn]);
    }
  }

  /** CONNECT admits no session but its own. */
  lemma EnterSessions(c: ChannelState, name: Name, addr: Addr, nat_: NatKind, now: Time, freshId: u64)
    ensures forall v :: v in Enter(c, name, addr, nat_, now, freshId).users ==>
              (v.name == name && v.addr == addr) || exists u :: u in c.users && u.name == v.name && u.addr == v.addr
  {
    var b := WithId(c, freshId);
    if HasSession(c, name, addr) {
      RefreshShrinks(b, name, addr, now);
      assert SessionsFrom(b, Refresh(b, name, addr, now));
    } else {
      AdmitSessions(b, name, addr, nat_, now);
    }
  }

  lemma AdmitSessions(b: ChannelState, name: Name, addr: Addr, nat_: NatKind, now: Time)
    ensures forall v :: v in Admit(b, name, addr, nat_, now).users ==>
              (v.name == name && v.addr == addr) || v in b.users
  {
  }

  lemma MovedApart(b: ChannelState, c: ChannelState, d: ChannelState, name: Name, addr: Addr)
    requires c.users == [] || Apart(b, c)
    requires forall v :: v in d.users ==>
               (v.name == name && v.addr == addr) || exists u :: u in c.users && u.name == v.name && u.addr == v.addr
    ensures Apart(MoveAway(b, name, addr), d) && Apart(d, MoveAway(b, name, addr))
    ensures !HasSession(MoveAway(b, name, addr), name, addr)
  {
    var moved := MoveAway(b, name, addr);
    forall u, v | u in moved.users && v in d.users ensures !(u.name == v.name && u.addr == v.addr) {
      assert u in b.users && NotSession(name, addr)(u);
      if !(v.name == name && v.addr == addr) {
        var w :| w in c.users && w.name == v.name && w.addr == v.addr;
      }
    }
    assert forall u :: u in moved.users ==> !IsSession(name, addr)(u);
  }

  lemma CleanKeeps(st: ServerMap, sid: string, cname: string)
    requires ServerOk(st)
    ensures ServerOk(CleanOne(st, sid, cname))
  {
    if sid in st {
      var after := st[sid] - {cname};
      if after != map[] {
        forall cn | cn in after ensures Shrinks(st[sid][cn], after[cn]) { ShrinksReflexive(after[cn]); }
        ShrinkingKeeps(st[sid], after);
      }
    }
  }

  lemma {:induction false} CleanAllKeeps(st: ServerMap, names: seq<(string, string)>)
    requires ServerOk(st)
    ensures ServerOk(CleanAll(st, names))
  {
    if names != [] {
      CleanKeeps(st, names[0].0, names[0].1);
      CleanAllKeeps(CleanOne(st, names[0].0, names[0].1), names[1..]);
    }
  }

  lemma TouchAllKeeps(st: ServerMap, addr: Addr, now: Time)
    requires ServerOk(st)
    ensures ServerOk(TouchAll(st, addr, now))
  {
    forall sid | sid in st ensures ChannelsOk(TouchAll(st, addr, now)[sid]) {
      var after := TouchAll(st, addr, now)[sid];
      forall cn | cn in after ensures Shrinks(st[sid][cn], after[cn]) { TouchShrinks(st[sid][cn], addr, now); }
      assert after.Keys == st[sid].Keys;
      ShrinkingKeeps(st[sid], after);
    }
  }

  lemma SweepEveryKeeps(st: ServerMap, now: Time)
    requires ServerOk(st)
    ensures ServerOk(SweepEvery(st, now))
  {
    forall sid | sid in st ensures ChannelsOk(SweepEvery(st, now)[sid]) {
      var after := SweepEvery(st, now)[sid];
      forall cn | cn in after ensures Shrinks(st[sid][cn], after[cn]) { SweepShrinks(st[sid][cn], now); }
      assert after.Keys == st[sid].Keys;
      ShrinkingKeeps(st[sid], after);
    }
  }

  lemma SectionKeeps(st: ServerMap, s: Section)
    requires ServerOk(st) && HasRoom(st, s)
    ensures ServerOk(Apply(st, s))
  {
    match s
    case AtChannel(sid, cname, w) =>
      if HasChannel(st, sid, cname) { WorkKeeps(st, sid, cname, w); }
    case Admission(sid, cname, name, addr, nat_, now, freshId) =>
      EnterKeepsServer(st, sid, cname, name, addr, nat_, now, freshId);
    case PongFrom(addr, now) => TouchAllKeeps(st, addr, now);
    case SweepAll(now) => SweepEveryKeeps(st, now);
    case Cleanup(names) => CleanAllKeeps(st, names);
  }

  /** In every state that any interleaving of lock sections reaches: names are
      distinct within a channel, ids ascend below the next one, Symmetric users need
      the server relay, a session is in at most one channel of a server id, and
      every server id has a channel. */
  lemma {:induction false} EveryRunKeeps(st: ServerMap, ss: seq<Section>)
    requires ServerOk(st) && Roomy(st, ss)
    ensures ServerOk(Run(st, ss))
    decreases |ss|
  {
    if ss != [] {
      SectionKeeps(st, ss[0]);
      EveryRunKeeps(Apply(st, ss[0]), ss[1..]);
    }
  }

  // Identity over the life of a channel

  /** The channel exists in every state of the run. */
  ghost predicate Lives(st: ServerMap, ss: seq<Section>, sid: string, cname: string)
    decreases |ss|
  {
    HasChannel(st, sid, cname) && (ss == [] || Lives(Apply(st, ss[0]), ss[1..], sid, cname))
  }

  lemma {:induction false} CleanedOrSame(st: ServerMap, names: seq<(string, string)>, sid: string, cname: string)
    requires HasChannel(st, sid, cname) && HasChannel(CleanAll(st, names), sid, cname)
    ensures CleanAll(st, names)[sid][cname] == st[sid][cname]
  {
    if names != [] {
      var next := CleanOne(st, names[0].0, names[0].1);
      if HasChannel(next, sid, cname) {
        CleanedOrSame(next, names[1..], sid, cname);
      } else {
        StaysGone(next, names[1..], sid, cname);
      }
    }
  }

  lemma {:induction false} StaysGone(st: ServerMap, names: seq<(string, string)>, sid: string, cname: string)
    requires !HasChannel(st, sid, cname)
    ensures !HasChannel(CleanAll(st, names), sid, cname)
  {
    if names != [] {
      StaysGone(CleanOne(st, names[0].0, names[0].1), names[1..], sid, cname);
    }
  }

  lemma SectionEvolves(st: ServerMap, s: Section, sid: string, cname: string)
    requires HasRoom(st, s) && HasChannel(st, sid, cname) && HasChannel(Apply(st, s), sid, cname)
    ensures Evolves(st[sid][cname], Apply(st, s)[sid][cname])
  {
    if s.Admission? { AdmissionEvolves(st, s, sid, cname); } else { OtherSectionShrinks(st, s, sid, cname); }
  }

  lemma AdmissionEvolves(st: ServerMap, s: Section, sid: string, cname: string)
    requires s.Admission? && HasRoom(st, s) && HasChannel(st, sid, cname)
    ensures HasChannel(Apply(st, s), sid, cname) && Evolves(st[sid][cname], Apply(st, s)[sid][cname])
  {
    var c, d := st[sid][cname], Apply(st, s)[sid][cname];
    if s.sid != sid {
      assert d == c;
      ShrinksReflexive(c);
    } else if s.cname != cname {
      assert d == MoveAway(c, s.name, s.addr);
      MoveAwayShrinks(c, s.name, s.addr);
    } else {
      assert d == Enter(c, s.name, s.addr, s.nat_, s.now, s.freshId);
      EnterKeeps(c, s.name, s.addr, s.nat_, s.now, s.freshId);
    }
  }

  lemma OtherSectionShrinks(st: ServerMap, s: Section, sid: string, cname: string)
    requires !s.Admission? && HasChannel(st, sid, cname) && HasChannel(Apply(st, s), sid, cname)
    ensures Shrinks(st[sid][cname], Apply(st, s)[sid][cname])
  {
    var c, d := st[sid][cname], Apply(st, s)[sid][cname];
    match s
    case AtChannel(sid', cname', w) =>
      assert d == if sid' == sid && cname' == cname then Work(c, w) else c;
      WorkShrinks(c, w);
      ShrinksReflexive(c);
    case PongFrom(addr, now) =>
      assert d == Touch(c, addr, now);
      TouchShrinks(c, addr, now);
    case SweepAll(now) =>
      assert d == SweepChannel(c, now);
      SweepShrinks(c, now);
    case Cleanup(names) =>
      CleanedOrSame(st, names, sid, cname);
      ShrinksReflexive(c);
  }

  lemma {:induction false} RunEvolves(st: ServerMap, ss: seq<Section>, sid: string, cname: string)
    requires Roomy(st, ss) && Lives(st, ss, sid, cname)
    ensures HasChannel(Run(st, ss), sid, cname)
    ensures Evolves(st[sid][cname], Run(st, ss)[sid][cname])
    decreases |ss|
  {
    if ss == [] {
      ShrinksReflexive(st[sid][cname]);
    } else {
      var next := Apply(st, ss[0]);
      SectionEvolves(st, ss[0], sid, cname);
      RunEvolves(next, ss[1..], sid, cname);
      EvolvesTransitive(st[sid][cname], next[sid][cname], Run(st, ss)[sid][cname]);
    }
  }

  /** While a channel exists, under every interleaving: an id names one session
      only, and its need for the server relay is never taken back. */
  lemma IdentityOverRuns(st: ServerMap, ss: seq<Section>, sid: string, cname: string, u: User, v: User)
    requires ServerOk(st) && Roomy(st, ss) && Lives(st, ss, sid, cname)
    requires HasChannel(Run(st, ss), sid, cname)
    requires u in st[sid][cname].users && v in Run(st, ss)[sid][cname].users && u.peerId == v.peerId
    ensures SameIdentity(u, v) && (u.needsServerRelay ==> v.needsServerRelay)
    ensures st[sid][cname].channelId != 0 ==> Run(st, ss)[sid][cname].channelId == st[sid][cname].channelId
  {
    RunEvolves(st, ss, sid, cname);
    IdentityIsStable(st[sid][cname], Run(st, ss)[sid][cname], u, v);
  }

  /** Whoever joined during the run has a larger id than everyone there at its start. */
  lemma NewcomersHaveLargerIds(st: ServerMap, ss: seq<Section>, sid: string, cname: string, u: User, v: User)
    requires ServerOk(st) && Roomy(st, ss) && Lives(st, ss, sid, cname)
    requires HasChannel(Run(st, ss), sid, cname)
    requires u in st[sid][cname].users && v in Run(st, ss)[sid][cname].users
    requires forall w :: w in st[sid][cname].users ==> !SameIdentity(w, v)
    ensures u.peerId < v.peerId
  {
    RunEvolves(st, ss, sid, cname);
    NewcomerAbove(st[sid][cname], Run(st, ss)[sid][cname], u, v);
  }

  lemma NewcomerAbove(c: ChannelState, d: ChannelState, u: User, v: User)
    requires WellFormed(c) && Evolves(c, d) && u in c.users && v in d.users
    requires forall w :: w in c.users ==> !SameIdentity(w, v)
    ensures u.peerId < v.peerId
  {
  }
}
