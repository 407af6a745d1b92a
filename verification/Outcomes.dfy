/** What each request leaves of the server's map, user by user and field by field. */
module Outcomes {
  import opened ChannelRounds
  import opened ChannelSteps
  import opened Election
  import opened Ints
  import opened Seqs
  import opened ServerRounds
  import opened ServerSteps
  import opened Structures
  import opened Sweep
  import opened Wrappers

  /** The first user of that name and address, or of that name, is the one at position `i`. */
  ghost predicate FirstSession(c: ChannelState, name: Name, addr: Addr, i: nat) {
    && i < |c.users| && c.users[i].name == name && c.users[i].addr == addr
    && forall j :: 0 <= j < i ==> !(c.users[j].name == name && c.users[j].addr == addr)
  }

  ghost predicate FirstOf(c: ChannelState, name: Name, i: nat) {
    i < |c.users| && c.users[i].name == name && forall j :: 0 <= j < i ==> c.users[j].name != name
  }

  lemma SessionPlace(c: ChannelState, name: Name, addr: Addr, i: nat)
    requires FirstSession(c, name, addr, i)
    ensures Position(IsSession(name, addr), c.users) == i
  {
    assert IsSession(name, addr)(c.users[i]);
  }

  lemma NoPlace(c: ChannelState, name: Name, addr: Addr)
    requires forall u :: u in c.users ==> !(u.name == name && u.addr == addr)
    ensures Position(IsSession(name, addr), c.users) == |c.users|
  {
  }

  // CONNECT

  /** The other channels of the server id lose exactly that session; other server ids
      lose nothing. */
  ghost predicate OthersMoved(st: ServerMap, after: ServerMap, sid: string, cname: string, name: Name, addr: Addr) {
    forall s, cn :: (s, cn) != (sid, cname) ==>
      && (HasChannel(after, s, cn) <==> HasChannel(st, s, cn))
      && (HasChannel(st, s, cn) ==>
            var c, d := st[s][cn], after[s][cn];
            && d.relay == c.relay && d.nextPeerId == c.nextPeerId && d.channelId == c.channelId
            && d.users == if s == sid then Filter((u: User) => !(u.name == name && u.addr == addr), c.users)
                          else c.users)
  }

  lemma ArrivedMoved(st: ServerMap, after: ServerMap, sid: string, cname: string, name: Name, addr: Addr,
                     c: ChannelState)
    requires Arrived(st, after, sid, cname, name, addr, c)
    ensures OthersMoved(st, after, sid, cname, name, addr)
  {
    forall s, cn | (s, cn) != (sid, cname)
      ensures HasChannel(after, s, cn) <==> HasChannel(st, s, cn)
      ensures HasChannel(st, s, cn) ==>
                after[s][cn] == if s == sid then MoveAway(st[s][cn], name, addr) else st[s][cn]
    {
      assert s == sid ==> cn != cname;
    }
    forall c: ChannelState
      ensures MoveAway(c, name, addr).users == Filter((u: User) => !(u.name == name && u.addr == addr), c.users)
    {
      FilterSame(NotSession(name, addr), (u: User) => !(u.name == name && u.addr == addr), c.users);
    }
  }

  /** A new session takes the place of every user of its name, at the end of the list, with
      the next id, which is then used up. */
  lemma NewcomerLeaves(c: ChannelState, name: Name, addr: Addr, nat_: NatKind, now: Time, freshId: u64)
    requires forall u :: u in c.users ==> !(u.name == name && u.addr == addr)
    ensures var d := Connect(c, name, addr, nat_, now, freshId);
            && d.users == Filter((u: User) => u.name != name, c.users)
                          + [User(c.nextPeerId, name, addr, now, nat_ == Symmetric, nat_)]
            && d.nextPeerId == (if c.nextPeerId == 0xFFFF_FFFF then 0 else c.nextPeerId + 1)
            && d.channelId == (if c.channelId == 0 then freshId else c.channelId)
  {
    NoPlace(c, name, addr);
    StaleAreNamed(c, name, addr);
  }

  /** A lone newcomer becomes the relay of a channel without one unless it needs the server,
      and several users elect. */
  lemma NewcomerRelay(c: ChannelState, name: Name, addr: Addr, nat_: NatKind, now: Time, freshId: u64)
    requires forall u :: u in c.users ==> !(u.name == name && u.addr == addr)
    ensures var d := Connect(c, name, addr, nat_, now, freshId);
            && (|d.users| == 1 ==>
                  d.relay == if c.relay.Some? || nat_ == Symmetric then c.relay else Some(name))
            && (|d.users| > 1 && SymmetricNeedsRelay(c.users) ==> ExactRelay(d.users, d.relay))
  {
    NoPlace(c, name, addr);
    var e := Enter(c, name, addr, nat_, now, freshId);
    if |e.users| > 1 && SymmetricNeedsRelay(c.users) {
      NewcomerServed(c, name, addr, nat_, now, freshId);
      AnnounceExact(e);
    }
  }

  lemma NewcomerServed(c: ChannelState, name: Name, addr: Addr, nat_: NatKind, now: Time, freshId: u64)
    requires !HasSession(c, name, addr) && SymmetricNeedsRelay(c.users)
    ensures SymmetricNeedsRelay(Enter(c, name, addr, nat_, now, freshId).users)
  {
  }

  /** CONNECT works on the channel it names and takes the session out of the others. */
  lemma ArrivalLeaves(st: ServerMap, sid: string, cname: string, name: Name, addr: Addr, nat_: NatKind, now: Time,
                      freshId: u64)
    ensures var after := Handle(st, Arrive(sid, cname, name, addr, nat_, now, freshId));
            && OthersMoved(st, after, sid, cname, name, addr) && HasChannel(after, sid, cname)
            && after[sid][cname] == Connect(ChannelOr(st, sid, cname), name, addr, nat_, now, freshId)
  {
    var d := Connect(ChannelOr(st, sid, cname), name, addr, nat_, now, freshId);
    ArriveChannels(st, sid, cname, name, addr, nat_, now, freshId);
    ArrivedMoved(st, Handle(st, Arrive(sid, cname, name, addr, nat_, now, freshId)), sid, cname, name, addr, d);
  }

  lemma StaleAreNamed(c: ChannelState, name: Name, addr: Addr)
    requires forall u :: u in c.users ==> !(u.name == name && u.addr == addr)
    ensures Filter(NotStale(name, addr), c.users) == Filter((u: User) => u.name != name, c.users)
  {
    FilterSame(NotStale(name, addr), (u: User) => u.name != name, c.users);
  }

  /** `d` is `c` but for the user at position `i`, of whom only `needsServerRelay` and
      `lastPong` may differ. */
  ghost predicate OneTouched(c: ChannelState, d: ChannelState, i: nat) {
    && i < |c.users| == |d.users| && d.relay == c.relay && d.nextPeerId == c.nextPeerId
    && (forall j :: 0 <= j < |c.users| && j != i ==> d.users[j] == c.users[j])
    && var u, v := c.users[i], d.users[i];
       v.peerId == u.peerId && v.name == u.name && v.addr == u.addr && v.natKind == u.natKind
  }

  /** A present session is refreshed where it is; the rest of its channel is as before. */
  lemma ReturnLeaves(c: ChannelState, name: Name, addr: Addr, nat_: NatKind, now: Time, freshId: u64, i: nat)
    requires FirstSession(c, name, addr, i)
    ensures var d := Connect(c, name, addr, nat_, now, freshId);
            && OneTouched(c, d, i) && d.users[i].lastPong == now
            && d.users[i].needsServerRelay == c.users[i].needsServerRelay
            && d.channelId == (if c.channelId == 0 then freshId else c.channelId)
  {
    SessionPlace(c, name, addr, i);
  }

  // DISCONNECT

  /** A session that leaves takes nobody with it; a relay's leaving makes a lone user the
      relay and otherwise elects. */
  lemma DepartureLeaves(st: ServerMap, sid: string, cname: string, name: Name, addr: Addr, i: nat)
    requires HasChannel(st, sid, cname) && FirstSession(st[sid][cname], name, addr, i)
    ensures var after := Handle(st, Depart(sid, cname, name, addr));
            var c, d := st[sid][cname], ChannelOr(after, sid, cname);
            && OnlyChannel(st, after, sid, cname, d)
            && d.users == c.users[..i] + c.users[i + 1..]
            && d.nextPeerId == c.nextPeerId && d.channelId == c.channelId
            && (c.relay != Some(name) ==> d.relay == c.relay)
            && (c.relay == Some(name) && |d.users| == 1 ==> d.relay == Some(d.users[0].name))
            && (c.relay == Some(name) && |d.users| != 1 && SymmetricNeedsRelay(c.users) ==>
                  ExactRelay(d.users, d.relay))
  {
    var c := st[sid][cname];
    SessionPlace(c, name, addr, i);
    DepartChannel(st, sid, cname, name, addr);
    RemoveAtMembers(c.users, i);
    var e := Leave(c, name, addr);
    if |e.users| != 1 && SymmetricNeedsRelay(c.users) {
      ResettleExact(e);
    }
  }

  /** A DISCONNECT of nobody there changes nothing. */
  lemma StrangerDeparts(st: ServerMap, sid: string, cname: string, name: Name, addr: Addr)
    requires forall u :: u in ChannelOr(st, sid, cname).users ==> !(u.name == name && u.addr == addr)
    ensures Handle(st, Depart(sid, cname, name, addr)) == st
  {
    NoPlace(ChannelOr(st, sid, cname), name, addr);
    DepartRuns(st, sid, cname, name, addr);
    if HasChannel(st, sid, cname) {
      PutBack(st, sid, cname);
    }
  }

  lemma PutBack(st: ServerMap, sid: string, cname: string)
    requires HasChannel(st, sid, cname)
    ensures Put(st, sid, cname, st[sid][cname]) == st
  {
    assert st[sid][cname := st[sid][cname]] == st[sid];
  }

  // PEER_TIMEOUT, REQUEST_RELAY

  /** Every user of the name goes; one user left becomes the relay, and otherwise the relay
      stays what it was. */
  lemma TimeoutLeaves(st: ServerMap, sid: string, cname: string, name: Name)
    requires HasChannel(st, sid, cname)
    ensures var after := Handle(st, ReportTimeout(sid, cname, name));
            var c, d := st[sid][cname], ChannelOr(after, sid, cname);
            && OnlyChannel(st, after, sid, cname, d)
            && d.users == Filter((u: User) => u.name != name, c.users)
            && d.nextPeerId == c.nextPeerId && d.channelId == c.channelId
            && d.relay == if |d.users| == 1 then Some(d.users[0].name) else c.relay
  {
    RunOne(st, AtChannel(sid, cname, PeerTimeout(name)));
    WorkOnly(st, sid, cname, PeerTimeout(name));
    FilterSame(NotNamed(name), (u: User) => u.name != name, st[sid][cname].users);
  }

  /** The first user of the name needs the server from then on; nothing else changes. */
  lemma RequestLeaves(st: ServerMap, sid: string, cname: string, name: Name, i: nat)
    requires HasChannel(st, sid, cname) && FirstOf(st[sid][cname], name, i)
    ensures var after := Handle(st, RequestServerRelay(sid, cname, name));
            var c, d := st[sid][cname], ChannelOr(after, sid, cname);
            && OnlyChannel(st, after, sid, cname, d) && OneTouched(c, d, i) && d.channelId == c.channelId
            && d.users[i].needsServerRelay && d.users[i].lastPong == c.users[i].lastPong
  {
    RunOne(st, AtChannel(sid, cname, RequestRelay(name)));
    WorkOnly(st, sid, cname, RequestRelay(name));
    assert Named(name)(st[sid][cname].users[i]);
    assert Position(Named(name), st[sid][cname].users) == i;
  }

  /** A request for a name nobody has changes nothing. */
  lemma StrangerRequested(st: ServerMap, sid: string, cname: string, name: Name)
    requires forall u :: u in ChannelOr(st, sid, cname).users ==> u.name != name
    ensures Handle(st, RequestServerRelay(sid, cname, name)) == st
  {
    RunOne(st, AtChannel(sid, cname, RequestRelay(name)));
    if HasChannel(st, sid, cname) {
      PutBack(st, sid, cname);
    }
  }

  /** A heartbeat of nobody there changes nothing. */
  lemma StrangerBeats(st: ServerMap, sid: string, cname: string, name: Name, addr: Addr, now: Time)
    requires forall u :: u in ChannelOr(st, sid, cname).users ==> !(u.name == name && u.addr == addr)
    ensures Handle(st, ReceiveBeat(sid, cname, name, addr, now)) == st
  {
    RunOne(st, AtChannel(sid, cname, Heartbeat(name, addr, now)));
    NoPlace(ChannelOr(st, sid, cname), name, addr);
    if HasChannel(st, sid, cname) {
      PutBack(st, sid, cname);
    }
  }

  // The sweep

  /** A sweep keeps the users heard from in the last 40 seconds, in order, and the channel's
      counters; a relay that is kept stays, unless one served user is left. */
  lemma SweepLeaves(c: ChannelState, now: Time)
    ensures var d := SweepChannel(c, now);
            && d.users == Filter((u: User) => now - u.lastPong <= 40_000_000_000, c.users)
            && d.nextPeerId == c.nextPeerId && d.channelId == c.channelId
            && (|d.users| == 1 ==> d.relay == if d.users[0].needsServerRelay then None else Some(d.users[0].name))
  {
    SweepFilters(c, now);
    FilterSame(Alive(now), (u: User) => now - u.lastPong <= 40_000_000_000, c.users);
  }
}
