/** Concrete channels on which a request leaves a relay that is not the first eligible
    user, or clients that are wrong about their channel. When exactly this happens is
    stated in `ChannelRounds`, `ServerRounds`, `SweepNews` and `Departures`. */
module Breakages {
  import opened Agreement
  import opened ChannelRounds
  import opened ChannelSteps
  import opened ClientSteps
  import opened Departures
  import opened Election
  import opened Hearing
  import opened Ints
  import opened Joining
  import opened Seqs
  import opened Structures
  import opened Sweep
  import opened SweepNews
  import opened Wrappers

  const HOME := Addr(1, 4000)
  const AWAY := Addr(2, 4000)
  const ALICE := User(1, "alice", HOME, 0, false, Cone)
  const BOB := User(2, "bob", AWAY, 0, true, Symmetric)
  const CAROL := User(3, "carol", Addr(3, 4000), 0, true, Symmetric)

  const ALONE := ChannelState(7, 2, [ALICE], Some("alice"))
  const PAIR := ChannelState(7, 3, [ALICE, BOB], Some("alice"))
  const SERVED := ChannelState(7, 4, [BOB, CAROL], None)

  lemma ExamplesAreExact()
    ensures WellFormed(ALONE) && RelayExact(ALONE)
    ensures WellFormed(PAIR) && RelayExact(PAIR)
    ensures WellFormed(SERVED) && RelayExact(SERVED)
  {
    assert FirstEligible(ALONE.users, Some(ALICE)) by { assert ALONE.users[0] == ALICE; }
    assert FirstEligible(PAIR.users, Some(ALICE)) by { assert PAIR.users[0] == ALICE; }
    assert FirstEligible(SERVED.users, None);
  }

  lemma OthersThanAlice()
    ensures Filter(NotNamed("alice"), PAIR.users) == [BOB]
    ensures Filter(NotNamed("bob"), SERVED.users) == [CAROL]
  {
    assert PAIR.users[1..] == [BOB] && SERVED.users[1..] == [CAROL];
    FilterAll(NotNamed("alice"), [BOB]);
    FilterAll(NotNamed("bob"), [CAROL]);
  }

  /** The relay's DISCONNECT, PEER_TIMEOUT and REQUEST_RELAY, its move to another
      channel, its return behind a Symmetric NAT, and a PEER_TIMEOUT that leaves one
      served user: each breaks the relay. */
  lemma RelayNotAlwaysExact(now: Time, freshId: u64)
    ensures !RelayExact(Disconnect(PAIR, "alice", HOME))
    ensures !RelayExact(DropPeer(PAIR, "alice"))
    ensures !RelayExact(Latch(PAIR, "alice"))
    ensures !RelayExact(MoveAway(PAIR, "alice", HOME))
    ensures !RelayExact(Connect(ALONE, "alice", AWAY, Symmetric, now, freshId))
    ensures !RelayExact(DropPeer(SERVED, "bob"))
  {
    ExamplesAreExact();
    OthersThanAlice();
    assert ALICE in PAIR.users && IsSession("alice", HOME)(PAIR.users[0]);
    assert HasSession(PAIR, "alice", HOME);
    DisconnectExact(PAIR, "alice", HOME);
    PeerTimeoutExact(PAIR, "alice");
    PeerTimeoutExact(SERVED, "bob");
    LatchExact(PAIR, "alice");
    MoveAwayExact(PAIR, "alice", HOME);
    ConnectExact(ALONE, "alice", AWAY, Symmetric, now, freshId);
  }

  /** The id counter wraps: the next newcomer is listed behind an id larger than its own. */
  lemma IdsNotAlwaysOrdered(now: Time)
    ensures var full := ChannelState(7, U32_MAX, [ALICE], Some("alice"));
            WellFormed(full) && !IdsOrdered(Admit(full, "bob", AWAY, Cone, now))
  {
    AdmitKeepsIdsUnlessWrapped(ChannelState(7, U32_MAX, [ALICE], Some("alice")), "bob", AWAY, Cone, now);
  }

  // A served user that takes itself for the relay

  const LATE: Time := 100 * SECOND
  const FADING := ChannelState(7, 4, [BOB, CAROL.(lastPong := LATE)], None)

  /** Of two served users one times out; the sweep tells the other that it is the relay
      and leaves the channel without one. */
  lemma SweepMisleads()
    ensures WellFormed(FADING) && RelayExact(FADING) && SweepChannel(FADING, LATE).relay.None?
    ensures Hears(SweepPass(FADING, LATE).notes, CAROL.addr, ModeRelay) && WronglyAppoints(FADING, LATE)
  {
    var carol := CAROL.(lastPong := LATE);
    assert FADING.users[1..] == [carol] && FADING.users[0..] == FADING.users;
    FilterAll(Alive(LATE), [carol]);
    FilterNone(Gone(LATE), [carol]);
    assert FirstEligible(FADING.users, None);
    LonerIsAppointed(FADING, LATE, carol);
    SweepAppoints(FADING, LATE);
  }

  // A successor that does not know of a served member

  const SERVER := Addr(9, 2131)
  const DAVE := User(2, "dave", AWAY, 0, false, Cone)
  const TRIO := ChannelState(7, 4, [ALICE, DAVE, CAROL], Some("alice"))
  const TRIO_CLIENTS: map<Addr, ClientState> :=
    map[HOME := ClientState("alice", SERVER, true, true, false, false, [NewPeer("dave", AWAY, 0)]),
        AWAY := ClientState("dave", SERVER, false, false, false, false, [NewPeer("alice", HOME, 0)]),
        CAROL.addr := ClientState("carol", SERVER, false, false, true, true, [])]

  lemma TrioIsWellFormed()
    ensures WellFormed(TRIO) && DistinctAddrs(TRIO.users) && RelayExact(TRIO)
  {
    assert TRIO.users[0] == ALICE;
    assert FirstEligible(TRIO.users, Some(ALICE));
  }

  lemma AliceIsInTune()
    ensures InTune(TRIO, TRIO_CLIENTS, SERVER, ALICE)
  {
    var users, k := TRIO.users, TRIO_CLIENTS[HOME];
    assert users[1] == DAVE && k.peers[0] == NewPeer("dave", AWAY, 0);
    assert Describes(k.peers[0], ALICE, users);
    assert Knows(k, AWAY);
  }

  lemma DaveIsInTune()
    ensures InTune(TRIO, TRIO_CLIENTS, SERVER, DAVE)
  {
    var users, k := TRIO.users, TRIO_CLIENTS[AWAY];
    assert users[0] == ALICE && k.peers[0] == NewPeer("alice", HOME, 0);
    assert Describes(k.peers[0], DAVE, users);
    assert Knows(k, HOME);
  }

  lemma TrioIsSettled()
    ensures WellFormed(TRIO) && Settled(TRIO, TRIO_CLIENTS, SERVER)
  {
    TrioIsWellFormed();
    AliceIsInTune();
    DaveIsInTune();
    assert InTune(TRIO, TRIO_CLIENTS, SERVER, CAROL);
  }

  /** When the relay disconnects and leaves an eligible and a served member, the new
      relay is never told to mirror to the server. */
  lemma MirrorDutyLost(now: Time)
    ensures WellFormed(TRIO) && Settled(TRIO, TRIO_CLIENTS, SERVER)
    ensures !Settled(Disconnect(TRIO, "alice", HOME),
                     HearAll(TRIO_CLIENTS, DisconnectNotices(TRIO, "alice", HOME), now), SERVER)
  {
    TrioIsSettled();
    DaveDoesNotMirror();
    DepartureAgrees(TRIO, TRIO_CLIENTS, SERVER, "alice", HOME, now);
  }

  lemma DaveDoesNotMirror()
    ensures !DepartureSpares(TRIO, TRIO_CLIENTS, "alice", HOME)
  {
    assert TRIO.users[0] == ALICE && IsSession("alice", HOME)(ALICE);
    assert Leave(TRIO, "alice", HOME).users == [DAVE, CAROL];
    assert [DAVE, CAROL][0] == DAVE && CAROL in [DAVE, CAROL];
  }

  /** A DISCONNECT in the relay's name from another address removes nobody and makes
      every client forget the relay. */
  lemma RelayForgotten(now: Time)
    ensures WellFormed(TRIO) && Settled(TRIO, TRIO_CLIENTS, SERVER) && Disconnect(TRIO, "alice", AWAY) == TRIO
    ensures !Settled(TRIO, HearAll(TRIO_CLIENTS, DisconnectNotices(TRIO, "alice", AWAY), now), SERVER)
  {
    TrioIsSettled();
    assert !HasSession(TRIO, "alice", AWAY);
    assert TRIO.users[0] == ALICE && TRIO.users[1] == DAVE;
    assert ALICE in TRIO.users && DAVE in TRIO.users && !Dispensable(TRIO.users, "alice");
    DisconnectUnmatched(TRIO, "alice", AWAY);
    UnmatchedAgrees(TRIO, TRIO_CLIENTS, SERVER, "alice", AWAY, now);
  }

  const MOVED := Addr(4, 4000)

  /** A member that comes back from another address stays listed at its old one. */
  lemma OldAddressStays(now: Time, freshId: u64)
    ensures WellFormed(TRIO) && Settled(TRIO, TRIO_CLIENTS, SERVER)
    ensures !Settled(Connect(TRIO, "dave", MOVED, Cone, now, freshId),
                     HearAll(Newcomer(TRIO_CLIENTS, SERVER, "dave", MOVED),
                             ConnectNotices(TRIO, "dave", MOVED, Cone, now, freshId), now), SERVER)
  {
    TrioIsSettled();
    var alice := TRIO_CLIENTS[HOME];
    assert TRIO.users[0] == ALICE && alice.peers[0].username == "dave" && alice.peers[0] in alice.peers;
    StaleEntryStays(TRIO, TRIO_CLIENTS, SERVER, "dave", MOVED, Cone, now, freshId, ALICE, alice.peers[0]);
  }
}
