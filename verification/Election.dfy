/** Relay election: the two pickers, and the fact they both compute. */
module Election {
  import opened Seqs
  import opened Structures
  import opened Wrappers

  /** `pick_eligible_relay` of src/signaling/heartbeat.rs. */
  function PickOnTimeout(users: seq<User>): Option<User> {
    Find(NoRelayNeeded(), users)
  }

  function NoRelayNeeded(): User -> bool { (u: User) => !u.needsServerRelay }

  /** `pick_eligible_relay` of src/signaling/handlers/notifications.rs. */
  function PickOnNotify(users: seq<User>): Option<User> {
    Find(NoRelayNeededNorSymmetric(), users)
  }

  function NoRelayNeededNorSymmetric(): User -> bool { (u: User) => !u.needsServerRelay && u.natKind != Symmetric }

  /** `r` is the first eligible user in list order, or `None` if there is none. */
  ghost predicate FirstEligible(users: seq<User>, r: Option<User>) {
    match r
    case None => forall u :: u in users ==> !Eligible(u)
    case Some(v) =>
      exists i :: 0 <= i < |users| && users[i] == v && Eligible(v) && forall j :: 0 <= j < i ==> !Eligible(users[j])
  }

  lemma FirstEligibleUnique(users: seq<User>, r: Option<User>, s: Option<User>)
    requires FirstEligible(users, r) && FirstEligible(users, s)
    ensures r == s
  {
  }

  /** The name a channel's `relay` field should hold. */
  ghost predicate ExactRelay(users: seq<User>, relay: Option<Name>) {
    exists r :: FirstEligible(users, r) && NameOf(r) == relay
  }

  ghost predicate RelayExact(c: ChannelState) {
    ExactRelay(c.users, c.relay)
  }

  lemma ExactIsPick(users: seq<User>, relay: Option<Name>)
    ensures ExactRelay(users, relay) <==> relay == NameOf(PickOnTimeout(users))
  {
    PickOnTimeoutIsFirst(users);
    if ExactRelay(users, relay) {
      var r :| FirstEligible(users, r) && NameOf(r) == relay;
      FirstEligibleUnique(users, r, PickOnTimeout(users));
    }
  }

  lemma PickOnTimeoutIsFirst(users: seq<User>)
    ensures FirstEligible(users, PickOnTimeout(users))
  {
    FindIsFirst(NoRelayNeeded(), users);
  }

  lemma PickOnNotifyIsFirst(users: seq<User>)
    requires SymmetricNeedsRelay(users)
    ensures FirstEligible(users, PickOnNotify(users))
    ensures PickOnNotify(users) == PickOnTimeout(users)
  {
    var r := PickOnNotify(users);
    FindIsFirst(NoRelayNeededNorSymmetric(), users);
    PickOnTimeoutIsFirst(users);
    if r.Some? {
      var p := NoRelayNeededNorSymmetric();
      var i :| 0 <= i < |users| && users[i] == r.value && p(users[i]) && forall j :: 0 <= j < i ==> !p(users[j]);
      forall j | 0 <= j < i ensures !Eligible(users[j]) {
        assert users[j] in users && !p(users[j]);
      }
    }
    FirstEligibleUnique(users, r, PickOnTimeout(users));
  }

  /** The first eligible user is the eligible user that has been there longest. */
  lemma FirstHasSmallestId(users: seq<User>, r: Option<User>)
    requires IdsAscend(users) && FirstEligible(users, r)
    ensures r.Some? ==> forall u :: u in users && Eligible(u) ==> r.value.peerId <= u.peerId
  {
    if r.Some? {
      var i :| 0 <= i < |users| && users[i] == r.value && forall j :: 0 <= j < i ==> !Eligible(users[j]);
      forall u | u in users && Eligible(u) ensures r.value.peerId <= u.peerId {
        var j :| 0 <= j < |users| && users[j] == u;
      }
    }
  }

  /** The two pickers agree on every channel the server can reach, and what they
      pick is the eligible user with the smallest peer id. */
  lemma PickersAgree(c: ChannelState)
    requires WellFormed(c)
    ensures PickOnNotify(c.users) == PickOnTimeout(c.users)
    ensures PickOnNotify(c.users).Some? <==> exists u :: u in c.users && Eligible(u)
    ensures PickOnNotify(c.users).Some? ==>
              forall u :: u in c.users && Eligible(u) ==> PickOnNotify(c.users).value.peerId <= u.peerId
  {
    PickOnNotifyIsFirst(c.users);
    FirstHasSmallestId(c.users, PickOnNotify(c.users));
  }
}
