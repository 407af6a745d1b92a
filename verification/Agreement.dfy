/** What the members of a channel have to know for DATA to get through. */
module Agreement {
  import opened ClientSteps
  import opened Election
  import opened Structures
  import opened Wrappers

  ghost predicate Knows(k: ClientState, a: Addr) {
    exists p :: p in k.peers && p.addr == a
  }

  /** `p` describes a member other than `u`. */
  ghost predicate Describes(p: PeerInfo, u: User, users: seq<User>) {
    exists v :: v in users && v.name != u.name && v.name == p.username && v.addr == p.addr
        && (p.useServerRelay ==> v.needsServerRelay)
  }

  /** Nothing client `k` of member `u` believes is wrong. */
  ghost predicate Truthful(c: ChannelState, u: User, k: ClientState) {
    && k.me == u.name
    && (forall p :: p in k.peers ==> Describes(p, u, c.users))
    && (k.isRelay ==> c.relay == Some(u.name))
    && (k.sendViaServer ==> u.needsServerRelay)
  }

  /** Client `k` of member `u` knows what its part requires. */
  ghost predicate Informed(c: ChannelState, u: User, k: ClientState) {
    && (c.relay == Some(u.name) ==>
          && k.isRelay
          && (forall v :: v in c.users && v.name != u.name && Eligible(v) ==> Knows(k, v.addr))
          && ((exists v :: v in c.users && v.needsServerRelay) ==> k.channelHasServerRelays))
    && (Eligible(u) ==> forall r :: r in c.users && c.relay == Some(r.name) && r.name != u.name ==> Knows(k, r.addr))
    && (u.needsServerRelay ==> k.sendViaServer)
  }

  /** Member `u` has a client that is right about the channel. */
  ghost predicate InTune(c: ChannelState, clients: map<Addr, ClientState>, server: Addr, u: User) {
    && u.addr != server && u.addr in clients && clients[u.addr].server == server
    && Truthful(c, u, clients[u.addr]) && Informed(c, u, clients[u.addr])
  }

  ghost predicate Agreed(c: ChannelState, clients: map<Addr, ClientState>, server: Addr) {
    forall u {:trigger InTune(c, clients, server, u)} :: u in c.users ==> InTune(c, clients, server, u)
  }

  /** The relay is an eligible member, or there is none and nobody is eligible. */
  ghost predicate RelayServes(c: ChannelState) {
    match c.relay
    case None => forall u :: u in c.users ==> !Eligible(u)
    case Some(name) => exists r :: r in c.users && r.name == name && Eligible(r)
  }

  /** Distinct names and addresses, a relay that serves, and the server and the clients
      of one mind. */
  ghost predicate Working(c: ChannelState, clients: map<Addr, ClientState>, server: Addr) {
    DistinctNames(c.users) && DistinctAddrs(c.users) && RelayServes(c) && Agreed(c, clients, server)
  }

  /** The same with the first eligible member as the relay. */
  ghost predicate Settled(c: ChannelState, clients: map<Addr, ClientState>, server: Addr) {
    DistinctNames(c.users) && DistinctAddrs(c.users) && RelayExact(c) && Agreed(c, clients, server)
  }

  lemma ExactServes(c: ChannelState)
    requires RelayExact(c)
    ensures RelayServes(c)
  {
    var f :| FirstEligible(c.users, f) && NameOf(f) == c.relay;
  }

  lemma SettledWorks(c: ChannelState, clients: map<Addr, ClientState>, server: Addr)
    requires Settled(c, clients, server)
    ensures Working(c, clients, server)
  {
    ExactServes(c);
  }
}
