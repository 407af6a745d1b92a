/** The service as its users see it: whatever run of joins, departures, time-outs and
    relay requests a channel has gone through, a message gets to everyone else and not
    back. */
module Service {
  import opened Agreement
  import opened Cascade
  import opened ClientSteps
  import opened Delivery
  import opened Meetings
  import opened Routing
  import opened ServerSteps
  import opened Structures

  /** After any allowed run from a harmonious meeting, such as the empty channel, and with
      any other channels on the server that do not share its members' addresses: a message
      of any member ends after a fixed number of deliveries, reaches every other member,
      and never returns to its sender, under every order of deliveries. */
  lemma RunsDeliver(w: World, m: Meeting, es: seq<Event>, s: User, text: string, chs: seq<Choice>)
    requires Harmony(m, w.server) && AllAllowed(m, w.server, es)
    requires var e := After(m, w.server, es);
             HasChannel(w.st, w.sid, w.cname) && w.Channel() == e.c && w.clients == e.clients && s in e.c.users
    requires forall u :: u in w.Channel().users ==> OnlyIn(w.st, w.sid, w.cname, u.addr)
    requires Schedule(w, s.name, text, Start(w, s, text), chs)
    ensures var e := DeliverAll(w, s.name, text, Start(w, s, text), chs);
            && (e.flight == [] <==> |chs| == |Fated(w, s, text)|)
            && (e.flight == [] ==>
                  forall v :: v in w.Channel().users && v != s ==> exists p :: p in e.done && p.dst == v.addr)
            && (forall p :: p in e.done ==> p.dst != s.addr)
            && Harmony(Meeting(w.Channel(), e.clients), w.server)
  {
    RunKeepsHarmony(m, w.server, es);
    SettledWorks(w.Channel(), w.clients, w.server);
    MessageDelivered(w, s, text, chs);
    MessageKeepsAgreement(w, s, text, chs);
  }

  /** Messages change nothing the channel's agreement rests on. */
  lemma MessageKeepsAgreement(w: World, s: User, text: string, chs: seq<Choice>)
    requires Calm(w) && s in w.Channel().users && Schedule(w, s.name, text, Start(w, s, text), chs)
    ensures Agreed(w.Channel(), DeliverAll(w, s.name, text, Start(w, s, text), chs).clients, w.server)
  {
    var c, after := w.Channel(), DeliverAll(w, s.name, text, Start(w, s, text), chs).clients;
    StartTracks(w, s, text);
    ScheduleConserves(w, s, text, Start(w, s, text), chs);
    forall u | u in c.users ensures InTune(c, after, w.server, u) {
      MemberOfCalm(w, u);
      SameViewAgrees(c, u, w.clients[u.addr], after[u.addr]);
    }
  }

  lemma SameViewAgrees(c: ChannelState, u: User, k: ClientState, m: ClientState)
    requires SameView(k, m) && Truthful(c, u, k) && Informed(c, u, k)
    ensures Truthful(c, u, m) && Informed(c, u, m)
  {
    forall p | p in m.peers ensures Describes(p, u, c.users) {
      var i :| 0 <= i < |m.peers| && m.peers[i] == p;
      assert k.peers[i] in k.peers && Describes(k.peers[i], u, c.users);
    }
    forall a | Knows(k, a) ensures Knows(m, a) {
      var p :| p in k.peers && p.addr == a;
      var i :| 0 <= i < |k.peers| && k.peers[i] == p;
      assert m.peers[i] in m.peers;
    }
  }
}
