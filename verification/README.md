# Verification of the signaling server, its clients and the packet codec

A Dafny model of the rendezvous service for peers behind NATs: the signaling server's
channels and relay election, the DATA forwarding protocol that the server runs together
with its clients, the relay's keepalive, and the ODNP packet codec.

Run `dafny verify dfyconfig.toml` in this directory.

## How the model is laid out

| module | part of the program |
|---|---|
| `Structures`, `Ints`, `Seqs`, `Wrappers` | users, channels, text lines, the socket with its record of sent datagrams; lookups and filters |
| `Election` | the two `pick_eligible_relay` functions and what both compute |
| `ChannelSteps`, `ChannelRounds`, `Sweep` | what CONNECT, DISCONNECT, PEER_TIMEOUT, REQUEST_RELAY and the sweep do to one channel, as functions on its value, and what they send |
| `Announcements`, `SweepNews` | who is told of a change of relay by CONNECT and DISCONNECT, and by the sweep |
| `Tellings`, `Outcomes`, `Lifetimes` | what each request sends, what it leaves of the map, and for how long: field by field, with the numbers written out |
| `ServerSteps` | the map of channels, changed by lock sections in any interleaving |
| `ServerRounds`, `HeartbeatRounds` | requests handled without interruption, and one round of the heartbeat task over all channels |
| `Channels`, `Notifications`, `Server` | the same operations as imperative code on mutable objects, proved to compute those functions |
| `Routing` | where the server sends a DATA line |
| `ClientSteps`, `Views`, `Clients`, `Keepalive` | the client: its reaction to each line, what it sends, its tick as relay; `Clients` is the imperative code |
| `Acquaintances` | the entry of a peer through lines and ticks, and the targets of what a client sends |
| `Agreement`, `Hearing` | what server and clients must agree on, and the delivery of a round of notices |
| `Joining`, `Departures`, `Sweeps`, `Meetings` | joins, departures and sweeps with their notices, and whole runs that keep agreement |
| `Fates`, `Cascade`, `Delivery`, `Service` | a DATA message from its origin to the last delivery |
| `Packet` | `encode` and `decode` |
| `Breakages` | concrete channels on which a request leaves the wrong relay or misled clients |

A source function that changes state is a method; its postcondition equates the new state
and the datagrams sent with a function of the old state. The properties are lemmas about
those functions.

## The main results

* A DATA message in a working channel of any size reaches every other member, never
  returns to its sender and dies out, under every order of deliveries, every iteration
  order of the server's hash maps, and with any other channels on the server
  (`Delivery.MessageDelivered`). Delivered packets plus the packets still due stay the
  same multiset through every delivery, so the number of deliveries is fixed in advance.
* Whole runs of joins, departures, time-outs, relay requests, heartbeats and sweeps keep
  the server and all its clients in agreement if and only if every event meets its
  condition (`Meetings.RunExact`). For each kind of event the condition is stated on the
  state before it and is exact, in both directions (`Meetings.EventKeeps`); it covers
  CONNECTs under a member's name, the relay's own departure and sweeps in which any number
  of relays fail. After any such run a message is delivered, and delivering it keeps the
  agreement (`Service.RunsDeliver`).
* Every interleaving of lock sections keeps names distinct, peer ids ascending and below
  the counter, Symmetric users served by the server, each session in one channel of a
  server id, and no server id without channels (`ServerSteps.EveryRunKeeps`).
* "The relay is the first eligible user" is not kept by every request. For each request
  the exact condition is proved, in both directions (`ServerRounds.RequestExact`);
  `Breakages` has an input for each way to break it.
* The sweep, which deletes from the list it walks and may elect several relays in one
  pass, is a filter, keeps the relay exact, tells each survivor of each departure exactly
  once, and, if it changes the relay, introduces the new one and every other survivor to
  each other (`SweepNews.SweptRelayProclaimed`). Exactly when it tells a survivor that it is the
  relay and then leaves it without that role is proved too (`SweepNews.SweepAppoints`).
* One round of the heartbeat task sends exactly what the sweeps of all channels have to
  say, each datagram as often as they have it (`HeartbeatRounds.RoundConserves`), and each
  survivor hears once of each removed user in the whole round.
* A member named in MODE SERVER_RELAY is left alone by every later tick of a client that
  lists it, whatever else the client hears short of the member's departure
  (`Acquaintances.HeardServedLeftAlone`).
* The packet codec's `encode` and `decode` are inverse to each other in both directions,
  up to the cut at 65535 bytes and whatever follows the packet in the buffer, and every
  byte of the encoding is given in numbers.

## Reading notes

* `Symmetric` users need the server to relay; an *eligible* user does not. *RelayExact*
  says that a channel's relay is the name of its first eligible user, or `None`. A channel
  is *settled* if its relay is exact and its clients agree with the server, and *working*
  if the relay is merely some eligible member, or `None` when nobody is eligible.
* `handle_user_removal` (`src/signaling/handlers/utils.rs:156`) holds the lock when it
  calls `get_remaining_users`, which takes it again (`utils.rs:13`); with a mutex that is
  not reentrant the request would never finish. The model reads the remaining users under
  the same guard, which is what the code is after.
* `cleanup_empty_channels` (`src/signaling/heartbeat.rs:240-252`) removes by name in a
  second lock section and does not look whether the channel is still empty. As lock
  sections this is modelled as written, so the invariant over all interleavings covers a
  CONNECT in between being lost; `Server.SignalingServer.RunHeartbeat` is about an
  uninterrupted round.
* One instant `now` stands for all the clock readings of one lock section or one tick.
* The iteration order of the hash maps is a parameter, and results are for every order.
* `&mut Channel` is an object of class `Channel` filled from the map and written back.
* Durations are in nanoseconds, so `elapsed() > 40 s` is a comparison of numbers.
* A PEER_TIMEOUT that leaves one user makes it the relay but sends it only USER_LEFT
  (`src/signaling/handlers/notifications.rs:357-378`); the model does the same.
* A sweep whose loop leaves one user sends it MODE RELAY even if that user needs the server
  (`src/signaling/heartbeat.rs:126-132`). The fix-up (`heartbeat.rs:163-181`) then sets the
  relay to `None` and sends MODE SERVER_RELAY, but the client never gives up its role
  (`src/client/handlers.rs:31-37`). `SweepNews.SweepAppoints` says exactly when this
  happens and `Breakages.SweepMisleads` has an input.
* A relay that disconnects and leaves eligible and served members together leaves a
  successor that is never told to mirror to the server
  (`src/signaling/handlers/notifications.rs:286-295`); `Breakages.MirrorDutyLost` has an
  input. With eligible members only, or served members only and more than one, agreement
  survives the relay's departure. A sweep in which the relay times out is no different.
* A DISCONNECT that matches no session still sends USER_LEFT for its name to everyone
  (`src/signaling/handlers/notifications.rs:339`), and every client drops that name
  (`src/client/handlers.rs:64-69`). In the relay's name, from any address, it makes every
  client forget the relay: `Breakages.RelayForgotten`.
* A CONNECT under a member's name from another address replaces the old session without
  USER_LEFT (`src/signaling/handlers/utils.rs:39-47`), so clients that list the member keep
  the old address as well: `Breakages.OldAddressStays`. A relay that comes back so is not
  told again that it is the relay, and a client that is started anew under a session still
  present hears WELCOME only. `Joining.JoinAgrees` has the exact condition.
* A client passes a datagram from the server through `process_incoming_message` and then
  through `process_server_response`; both passes are modelled.
* The files under docs and STANDARD.md describe an earlier phase (full-mesh DIRECT, other
  ports); the model follows the code.

## Model

| member | source | states |
|---|---|---|
| Election.PickersAgree | src/signaling/handlers/notifications.rs:8-15 | on every well-formed channel both pickers choose the same user: the eligible one with the smallest peer id, and one whenever there is any |
| Election.PickOnTimeoutIsFirst | src/signaling/heartbeat.rs:13-20 | the heartbeat's picker returns the first eligible user in list order, or none if there is none |
| Election.PickOnNotifyIsFirst | src/signaling/handlers/notifications.rs:8-15 | the connect and disconnect picker does so too, because Symmetric users always need the server |
| Election.ExactIsPick | src/signaling/heartbeat.rs:13-20 | a relay name is exact if and only if it is the picker's choice |
| ChannelSteps.IdentityIsStable | src/signaling/handlers/utils.rs:20-98 | while a channel evolves, whoever holds an old id is the old session, and a session that needed the server still needs it |
| ChannelSteps.EnterKeeps | src/signaling/handlers/connect.rs:48-72 | CONNECT's lock section keeps the channel well-formed, leaves the session in it and gives a new one the next id |
| ChannelSteps.ReturningSession | src/signaling/handlers/utils.rs:20-37 | a session that comes back under its name and address keeps its place and its id, and nobody else changes |
| ChannelSteps.AdmitKeeps | src/signaling/handlers/utils.rs:77-98 | admitting a session keeps the channel well-formed and every identity, also where stale sessions of its name go |
| ChannelSteps.NoOneLeftNamed | src/signaling/handlers/utils.rs:39-47 | dropping a newcomer's stale sessions leaves exactly the users of other names |
| ChannelSteps.AdmitKeepsIdsUnlessWrapped | src/signaling/handlers/utils.rs:77-98 | admitting a session keeps the ids ordered if and only if the u32 counter does not wrap |
| ChannelSteps.LeaveKeeps | src/signaling/handlers/utils.rs:100-147 | DISCONNECT's lock section keeps the channel well-formed and every remaining identity |
| ChannelSteps.LatchKeeps | src/signaling/handlers/request_relay.rs:22-28 | REQUEST_RELAY keeps the channel well-formed and never clears a need for the server |
| ChannelRounds.ConnectRepairs | src/signaling/handlers/notifications.rs:186-253 | from any relay value, a CONNECT of a new session that ends with two or more users makes the relay exact |
| ChannelRounds.ConnectExact | src/signaling/handlers/connect.rs:26-90 | CONNECT keeps the relay exact if and only if it is not the lone relay coming back from a new address as Symmetric |
| ChannelRounds.RelayStays | src/signaling/handlers/notifications.rs:17-34 | a CONNECT under a fresh name leaves an exact relay in place and sends no MODE RELAY |
| ChannelRounds.DisconnectExact | src/signaling/handlers/disconnect.rs:7-34 | DISCONNECT keeps the relay exact if and only if it is not the relay leaving one user that needs the server |
| ChannelRounds.ProvisionalRelayOverwritten | src/signaling/handlers/notifications.rs:264-321 | the first user, provisionally made relay, is replaced by the first eligible one whenever two or more remain |
| ChannelRounds.PeerTimeoutExact | src/signaling/handlers/notifications.rs:342-381 | PEER_TIMEOUT keeps the relay exact if and only if: where one user is left, that user is eligible; otherwise, the name is not the relay's |
| ChannelRounds.LatchExact | src/signaling/handlers/request_relay.rs:8-36 | REQUEST_RELAY keeps the relay exact if and only if it does not name the relay |
| ChannelRounds.MoveAwayExact | src/signaling/handlers/utils.rs:190-207 | a session's move to another channel keeps the relay of the one it leaves exact if and only if it was not that relay |
| Announcements.DepartureAnnounced | src/signaling/handlers/notifications.rs:264-321 | when the relay disconnects and two or more remain, the new relay alone gets MODE RELAY and everyone else is introduced to it and it to everyone; without an eligible user everyone hears that the server relays for everyone |
| Announcements.ConnectAppoints | src/signaling/handlers/notifications.rs:186-253 | a CONNECT of a new session that ends with two or more users sends MODE RELAY to the new relay only, and to nobody if the relay is unchanged or none |
| Tellings.ElectionTells | src/signaling/handlers/notifications.rs:186-253 | a datagram is sent by an election among several users if and only if it introduces the relay and a direct peer to each other, appoints a changed relay, or tells a served peer or the relay of the server's service; without an eligible user, if and only if it tells someone that the server relays for someone |
| Tellings.ElectionCount | src/signaling/handlers/notifications.rs:186-253 | none of them is sent twice: two per direct peer, two per served peer, or one for one at the relay's address, one for a changed relay; without an eligible user one per pair of users |
| Tellings.ElectionOrder | src/signaling/handlers/notifications.rs:186-253 | the introductions come first, then MODE RELAY to a changed relay |
| Tellings.ReturnTells | src/signaling/handlers/connect.rs:56-77 | a CONNECT of a present session is answered with one WELCOME, with the channel's id and the session's old id, and nothing else |
| Tellings.ArrivalTells | src/signaling/handlers/connect.rs:26-90 | a datagram is sent for a new session if and only if it is its WELCOME with the next id, the word to a lone newcomer of a channel without relay, or part of the election |
| Tellings.ArrivalCount | src/signaling/handlers/connect.rs:26-90 | each of them once |
| Tellings.ArrivalOrder | src/signaling/handlers/connect.rs:26-90 | among others the newcomer is welcomed first; alone it first hears how it is served |
| Tellings.MutualTells | src/signaling/handlers/notifications.rs:70-90 | users at other addresses and the newcomer hear of each other, and nobody hears anything else |
| Tellings.DepartureTells | src/signaling/handlers/notifications.rs:264-340 | a datagram is sent for a DISCONNECT if and only if it is USER_LEFT to someone left, with the session's address or 0.0.0.0:0 if there was no such session, MODE RELAY to a lone heir of the relay, or part of a succession among several |
| Tellings.DepartureCount | src/signaling/handlers/notifications.rs:264-340 | each of them once |
| Tellings.DepartureOrder | src/signaling/handlers/notifications.rs:323-340 | the USER_LEFTs come last, in list order |
| Tellings.TimeoutTells | src/signaling/handlers/notifications.rs:342-381 | PEER_TIMEOUT sends one USER_LEFT with 0.0.0.0:0 to every user of another name and nothing else |
| Tellings.RequestTells | src/signaling/handlers/request_relay.rs:8-36 | REQUEST_RELAY sends MODE SERVER_RELAY for the name once to every member and nothing else |
| Outcomes.NewcomerLeaves | src/signaling/handlers/utils.rs:77-98 | a new session takes the place of all users of its name, at the end, with the next id, the time of the CONNECT as its time stamp, and served if and only if Symmetric; the counter moves on by one and wraps at the end of u32 |
| Outcomes.NewcomerRelay | src/signaling/handlers/notifications.rs:169-262 | a lone newcomer becomes the relay of a channel without one unless Symmetric; with several users the relay is exact |
| Outcomes.ArrivalLeaves | src/signaling/handlers/utils.rs:190-207 | CONNECT takes exactly that session out of the other channels of the server id, with their relay and counters as they were, and touches no other server id |
| Outcomes.ReturnLeaves | src/signaling/handlers/utils.rs:20-37 | a returning session has its time stamp refreshed and nothing else in the channel changes but an id that was still to be given |
| Outcomes.DepartureLeaves | src/signaling/handlers/disconnect.rs:7-34 | DISCONNECT removes that one position, keeps the counters, and changes the relay only if it left |
| Outcomes.StrangerDeparts | src/signaling/handlers/utils.rs:149-188 | a DISCONNECT that matches no session changes nothing |
| Outcomes.TimeoutLeaves | src/signaling/handlers/notifications.rs:342-381 | PEER_TIMEOUT drops exactly the users of that name; the relay changes only if one user is left, who becomes it |
| Outcomes.RequestLeaves | src/signaling/handlers/request_relay.rs:8-36 | REQUEST_RELAY marks the first user of the name as served and changes nothing else |
| Outcomes.StrangerRequested | src/signaling/handlers/request_relay.rs:8-36 | for a name nobody has it changes nothing |
| Outcomes.StrangerBeats | src/signaling/handlers/heartbeat.rs:16-32 | a heartbeat that matches no session changes nothing |
| Outcomes.SweepLeaves | src/signaling/heartbeat.rs:135-186 | a sweep keeps the users heard from in the last 40,000,000,000 ns, in order, and the counters; a lone user left is the relay unless served |
| Lifetimes.KeptForFortySeconds | src/signaling/heartbeat.rs:141-150 | a sweep keeps a user if and only if it was heard from in the last 40,000,000,000 ns |
| Lifetimes.ConnectedForFortySeconds | src/signaling/structures.rs:21-32 | after a CONNECT, of a new or a returning session, no sweep of the next 40 seconds removes the session |
| Lifetimes.WelcomeIsRight | src/signaling/handlers/connect.rs:18-24 | the session is sent the channel's id and the id it has in the channel |
| Lifetimes.PongRefreshes | src/signaling/handlers/heartbeat.rs:5-14 | PONG refreshes the first user at its address in every channel of every server id, and nothing else |
| Lifetimes.PongOfStranger | src/signaling/handlers/heartbeat.rs:5-14 | a channel without a user at its address stays as it is |
| Lifetimes.BeatRefreshes | src/signaling/handlers/heartbeat.rs:16-32 | a heartbeat refreshes its session in the channel it names, and nothing else |
| Lifetimes.LoneSurvivorPinged | src/signaling/heartbeat.rs:163-181 | a sweep pings a lone survivor that needs no server, and nobody else |
| Lifetimes.LoneSurvivorServed | src/signaling/heartbeat.rs:163-181 | a lone survivor that needs the server is told that the server relays for it, and the channel has no relay |
| SweepNews.SweptRelayProclaimed | src/signaling/heartbeat.rs:22-186 | if a sweep changes an exact relay, however many relays fail in the pass, the relay it leaves is a survivor that was sent MODE RELAY, and it and every other survivor were introduced to each other; without a relay every survivor was told that the server relays for every survivor |
| SweepNews.PassSpares | src/signaling/heartbeat.rs:90-133 | while the relay's user stays listed the relay does not change, and all that is told is who has left and, to the relay, that it is the relay |
| SweepNews.SweepAppoints | src/signaling/heartbeat.rs:116-181 | a survivor other than the relay left is sent MODE RELAY if and only if one user survives, it needs the server, and so did the last user in list order that was removed |
| SweepNews.ReelectionHeard | src/signaling/heartbeat.rs:22-88 | an address hears a line of a re-election if and only if it is the new relay's and the line appoints it, or it and the other end are introduced; without an eligible user, if and only if a user is told that the server relays for a user |
| SweepNews.TimeOutHeard | src/signaling/heartbeat.rs:90-133 | an address hears a line of one removal if and only if the line is USER_LEFT and someone else is there, or part of a re-election after the relay, or MODE RELAY to a lone user left |
| Sweep.PassFilters | src/signaling/heartbeat.rs:143-161 | from any position of the walk, the loop that deletes while it walks keeps what lies before and filters what lies ahead |
| Sweep.SweepFilters | src/signaling/heartbeat.rs:135-186 | the users left are exactly those heard from within 40 s, in their order |
| Sweep.PassRelay | src/signaling/heartbeat.rs:116-132 | at every loop head the relay is exact or is the lone user left |
| Sweep.SweepExact | src/signaling/heartbeat.rs:135-186 | a sweep keeps an exact relay exact for any user list and any set of timed-out users, and repairs any relay value when one user is left |
| Sweep.PassLeftCopies | src/signaling/heartbeat.rs:90-115 | the number of USER_LEFT copies that reach an address for a removed user: none to its own, otherwise one per survivor before it and per user after it there |
| Sweep.SurvivorsHearOnce | src/signaling/heartbeat.rs:90-115 | with distinct addresses every survivor gets exactly one USER_LEFT for each removed user |
| ServerSteps.EnterKeepsServer | src/signaling/handlers/connect.rs:48-72 | CONNECT's lock section keeps the server's invariant and leaves the session in no other channel of the server id |
| ServerSteps.EveryRunKeeps | src/signaling/handlers/utils.rs:20-207 | every sequence of lock sections, in any interleaving, keeps the server's invariant: well-formed channels, each session in at most one channel of a server id, no empty server entry |
| ServerSteps.IdentityOverRuns | src/signaling/handlers/utils.rs:26-36 | over any run during which the channel exists, an id belongs to one session, its need for the server is never cleared, and the channel's own id, once given, stays |
| ServerSteps.NewcomersHaveLargerIds | src/signaling/handlers/utils.rs:87-91 | over such a run every new session has a larger id than every session there before |
| ServerRounds.RequestExact | src/bin/signaling_server.rs:34-66 | an uninterrupted request keeps the relay of every channel exact if and only if it is harmless, a condition on the state before it |
| ServerRounds.HarmlessRuns | src/bin/signaling_server.rs:34-66 | any run of harmless requests from a good server, such as the empty one, keeps every relay exact and the server's invariant |
| ServerRounds.EmptyServer | src/signaling/structures.rs:42-51 | the invariants hold where every run starts |
| HeartbeatRounds.RoundConserves | src/signaling/heartbeat.rs:188-238 | what a round sends is, as a multiset, the sum of what the sweeps of its channels have to say, pings and notices |
| HeartbeatRounds.RoundIsTold | src/signaling/heartbeat.rs:188-238 | a datagram is sent if and only if some channel's sweep has it |
| HeartbeatRounds.CopiesOfRound | src/signaling/heartbeat.rs:188-238 | an address known in one channel only hears every line as often as from that channel's sweep |
| HeartbeatRounds.RoundTellsOnce | src/signaling/heartbeat.rs:188-238 | with distinct names and addresses every survivor hears exactly once, in the whole round, of every user removed from its channel |
| HeartbeatRounds.SweepStaysInside | src/signaling/heartbeat.rs:90-186 | a sweep writes to members of its channel only |
| HeartbeatRounds.RoundLeaves | src/signaling/heartbeat.rs:254-269 | a round leaves exactly the channels that still have users, each swept |
| Breakages.RelayNotAlwaysExact | src/signaling/handlers/utils.rs:140-143 | a concrete channel for each request that can leave the wrong relay |
| Breakages.SweepMisleads | src/signaling/heartbeat.rs:126-132 | a concrete channel in which a served user is sent MODE RELAY by a sweep that leaves no relay |
| Breakages.MirrorDutyLost | src/signaling/handlers/notifications.rs:286-295 | a concrete settled channel whose relay's DISCONNECT leaves a successor that does not mirror |
| Breakages.RelayForgotten | src/signaling/handlers/notifications.rs:323-340 | a concrete settled channel in which an unmatched DISCONNECT in the relay's name makes the clients forget the relay |
| Breakages.OldAddressStays | src/signaling/handlers/utils.rs:39-47 | a concrete settled channel in which a member comes back from another address and stays listed at the old one |
| Breakages.IdsNotAlwaysOrdered | src/signaling/handlers/utils.rs:87-91 | at the end of the u32 range the next newcomer breaks the order of ids |
| Routing.RouteIgnoresOrder | src/signaling/handlers/request_relay.rs:53-116 | if a source address is known in one channel only, the loops over the hash maps send what that channel alone decides, in every iteration order |
| Routing.TargetsAreServed | src/signaling/handlers/request_relay.rs:55-114 | with distinct names the destinations are exactly the served users: from the relay those who need the server, from a session that needs it everyone elsewhere, from another session the relay |
| Routing.TargetsOnce | src/signaling/handlers/request_relay.rs:53-116 | with distinct addresses no destination is repeated |
| Routing.FirstDecides | src/signaling/handlers/request_relay.rs:38-117 | the first channel that decides has the say; if none does nothing is sent |
| Routing.SenderIsRelayBranchIdle | src/signaling/handlers/request_relay.rs:75-92 | with distinct names the branch for a sender that is the relay never decides |
| ClientSteps.DataKeepsView | src/client/handlers.rs:188-235 | receiving DATA changes nothing that forwarding depends on |
| ClientSteps.WordsUnchanged | src/client/handlers.rs:172-220 | everything a client sends for a message is that message, word for word, under its sender's name |
| Cascade.SameMessage | src/client/networking.rs:313-343 | whatever a member sends for its message, and whatever any client forwards of it, is that message under that member's name |
| Cascade.ServerStage | src/signaling/handlers/request_relay.rs:55-67 | what the server sends on for a message lowers the stage; its mirror branch never sends to the relay |
| Cascade.ClientStage | src/client/handlers.rs:206-217 | what a client forwards lowers the stage; only the relay forwards, and neither to itself nor to the sender |
| Cascade.MessageDescends | src/client/handlers.rs:172-220 | every hop of a message's cascade descends by an explicit measure |
| Fates.Conservation | src/client/handlers.rs:172-220 | one delivery moves one packet from those due to those delivered and changes nothing else, as multisets |
| Delivery.DeliverFollows | src/signaling/handlers/request_relay.rs:53-116 | each delivery, whatever the iteration order and whatever was delivered before, is the hop the initial views determine |
| Delivery.ServedSenderReaches | src/signaling/handlers/request_relay.rs:94-102 | a sender that needs the server reaches every other member |
| Delivery.RelaySenderReaches | src/client/networking.rs:313-343 | the relay reaches every other member, those that need the server through the server |
| Delivery.DirectSenderReaches | src/client/handlers.rs:206-213 | a direct sender reaches every other member through the relay |
| Delivery.MessageDelivered | src/client/networking.rs:313-343 | coverage, no echo, termination and independence of the order of deliveries for one message of any member of a working channel |
| Views.AddSettles | src/client/handlers.rs:39-62 | an introduction of a member adds no wrong entry to a client's list |
| Views.NoteSettles | src/client/handlers.rs:99-123 | marking a served member as server-relayed marks the first entry of the name and makes no entry wrong |
| Views.HearSettles | src/client/handlers.rs:64-136 | a client that hears only fine lines (right ones, or introductions of users whose departure follows), among them of the departure of everyone it wrongly lists, ends up believing nothing wrong about its channel |
| Views.HearGains | src/client/handlers.rs:31-136 | no control line takes the relay role or the mirroring duty from a client |
| Views.HearKeepsListed | src/client/handlers.rs:64-69 | without USER_LEFT for a name, an entry of that name and address stays |
| Views.HearDirect | src/client/handlers.rs:39-62 | a client introduced to a user lists that user by name and address, if nobody else is at the address |
| Views.HearServed | src/bin/client.rs:107-154 | a client named by MODE SERVER_RELAY and never by MODE RELAY sends through the server from then on |
| Departures.DepartureAgrees | src/signaling/handlers/notifications.rs:264-340 | a DISCONNECT, once its notices are delivered, leaves server and clients in agreement if and only if: unmatched, it names nobody that another member needs; of a member other than the relay, always; of the relay, if it leaves eligible members only, or served ones only but not just one (or a successor that mirrors already) |
| Departures.TimeoutAgrees | src/signaling/handlers/notifications.rs:342-381 | a PEER_TIMEOUT that does not name the relay and does not leave one served user keeps agreement |
| Departures.TimeoutDisagrees | src/signaling/handlers/notifications.rs:357-362 | any other PEER_TIMEOUT undoes it |
| Joining.JoinAgrees | src/signaling/handlers/connect.rs:26-90 | the CONNECT of a new client, once its notices are delivered, leaves a well-formed channel in agreement if and only if its session is not present, the id counter has room, its address is no other member's or the server's, no other member's client lists its name, and, if the name is the relay's, someone else takes over |
| Joining.RestartDisagrees | src/signaling/handlers/utils.rs:20-37 | a client started anew under a session that is present hears WELCOME only and is never in agreement |
| Sweeps.PassFine | src/signaling/heartbeat.rs:22-161 | whatever a survivor hears in the pass that is not right is the introduction of a user whose departure it hears later in the pass |
| Sweeps.SweepAgrees | src/signaling/heartbeat.rs:135-186 | any sweep, once its notices are delivered, keeps agreement if and only if it does not leave one served user alone after a served one, and the relay it leaves is the old one, or has no served member, or mirrors already |
| Meetings.JoinKeeps | src/signaling/handlers/notifications.rs:169-262 | the CONNECT of a new client keeps a harmonious meeting harmonious if and only if it is allowed |
| Meetings.AgainKeeps | src/signaling/handlers/utils.rs:20-37 | a repeated CONNECT of a member keeps it so |
| Meetings.PartKeeps | src/signaling/handlers/disconnect.rs:7-34 | DISCONNECT does so if and only if it is allowed |
| Meetings.ReportKeeps | src/signaling/handlers/notifications.rs:342-381 | PEER_TIMEOUT does so if and only if it is allowed |
| Meetings.SweepEventKeeps | src/signaling/heartbeat.rs:135-186 | a sweep does so if and only if it is allowed |
| Meetings.AskRelayKeeps | src/signaling/handlers/request_relay.rs:22-35 | REQUEST_RELAY, with its notices delivered, keeps agreement if and only if it does not name the relay |
| Meetings.EventKeeps | src/signaling/handlers/message.rs:17-68 | every event keeps harmony if and only if it is allowed |
| Meetings.RunKeepsHarmony | src/signaling/handlers/connect.rs:26-90 | any run of allowed joins, departures, time-outs, relay requests, heartbeats, pongs and sweeps keeps the channel well-formed, the relay exact and the clients' views right and sufficient |
| Meetings.RunExact | src/signaling/handlers/connect.rs:26-90 | a run keeps harmony after every event if and only if every event is allowed |
| Meetings.ReadLineByLine | src/signaling/heartbeat.rs:22-186 | no datagram of several lines holds MODE RELAY, so all can be read line by line |
| Meetings.OpeningInHarmony | src/signaling/structures.rs:42-51 | the empty channel is where such runs start |
| Service.RunsDeliver | src/client/networking.rs:313-343 | after any such run from a harmonious meeting, such as the empty channel, a message of any member ends, reaches everyone else, does not come back, and leaves the meeting harmonious, on a server with any other channels that do not share addresses |
| Service.MessageKeepsAgreement | src/client/handlers.rs:188-235 | delivering a message leaves the channel and its clients in agreement |
| Keepalive.OneTimeoutPerRemoved | src/client/networking.rs:193-231 | a tick sends exactly one PEER_TIMEOUT for each entry it finds silent; `Keepalive.TimeoutsSent` has the condition in numbers |
| Keepalive.OneAskPerHelpless | src/client/networking.rs:208-226 | a tick sends exactly one REQUEST_RELAY for each entry not connected within 12 s and not requested before |
| Keepalive.KeptForSixtySeconds | src/client/networking.rs:193-231 | an entry is kept if and only if it is server-relayed or was heard from in the last 60,000,000,000 ns; all that may change of it is that help was requested |
| Keepalive.TimeoutsSent | src/client/networking.rs:200-206 | one PEER_TIMEOUT for a name per entry of it on the direct path that was silent for more than 60,000,000,000 ns |
| Keepalive.RequestsSent | src/client/networking.rs:208-226 | one REQUEST_RELAY for a name per entry of it on the direct path that is kept, listed for more than 12,000,000,000 ns, not connected and not requested |
| Keepalive.PingsSent | src/client/networking.rs:208-226 | one PING to an address per kept entry of it on the direct path |
| Keepalive.TickSendsNothingElse | src/client/networking.rs:193-231 | every datagram of a tick is one of these three, for an entry on the direct path |
| Keepalive.TickFilters | src/client/networking.rs:193-231 | the entries left are the kept ones, in order, and none of them still needs a first request; `Keepalive.KeptForSixtySeconds` has the condition in numbers |
| Keepalive.TickSpends | src/client/networking.rs:208-226 | what a tick requests is taken off what may still be requested |
| Keepalive.AskedOncePerEntry | src/client/networking.rs:208-226 | over any run of ticks and incoming lines, REQUEST_RELAYs for a name are at most the entries of that name at the start plus those added later |
| Keepalive.RelayAsksForOthers | src/client/networking.rs:208-226 | the relay of an agreed channel requests the server's help for other members only, so its requests are of the harmless kind |
| Acquaintances.RoleGiven | src/client/handlers.rs:31-37 | MODE RELAY makes a client the relay and takes it off the way through the server |
| Acquaintances.ServiceGiven | src/bin/client.rs:125-143 | MODE SERVER_RELAY for itself makes a client send through the server and pause hole punching |
| Acquaintances.MirrorGiven | src/client/handlers.rs:99-123 | MODE SERVER_RELAY for another makes a relay, and nobody else, mirror to the server |
| Acquaintances.LeaverForgotten | src/client/handlers.rs:64-69 | USER_LEFT removes the entries of the name, whatever the address, and no other |
| Acquaintances.FreshPauses | src/bin/client.rs:92-155 | whatever a client has heard, it pauses hole punching if and only if it sends through the server |
| Acquaintances.IntroductionAdds | src/client/handlers.rs:39-62 | an introduction to another user at an address not listed appends one entry, heard from and created now, on the direct path, not connected, not requested |
| Acquaintances.IntroductionIgnored | src/client/handlers.rs:39-62 | any other introduction changes nothing |
| Acquaintances.IntroducedForSixtySeconds | src/client/networking.rs:193-231 | an introduced peer survives the ticks of the next 60 seconds, and no help is requested for it in the first 12 |
| Acquaintances.ServerRelayMarks | src/client/handlers.rs:99-123 | MODE SERVER_RELAY for another marks the first entry of the name as server-relayed, connected and requested, and no other entry changes |
| Acquaintances.HearMarks | src/client/handlers.rs:99-123 | a client that lists a user and hears that the server relays for it has its first entry of the name marked from then on, whatever else it hears short of USER_LEFT for the name |
| Acquaintances.ServedLeftAlone | src/client/networking.rs:193-198 | for a name whose entries are all server-relayed a tick sends no PEER_TIMEOUT, no REQUEST_RELAY and no PING of its own, and keeps the entries as they are |
| Acquaintances.HeardServedLeftAlone | src/client/networking.rs:193-198 | so a client that heard of the service leaves the user alone at every later tick |
| Acquaintances.DatagramConnects | src/bin/client.rs:188-236 | any datagram from a peer's address makes its first entry connected and heard from now |
| Acquaintances.PongHeard | src/client/handlers.rs:143-149 | PONG makes the first entry of its address heard from now, and nothing else changes |
| Acquaintances.PongForSixtySeconds | src/client/networking.rs:200-202 | after a PONG the peer survives the ticks of the next 60 seconds |
| Acquaintances.PunchConnects | src/client/handlers.rs:162-170 | a hole punch makes the first entry of its address connected and heard from now |
| Acquaintances.DataConnects | src/client/handlers.rs:188-235 | DATA makes the first entry of its sender's name connected and heard from now |
| Acquaintances.ConnectedNeedNoHelp | src/client/networking.rs:208-226 | no help is requested for a name whose entries are connected |
| Acquaintances.OriginTargets | src/client/networking.rs:313-343 | a client's own message goes to the server alone if it sends through it, and otherwise exactly to its entries on the direct path and, for a mirroring relay, the server |
| Acquaintances.OriginCount | src/client/networking.rs:313-343 | once to each |
| Acquaintances.ForwardTargets | src/client/handlers.rs:188-220 | DATA is passed on by a relay only, exactly to its entries of other names than the sender's and, if it mirrors, to the server |
| Acquaintances.ForwardCount | src/client/handlers.rs:188-220 | once to each |
| Acquaintances.PingAnswered | src/client/handlers.rs:138-141 | PING is answered with one PONG to its source |
| Clients.BackwardsFilters | src/client/networking.rs:229-231 | removing the collected positions from the back is in range at every step and leaves exactly the kept entries in order |
| Clients.WithoutModeNoResponse | src/bin/client.rs:100-105 | skipping the second pass when no line is a MODE line changes nothing |
| Clients.OneLine | src/bin/client.rs:92-155 | for a one-line datagram the two passes are one step |
| Clients.ReceivingIsHearing | src/bin/client.rs:188-234 | receiving a datagram of one line, or of several without MODE RELAY, is hearing its lines one after the other, as the runs do |
| Packet.FromToLe | src/proto/packet.rs:55-69 | reading back a little-endian field that was written gives its value |
| Packet.ToFromLe | src/proto/packet.rs:71-107 | writing a little-endian field that was read gives its bytes |
| Packet.LowBytesFirst | src/proto/packet.rs:55-69 | byte i of a field is the value divided by 256 to the i, modulo 256: the lowest byte comes first |
| Packet.EncodedOnWire | src/proto/packet.rs:55-69 | an encoding has the magic, version 1 and the kind's code at offsets 0 to 5, each field at its offset with its bytes given in numbers, the carried length at 28 and the payload from 30 on |
| Packet.DecodedFromBytes | src/proto/packet.rs:71-107 | what `decode` reads from a buffer is given by the same bytes |
| Packet.HeaderFields | src/proto/packet.rs:71-107 | a buffer starts with the header's bytes if and only if each field is at its offset |
| Packet.KindFromU8 | src/proto/packet.rs:13-22 | a byte decodes to a kind if and only if it is that kind's code |
| Packet.Encode | src/proto/packet.rs:55-69 | the buffer built step by step is the 30-byte header followed by the payload cut to 65535 bytes, with every byte of the header given in numbers |
| Packet.DecodeExact | src/proto/packet.rs:71-107 | `decode` returns a header and payload if and only if the buffer is that header, that payload of the announced length, and a tail |
| Packet.DecodeEncode | src/proto/packet.rs:55-107 | decoding an encoding, with anything appended, gives the header with the carried length and that prefix of the payload |
| Packet.EncodeDecode | src/proto/packet.rs:55-107 | a buffer decodes if and only if it is an encoding followed by a tail, and encoding the result gives it back without the tail |
| Channels.Channel.UpdateExistingUser | src/signaling/handlers/utils.rs:20-37 | refreshes an existing session and returns its id, or changes nothing |
| Channels.Channel.HandleLoneUserScenario | src/signaling/handlers/utils.rs:49-75 | settles and tells a lone user of a channel without a relay |
| Channels.Channel.AddNewUser | src/signaling/handlers/utils.rs:77-98 | replaces stale sessions of the name by a new user with the next id and the present time as its time stamp |
| Channels.Channel.FindAndRemoveUser | src/signaling/handlers/utils.rs:100-124 | removes the session, if present, and says whether it was the relay |
| Channels.HandleRelayTimeout | src/signaling/heartbeat.rs:22-88 | re-elects and queues what the election announces |
| Channels.HandleTimedOutUser | src/signaling/heartbeat.rs:90-133 | removes one timed-out user, with the relay and the queued notices that follow from it |
| Channels.RemoveTimedOutUsers | src/signaling/heartbeat.rs:143-161 | the loop that deletes while it walks leaves exactly the live users in order and keeps the relay exact or the lone user |
| Channels.ProcessChannelHeartbeat | src/signaling/heartbeat.rs:135-186 | one channel's sweep: users, relay, notices, solo ping and scheduling of an empty channel |
| Notifications.NotifyServerRelays | src/signaling/handlers/notifications.rs:235-243 | everyone is told that the server relays for everyone |
| Notifications.NotifyServedPeers | src/signaling/handlers/notifications.rs:223-234 | each served peer and the relay are told that the server relays for the peer |
| Notifications.NotifyExistingUsersAboutNewUser | src/signaling/handlers/notifications.rs:70-90 | users at other addresses and the new user are introduced to each other |
| Notifications.SplitPeers | src/signaling/handlers/notifications.rs:194-207 | splits the relay's peers by whether the server serves them |
| Notifications.SendNotifications | src/signaling/heartbeat.rs:229-238 | every queued notification goes to every address it names, in order |
| Server.SignalingServer.RemoveUserFromOtherChannels | src/signaling/handlers/utils.rs:190-207 | takes the session out of every other channel of the server id |
| Server.SignalingServer.AdmitUser | src/signaling/handlers/connect.rs:48-72 | CONNECT's lock section on the shared map |
| Server.SignalingServer.MarkRelayInChannel | src/signaling/handlers/notifications.rs:17-34 | writes the elected relay and says whether it changed |
| Server.SignalingServer.HandleMultipleUsersScenario | src/signaling/handlers/notifications.rs:186-253 | elects and announces the relay among the users given, also if the channel is gone meanwhile |
| Server.SignalingServer.HandleConnect | src/signaling/handlers/connect.rs:26-90 | CONNECT as a run of lock sections, with all datagrams it sends; the session is in its channel and was heard from now |
| Server.SignalingServer.HandleUserRemoval | src/signaling/handlers/utils.rs:149-188 | DISCONNECT's lock section and what it reports |
| Server.SignalingServer.HandleRelayTransition | src/signaling/handlers/notifications.rs:264-321 | elects and announces a relay if the leaver was the relay and the channel is still there |
| Server.SignalingServer.HandleDisconnectNotifications | src/signaling/handlers/notifications.rs:323-340 | tells a lone user or elects a relay, and tells all that remain of the departure |
| Server.SignalingServer.HandleDisconnect | src/signaling/handlers/disconnect.rs:7-34 | DISCONNECT as a run of lock sections, with all datagrams it sends |
| Server.SignalingServer.HandlePeerTimeout | src/signaling/handlers/notifications.rs:342-381 | PEER_TIMEOUT on the shared map, and USER_LEFT to all that remain |
| Server.SignalingServer.HandleRelayRequest | src/signaling/handlers/request_relay.rs:8-36 | REQUEST_RELAY on the shared map, and MODE SERVER_RELAY to all members |
| Server.SignalingServer.ForwardInChannel | src/signaling/handlers/request_relay.rs:55-114 | one channel's part of routing DATA, with the early return |
| Server.SignalingServer.HandleDataFromClient | src/signaling/handlers/request_relay.rs:38-117 | the nested loops with early returns send exactly along the route |
| Server.SignalingServer.CollectHeartbeatData | src/signaling/heartbeat.rs:188-219 | sweeps every channel once and collects exactly what the sweeps have to ping and to send, each as often, and the channels left empty |
| Server.SignalingServer.CleanupEmptyChannels | src/signaling/heartbeat.rs:240-252 | removes the listed channels and the server ids left without any |
| Server.SignalingServer.RunHeartbeat | src/signaling/heartbeat.rs:254-269 | an uninterrupted round leaves exactly the channels that still have users, each swept; a datagram is sent if and only if some channel's sweep has it, and each survivor hears once of each removed user |
| Clients.Client.HandleRelayMessageToPeers | src/client/handlers.rs:172-186 | DATA goes once to each peer entry that is not the sender's |
| Clients.Client.HandleDataMessage | src/client/handlers.rs:188-220 | marks the sender connected; a relay forwards to its peers and mirrors to the server |
| Clients.Client.ProcessIncomingMessage | src/client/handlers.rs:237-273 | the lines of a datagram take effect one after the other |
| Clients.Client.ProcessServerResponse | src/bin/client.rs:92-155 | the second pass over the lines, with its early return, sets the ways of sending |
| Clients.Client.ReceiveDatagram | src/bin/client.rs:188-236 | a datagram from the server takes both passes, one from a peer marks the peer connected first |
| Clients.Client.HandleUserMessage | src/client/networking.rs:313-343 | a user's own line goes through the server, or to the direct peers and as relay to the mirror |
| Clients.Client.ReportOrPing | src/client/networking.rs:195-226 | a tick at one peer: report and remove it if and only if it is on the direct path and was silent for more than 60,000,000,000 ns, otherwise ping it, and request help |
| Clients.Client.KeepaliveTick | src/client/networking.rs:192-232 | a tick leaves exactly the entries that are server-relayed or heard from in the last 60,000,000,000 ns, in order, and sends its reports, pings and requests |

## Left out

- Sockets, the tokio runtime, threads, `select!`, condition variables, stdin and printing: plumbing around the modelled steps.
- Parsing and formatting of text lines and addresses: lines are a datatype, addresses are values.
- The WELCOME line reaching the client's ids: the server sends `WELCOME to cid:.. with pid:..` (`src/signaling/handlers/connect.rs:19`) and the client accepts three tokens only (`src/client/handlers.rs:21`), so it never takes effect; the client model ignores the line.
- MODE SERVER_RELAY without a user name (`src/client/handlers.rs:124-127`): it only prints.
- NAT detection and probes: the NAT kind is an input of CONNECT.
- The hole-punching loop with its backoff, and `is_active` and the wake-ups of the relay thread: timing of traffic that no property here depends on; the pause flag it obeys is modelled.
- The random channel id of `generate_channel_id`: an input of CONNECT.
- `handle_pong` and `handle_heartbeat` on the server have no methods of their own: they are the lock sections `PongFrom` and `Heartbeat`.
- The field `nat_kind` of a client's `PeerInfo`: it is always Unknown and never read.
- Lost, duplicated or reordered control lines: in the runs of `Meetings` notices arrive complete and in order. DATA packets are delivered in any order but not lost.
- Meetings.RunKeepsHarmony: a client that was removed and CONNECTs again without being started anew is not in the runs; nor is a repeated CONNECT whose session has gone meanwhile.
- Service.RunsDeliver: covers the same runs.
- Delivery.MessageDelivered: a client lists no user that is not a member; that holds in all the runs above.
- ServerSteps.EveryRunKeeps: requires that no CONNECT meets an id counter at the end of u32; `ChannelSteps.AdmitKeepsIdsUnlessWrapped` shows that this is the limit.
- Server.SignalingServer.HandleConnect: the request runs without another lock section in between, as do the other handlers of the class; interleavings are covered by the lemmas of `ServerSteps`, on values.
- Server.SignalingServer.HandleUserRemoval: the second locking of the same mutex (`src/signaling/handlers/utils.rs:156`, `utils.rs:13`) is read as the same guard; as written the request would stop there.
- Server.SignalingServer.HandleDisconnect: the same, for the whole request.
- Server.SignalingServer.RunHeartbeat: one instant is used for all channels of the round.
