# WispherGrid signaling core in Dafny

WispherGrid is a browser chat in which every participant of a room holds a
direct WebRTC connection to every other one (a full mesh). The servers
never carry chat traffic; they only help peers find each other and
exchange connection descriptors ("signals"). This project models the
signaling layer of that system and proves properties of the model:

- `server.dfy` (module `Server`): the WebSocket signaling server. It keeps a
  directory from room id to the connections in it, in insertion order like
  a JavaScript `Set`. It handles `join`, `signal`, `broadcast-signal`,
  `broadcast` and `close`, and routes with `broadcastToRoom` and
  `forwardToPeer`. Every `ws.send` is appended to an outbox.
- `rooms.dfy` (module `Rooms`): the client's `RoomManager`. It holds the
  joined room and the set of known peers. It dispatches WebSocket and
  BroadcastChannel messages, builds the envelopes of `sendSignal`, and
  builds and parses the shareable room URL.
- `ws_signaling.dfy` (module `WsSignaling`): the client's WebSocket
  transport. It covers the URL guard, the reconnect counter with its
  exponential, capped backoff, the stamping of outgoing messages and the
  self-filter on arrival.
- `users.dfy` (module `Users`): the Python Socket.IO relay. `USERS` maps a
  chosen username to a session id. The module covers registration,
  disconnect, targeted signal relay and hang-up.
- `manual.dfy` (module `Manual`): `SignalingManager`, both the copy-paste
  signal exchange and its same-origin BroadcastChannel.
- `app.dfy` (module `App`): the `WispherGrid` application object. It holds
  the map of connected peers and picks which side of each pair creates the
  offer. It turns room events into calls on the WebRTC layer (the "Link
  Provider"); those calls are recorded in a log rather than performed.
- `json.dfy` (module `Json`): JavaScript/JSON values, with the truthiness,
  nullishness, property read, `||` and string conversion the handlers rely
  on. `===` is structural equality; ids and descriptors are strings or
  plain data, so this is adequate.
- `string_order.dfy` (module `StringOrder`): `localeCompare`, modelled as
  the lexicographic order on code points, a strict total order.

Each stateful object of the source is a `class` whose methods update its
fields. Each method is specified by a pure transition function or by the
field updates it makes. The properties the system relies on are lemmas
about those functions:

- a joiner gets a snapshot of the others and is announced to everyone else;
- a broadcast reaches every OPEN member other than the sender, once each;
- a targeted signal falls back to a room broadcast;
- exactly one side of a pair of distinct ids creates the offer;
- a repeated join changes nothing;
- the room URL round-trips;
- a copied signal is accepted on the other side exactly when it carries a
  type and data;
- the reconnect delays follow the schedule 2000, 4000, 8000, 10000, 10000 ms;
- a fresh registration followed by a disconnect restores `USERS`.

Times (`Date.now()`) and results produced by the environment are
parameters: whether a `WebSocket` or `BroadcastChannel` could be created,
what `JSON.parse` returned, and what `createOffer`/`createAnswer` resolved
to.

## Model

| member | source | states |
|---|---|---|
| Json.Without | signaling-server.js:117 | Deleting a connection from a room's list keeps exactly the other members. The result is no longer, and stays duplicate-free |
| StringOrder.Irreflexive | js/app.js:192 | No id sorts strictly before itself |
| StringOrder.Asymmetric | js/app.js:192 | Two ids never both sort before each other |
| StringOrder.Transitive | js/app.js:192 | The comparison used for the initiator choice is transitive |
| StringOrder.Connected | js/app.js:192 | Of two distinct ids, one sorts before the other |
| StringOrder.Trichotomy | js/app.js:192 | For distinct ids, exactly one of `a < b`, `b < a` holds |
| StringOrder.Less | js/app.js:192 | The comparison `localeCompare(...) > 0` stands for, taken as code-point order; its strict-total-order properties are the lemmas above |
| Server.Broadcast | signaling-server.js:140-149 | The deliveries of `broadcastToRoom`, in set order: one per OPEN member that is not the excluded one. `BroadcastRecipients` and `BroadcastOnce` state who receives it |
| Server.BroadcastRecipients | signaling-server.js:140-149 | A delivery is in a broadcast iff it carries the message unchanged to a room member that is OPEN and not the excluded sender |
| Server.BroadcastOnce | signaling-server.js:140-149 | Over a duplicate-free room, no connection receives a broadcast twice |
| Server.BroadcastLoop | signaling-server.js:144-148 | The iteration over the room's set yields the broadcast's deliveries in set order |
| Server.Targeted | signaling-server.js:158-165 | The direct sends of `forwardToPeer`, in set order; `TargetedRecipients` states who receives them |
| Server.TargetedRecipients | signaling-server.js:158-165 | The direct sends go exactly to the OPEN members whose stored userId is the target |
| Server.Forward | signaling-server.js:154-171 | All deliveries of `forwardToPeer`: the direct sends when there are any, else the broadcast with nobody excluded; `ForwardRecipients` states who receives them |
| Server.ForwardRecipients | signaling-server.js:154-171 | When some OPEN member bears the target id, only such members receive the message. Otherwise every OPEN member receives it, the sender included |
| Server.ForwardLoop | signaling-server.js:158-165 | The loop's sends are the targeted deliveries, and `found` is set iff one was made |
| Server.SnapshotMembers | signaling-server.js:47-55 | Every snapshot entry is a room member other than the joiner, OPEN and with a truthy userId |
| Server.SnapshotExact | signaling-server.js:47-55 | A connection is in the snapshot iff it is a listed room member. The joiner never is |
| Server.Entries | signaling-server.js:50-53 | Each snapshot entry is the member's userId and username, 'Unknown' when the name is falsy |
| Server.SnapshotLoop | signaling-server.js:47-55 | The loop builds exactly the entries of the snapshot members, in room order |
| Server.RoomDirectory.constructor | signaling-server.js:14 | The server starts with no rooms, no connections and nothing sent |
| Server.RoomDirectory.OnConnection | signaling-server.js:19-23 | A new connection is OPEN and in no room; the directory is unchanged |
| Server.RoomDirectory.OnClosing | signaling-server.js:145 | The `ws` library moves a socket out of OPEN before its `close` event runs, so routing skips it. Only that flag changes, and the directory stays valid |
| Server.RoomDirectory.BroadcastToRoom | signaling-server.js:140-149 | A missing room sends nothing. Otherwise the outbox grows by the broadcast to the room's OPEN members, the excluded one aside |
| Server.RoomDirectory.ForwardToPeer | signaling-server.js:154-171 | A missing room sends nothing. Otherwise the outbox grows by the targeted sends or by the fallback broadcast |
| Server.RoomDirectory.Join | signaling-server.js:30-70 | The room is created if needed and the connection added once. userId, username ('Unknown' when falsy) and currentRoom are stored. The joiner gets `existing-peers` only when the snapshot is non-empty, then `peer-joined` goes to every other OPEN member. Rooms stay non-empty and duplicate-free |
| Server.RoomDirectory.OnMessage | signaling-server.js:25-111 | An unparsable frame, a null message or an unknown type has no effect. `signal` needs a truthy `to` and a current room and is forwarded as `{type: signalType, from, data}`. `broadcast-signal` and `broadcast` go to the room minus the sender. Only `join` changes the directory, with exactly the effect of `Join`: the stored fields, the snapshot to the joiner and the `peer-joined` broadcast |
| Server.RoomDirectory.OnClose | signaling-server.js:113-130 | The connection leaves its truthy current room, `peer-left` goes to the remaining OPEN members, and an emptied room is deleted. Without a current room nothing else happens |
| Rooms.Joined | js/room-manager.js:215-232 | `handlePeerJoin` on the known peers and the event log; `JoinIdempotent` states its effect |
| Rooms.Left | js/room-manager.js:237-242 | `handlePeerLeave` on the known peers and the event log; `LeaveOnlyKnown` states its effect |
| Rooms.JoinIdempotent | js/room-manager.js:215-232 | A join makes the id known and fires `onPeerJoined` plus the reply timer only for an unknown id. Joining again changes nothing |
| Rooms.LeaveOnlyKnown | js/room-manager.js:237-242 | A leave forgets the id, and fires `onPeerLeft` iff the id was known |
| Rooms.Reach | js/room-manager.js:137-143 | The `forEach` over the peers list runs up to the first null or undefined entry, where the destructuring throws |
| Rooms.Seeded | js/room-manager.js:135-143 | The `existing-peers` loop as successive joins of the listed ids other than self; `SeededPeers` and `SeededFresh` state its effect |
| Rooms.SeededPeers | js/room-manager.js:135-143 | After `existing-peers`, the known ids are the old ones plus every listed `userId` before the first null entry, except self |
| Rooms.SeededFresh | js/room-manager.js:135-143 | The list never makes self known, only appends `onPeerJoined` and reply-timer events, and fires `onPeerJoined` only for ids not known before |
| Rooms.WsDispatch | js/room-manager.js:123-153 | `handleWebSocketMessage`: self messages are dropped, the three directory types go to join, leave and seeding, and signal types go to `onSignal`. Its properties are the lemmas below |
| Rooms.ChannelDispatch | js/room-manager.js:164-186 | The channel `onmessage`: self messages are dropped, `join` and `leave` go to join and leave, and signal types go to `onSignal` |
| Rooms.SelfMessagesDropped | js/room-manager.js:123-186 | A message whose `from` is the own id is dropped by both the WebSocket and the BroadcastChannel dispatcher |
| Rooms.SignalRouting | js/room-manager.js:123-186 | Only `offer`, `answer` and `ice-candidate` reach `onSignal`, with the message's own from/type/data, on both transports. Unknown types change nothing |
| Rooms.DirectoryMessagesAsRead | js/room-manager.js:123-143 | The server's `peer-joined`, `peer-left` and `existing-peers`, read through the client's `from`/`data` fields, register `undefined`, forget `undefined` and are ignored, respectively |
| Rooms.SignalRequest | js/room-manager.js:247-265 | The envelope `sendSignal` hands to the WebSocket or the channel; `SignalRequestShape` states its fields |
| Rooms.SignalRequestShape | js/room-manager.js:247-265 | Over the WebSocket the envelope is a `signal` with `to` and `signalType`. Over the channel it is typed by the signal type and stamped with the own id. With neither transport nothing is sent |
| Rooms.RoomUrl | js/room-manager.js:320-323 | The shareable address: the base URL, `#room/` and the room id |
| Rooms.Hash | js/room-manager.js:329 | `location.hash` of an address: from its first `#` on, empty when there is none or nothing follows it |
| Rooms.ParseRoom | js/room-manager.js:328-332 | The room named by a hash of the form `#room/<name>`, else null; `RoomUrlRoundTrip` and `ParseRoomRejects` state its properties |
| Rooms.RoomUrlRoundTrip | js/room-manager.js:320-332 | Parsing the hash of the room URL of a non-empty, fragment-safe room name gives that name back |
| Rooms.ParseRoomRejects | js/room-manager.js:328-332 | A hash that does not start with `#room/` followed by something parses to null |
| Rooms.RoomManager.constructor | js/room-manager.js:10-16 | A new manager has no room, no identity and no known peer |
| Rooms.RoomManager.GetRoomInfo | js/room-manager.js:337-344 | The info reports the room, the identity and the number of known peers |
| Rooms.RoomManager.JoinRoom | js/room-manager.js:29-38 | Joining stores room, id and name and keeps the known peers, the event log and the transports as they were |
| Rooms.RoomManager.LeaveRoom | js/room-manager.js:43-54 | Leaving clears room, id and the known peers and leaves the transports as they were |
| Rooms.RoomManager.InitializeSignaling | js/room-manager.js:71-92 | Start-up succeeds iff a room is set. A connected WebSocket is used as is. Otherwise a supported channel `wisphergrid_<room>` is opened, a `join` is posted and the presence ping is scheduled |
| Rooms.RoomManager.HandlePeerJoin | js/room-manager.js:215-232 | The known peers and the event log change as the join transition says |
| Rooms.RoomManager.HandlePeerLeave | js/room-manager.js:237-242 | The known peers and the event log change as the leave transition says |
| Rooms.RoomManager.SeedPeers | js/room-manager.js:137-143 | The loop over the list has the effect of the seeding transition |
| Rooms.RoomManager.HandleWebSocketMessage | js/room-manager.js:123-153 | A WebSocket message has the effect of the WebSocket dispatch on peers and events |
| Rooms.RoomManager.OnChannelMessage | js/room-manager.js:164-186 | A channel message has the effect of the channel dispatch on peers and events |
| Rooms.RoomManager.SendSignal | js/room-manager.js:247-265 | The active transport is handed the envelope `SignalRequest` describes, and nothing else changes |
| WsSignaling.ReconnectDelay | js/signaling-websocket.js:109 | The delay of attempt n, `min(1000 * 2^n, 10000)` ms; `DelaySchedule` states its values |
| WsSignaling.DelaySchedule | js/signaling-websocket.js:106-116 | The n-th reconnect after an open waits the n-th entry of 2000, 4000, 8000, 10000, 10000 ms. No delay exceeds 10000 ms |
| WsSignaling.UndefinedUrlRejected | js/signaling-websocket.js:49-52 | A URL containing `undefined` anywhere is refused |
| WsSignaling.Stamped | js/signaling-websocket.js:121-131 | An outgoing message carries the stored `from` and `roomId`; every other key is kept and nothing is added |
| WsSignaling.WebSocketSignaling.constructor | js/signaling-websocket.js:7-16 | An empty or null URL is replaced by the default URL; no socket, no attempts |
| WsSignaling.WebSocketSignaling.Connect | js/signaling-websocket.js:43-101 | The room, identity and given callback are stored. Connecting succeeds iff the URL is non-empty, free of `undefined` and accepted, and then a new CONNECTING socket capturing room and user is created |
| WsSignaling.WebSocketSignaling.OnOpen | js/signaling-websocket.js:57-69 | The attempt counter is reset. A stamped `join` is sent with the captured room and user and the stored username, or 'User' |
| WsSignaling.WebSocketSignaling.OnMessage | js/signaling-websocket.js:71-85 | A parsed, non-null message not from the own id reaches the callback; nothing else does |
| WsSignaling.WebSocketSignaling.OnClose | js/signaling-websocket.js:91-94 | A close marks the socket closed and tries to reconnect |
| WsSignaling.WebSocketSignaling.AttemptReconnect | js/signaling-websocket.js:106-116 | Below 5 attempts and with a room set, one more reconnect is scheduled, with the delay of the new attempt count. The delays since the last open stay a prefix of the backoff schedule |
| WsSignaling.WebSocketSignaling.FireReconnect | js/signaling-websocket.js:112-114 | A fired timer connects with the room, id and callback stored at that moment. A new socket exists iff that connect succeeds, and the counter and delays are kept |
| WsSignaling.WebSocketSignaling.Send | js/signaling-websocket.js:121-131 | A frame is written iff the socket is OPEN, and it is the stamped message |
| WsSignaling.WebSocketSignaling.Disconnect | js/signaling-websocket.js:136-143 | The socket is dropped and room and id are cleared, counter untouched |
| WsSignaling.DisconnectThenClose | js/signaling-websocket.js:91-143 | After `disconnect`, a late close event schedules no reconnect |
| Users.SidOwner | app.py:18-23 | The first key of `USERS`, in insertion order, bound to the session; `SidOwnerSpec` states it |
| Users.SidOwnerSpec | app.py:18-23 | The lookup returns a key mapped to the session and no earlier key is. It returns None iff no key is mapped to the session |
| Users.OwnerExists | app.py:18-23 | On a well-formed directory, the lookup succeeds iff some user is registered from the session |
| Users.FromId | app.py:109 | The `from_id` stamped on a relayed payload: the session's username, or null when it has none |
| Users.Register | app.py:52-75 | A missing or falsy name fails with 'Username is required.'. A taken name fails with 'Username is already taken.'. Otherwise the name is mapped to the session, `your_identity` goes to the sender and the full list goes to everyone. The directory changes iff the name is new, truthy and hashable, and stays well formed |
| Users.Disconnect | app.py:77-90 | The session's user, if any, is removed, then the new list and `peer_hung_up` are broadcast. A session without a user changes nothing |
| Users.Relay | app.py:94-114 | Exactly one emit iff `data` is a dict with a truthy `target_sid` and a dict payload (an empty one when absent), and none otherwise. It goes to the target only. Its keys are the payload's plus `from_id` and `from_sid`. `from_id` is the sender's username (null if unregistered), `from_sid` its session, and every other key keeps the caller's value |
| Users.HangUp | app.py:116-122 | A hang-up goes to the target, with the sender's username, exactly when a target is given |
| Users.RegisterThenDisconnect | app.py:52-90 | A fresh session that registers and then disconnects leaves `USERS` as it was |
| Users.SecondNameOutlivesSession | app.py:18-90 | A session that registers two names keeps the second one after disconnecting |
| Users.UserDirectory.constructor | app.py:16 | `USERS` starts empty |
| Users.UserDirectory.GetUserIdFromSid | app.py:18-23 | The scan returns the first key whose value is the session, or None iff there is none |
| Users.UserDirectory.OnRegisterUser | app.py:52-75 | The directory and the emits change as the register transition says |
| Users.UserDirectory.OnDisconnect | app.py:77-90 | The directory and the emits change as the disconnect transition says |
| Users.UserDirectory.OnRelaySignal | app.py:94-114 | `USERS` is unchanged; the emits grow by the relay's emit |
| Users.UserDirectory.OnHangUp | app.py:116-122 | `USERS` is unchanged; the emits grow by the hang-up's emit |
| Manual.Normalize | js/signaling-manager.js:100-108 | The JSON text round trip keeps truthiness and scalars, and never produces `undefined` from a defined value |
| Manual.GetNormalize | js/signaling-manager.js:84-95 | Reading a property after the round trip gives the round trip of the property |
| Manual.NormalizeIdempotent | js/signaling-manager.js:84-108 | A second trip through JSON text changes nothing |
| Manual.ManualCall | js/signaling-manager.js:84-95 | The callback `processManualSignal` makes for a parsed value, if any; `CopyRoundTrip` states when it is made |
| Manual.SignalForCopy | js/signaling-manager.js:100-108 | The object `generateSignalForCopy` serialises; `CopyRoundTrip` states what the other side makes of it |
| Manual.CopyRoundTrip | js/signaling-manager.js:84-108 | A generated signal pasted on the other side is accepted iff type and data are truthy. It then reports `peerId \|\| userId` (or 'manual') with the type and data as they survived the text |
| Manual.CopyRoundTripStrings | js/signaling-manager.js:84-108 | For string ids and type, the pasted signal names the generating side, the type and the round-tripped data exactly |
| Manual.ChannelFilter | js/signaling-manager.js:38-45 | Whatever passes the channel filter is not from the listener itself and has one of the four signaling types |
| Manual.PostReachesOthers | js/signaling-manager.js:33-79 | Another manager receives our join announcement, and any of our signal posts of a signaling type, whatever its `to`. It drops any other type |
| Manual.OwnPostsDropped | js/signaling-manager.js:38-79 | Nothing a manager posts is passed to its own callback |
| Manual.SignalingManager.constructor | js/signaling-manager.js:8-13 | A new manager has no room, identity, callback, channel or pending offer |
| Manual.SignalingManager.Initialize | js/signaling-manager.js:18-56 | Room, id and callback are stored. Where supported, channel `wisphergrid_<room>` is opened and a join announcement is posted on it |
| Manual.SignalingManager.OnChannelMessage | js/signaling-manager.js:38-45 | The callback gets exactly what the filter lets through |
| Manual.SignalingManager.SendSignal | js/signaling-manager.js:68-79 | The result is true iff a channel is open, and then the signal is posted on it |
| Manual.SignalingManager.ProcessManualSignal | js/signaling-manager.js:84-95 | Pasted text is accepted iff it parsed and `type` and `data` are truthy. The callback runs once, then |
| Manual.SignalingManager.Cleanup | js/signaling-manager.js:113-119 | The channel is gone and no offer is pending |
| App.Initiates | js/app.js:192 | The initiator choice: the own id sorts after the peer's; `ExactlyOneInitiator` states that it picks one side of each pair |
| App.ExactlyOneInitiator | js/app.js:192 | Of two distinct string ids, exactly one side is the initiator |
| App.PeerJoin | js/app.js:176-205 | The own id, a known peer or a null `data` is ignored. Otherwise the peer is recorded with its name or 'Unknown', a connection created with the initiator flag, and an offer created iff the own id sorts last |
| App.OfferDue | js/app.js:192-199 | `handlePeerJoin` goes on to create and send an offer; `OneOfferPerPair` and `JoinOnce` state when |
| App.JoinOnce | js/app.js:176-205 | A recorded peer's repeated join adds no entry and no offer |
| App.OneOfferPerPair | js/app.js:176-205 | When two strangers with distinct ids learn of each other, exactly one of them sends an offer |
| App.PeerLeave | js/app.js:210-219 | Only a known peer is closed and forgotten; every other peer keeps its entry |
| App.StateChange | js/app.js:70-84 | On `disconnected` or `failed` the peer is forgotten and its connection closed at once. Any other state changes nothing |
| App.LostThenLeave | js/app.js:70-219 | A peer-left after a lost connection finds nothing left to do |
| App.Signaling | js/app.js:224-251 | An offer creates a responder connection if none exists and is answered. An answer sets the remote description. A candidate is added. Other types are ignored, and the peer map never changes |
| App.ManualJoinDue | js/app.js:413-425 | Pasted connection info leads to a join: it parsed, names the same room and another user; `WispherGrid.ProcessManualSignal` states the effect |
| App.WispherGrid.constructor | js/app.js:11-19 | The application starts with no peers, no connections and a fresh room manager |
| App.WispherGrid.HandlePeerJoin | js/app.js:176-205 | The mesh changes as the join transition says. The offer goes out through the room iff one is due and was created |
| App.WispherGrid.HandlePeerLeave | js/app.js:210-219 | The mesh changes as the leave transition says |
| App.WispherGrid.HandleSignaling | js/app.js:224-251 | The mesh changes as the signaling transition says. An answer is sent back iff an offer arrived and the answer was created |
| App.WispherGrid.OnConnectionStateChange | js/app.js:70-84 | The mesh changes as the state-change transition says |
| App.WispherGrid.OnIceCandidate | js/app.js:98-102 | A candidate is sent iff it is truthy; the end-of-gathering null is not |
| App.WispherGrid.ProcessManualSignal | js/app.js:413-425 | Connection info pasted from another user of the same room starts a join with its id and name. Anything else changes nothing |
| App.WispherGrid.LeaveRoom | js/app.js:159-171 | Every connection is closed, every peer forgotten, and the room left: its room, id, name and peers are cleared. Its transport flags, channel name and event log stay as they were |
| App.WispherGrid.HandleFileSelected | js/app.js:298-332 | A file is broadcast iff it is at most 100 MiB and was read. A larger one is refused before reading |

## Behaviour of the code worth knowing

- **Reconnect delays.** The delay is computed after the counter is
  incremented. The first reconnect therefore waits 2000 ms, and the
  delays run 2000, 4000, 8000, 10000, 10000 ms
  (`WsSignaling.DelaySchedule`). After the fifth attempt nothing more is
  scheduled and nothing is reported to the application.
- **Immediate drop.** A connection that reports `disconnected` or
  `failed` is removed from the mesh at once (`App.StateChange`).
- **Answers applied as they come.** An answer is passed to the WebRTC
  layer whatever state its connection is in, and nothing is held back
  while a connection is being set up (`App.Signaling`).
- **Directory field names.** The server sends `peer-joined`, `peer-left`
  and `existing-peers` with `userId` and `peers` at the top level. The
  client's dispatcher reads `from` and `data.peers`. Over the WebSocket
  transport a joiner is therefore registered under the id `undefined`,
  and snapshots are ignored (`Rooms.DirectoryMessagesAsRead`).
- **Null URL.** `RoomManager.getSignalingServerUrl` answers null where
  no signaling server is expected, and its comment says the
  BroadcastChannel is then used. The `WebSocketSignaling` constructor
  replaces a null URL with its default URL, so `connect` goes ahead
  (`WsSignaling.WebSocketSignaling.constructor`).
- **Rejoining.** A connection that sends a second `join` for another
  room is added to the new room without leaving the old one. Its `close`
  then only leaves the room it joined last (`Server.RoomDirectory.Join`,
  `Server.RoomDirectory.OnClose`).
- **Timers after disconnect.** A reconnect timer scheduled before
  `disconnect` still fires, and connects with the cleared room and id
  (`WsSignaling.WebSocketSignaling.FireReconnect`).
- **Leaving a room.** `RoomManager.leaveRoom` does not close its
  transports (`Rooms.RoomManager.LeaveRoom`).
- **Second name.** A Python session may register a second username.
  Disconnecting removes only the first one found, and the second one
  stays behind mapped to a session that no longer exists
  (`Users.SecondNameOutlivesSession`).

## Left out

- JSON text: `JSON.stringify`/`JSON.parse` are modelled by `Manual.Normalize` on values; a parse failure is an input (`None`), and number formatting, escaping and string encoding are not modelled.
- The WebRTC layer (`js/webrtc-manager.js`): peer connections, data channels, ICE and SDP are a log of `App.LinkCall` values. Only its close on `failed`/`disconnected` is folded into `App.StateChange`. Its internals are not part of this model.
- `js/ui.js`, the `hashchange` listener, `sessionStorage`, chat and file reassembly: these are presentation and storage, outside the signaling core.
- `App.WispherGrid`: the application's own `joinRoom` and initialisation (URL reading, username prompt, wiring of callbacks) are not modelled; the room is entered through `Rooms.RoomManager.JoinRoom`.
- Timers: the 100 ms join reply and the 5 s presence ping are events (`JoinReplyScheduled`, `PresencePingScheduled`); what they post later is not modelled. Reconnect timers are a counter that `FireReconnect` consumes.
- `Date.now()`, generated ids and the browser's URL percent-encoding are parameters or preconditions (`Rooms.RoomUrlRoundTrip` requires a fragment-safe room name).
- Logging (`console.log`, `print`) has no effect in the model.
- Concurrency: every handler runs as one atomic step, as a single-threaded event loop runs it; interleavings of awaited calls inside one handler are not modelled.
- `Manual.SignalingManager.Initialize`: a second call opens a new channel without closing the old one; the old channel's later messages are not modelled.
- `Users.Register`: Python's hash equality across types (`True == 1`, `1 == 1.0`) is not modelled; keys are compared structurally.
- `StringOrder.Less`: locale-specific collation is replaced by code-point order; only the properties of a strict total order are used.
- Strict equality (`===`) is modelled as structural equality of values. Object identity is not modelled; the ids and types the handlers compare are strings.
- Numbers are integers in the model (`JNum(int)`); floating point, `NaN` and the JSON number syntax are not modelled. The only numbers the core handles are timestamps, sizes and counters.
