# Room coordinator of a planning-poker server, in Dafny

This project models `RoomService`, the server-side coordinator of a
planning-poker application. A host opens a room, participants join over
sockets, and the host closes the room, kicks users and moves the voting
through its rounds. `RoomService` owns two dictionaries that it updates in
place:

- `activeRoomsByID` maps a room id to a room.
- `activeSocketsByID` maps a socket id to `{socket, connectedTo}`.

It handles eight client events plus disconnection. Each handler runs the same
steps: check the payload shape, look up the room, run one of three
authorization checks, change a registry or delegate to the room, and emit a
notification.

Files and modules:

- `payloads.dfy` (`Payloads`): the inbound payload, JavaScript truthiness of
  its fields, the outbound notices, and the title/message texts of each
  refusal.
- `rooms.dfy` (`Rooms`): the part of a room the service sees (`roomID`,
  `roomConfig`, `hostUID`). Every operation delegated to a room becomes one
  `RoomCall` entry in a trace.
- `coordinator.dfy` (`Coordinator`): the service as a pure state machine. It
  has one transition function per handler, the invariant `Valid`, and the
  dispatch `Step` and `Run`.
- `coordinator_lemmas.dfy` (`CoordinatorLemmas`): properties of whole event
  sequences, proved by induction.
- `room_service.dfy` (`Service`): the class `RoomService`. Its two registries
  are `map` fields that its methods reassign. Each handler method is proved
  to leave `Snapshot()` equal to the same-named `Coordinator` transition
  applied to the old snapshot, and to keep `Valid()`.

Two collaborators are outside this model and are passed in instead:

- `AuthService.validateToken(authToken, uid)` is the function value
  `validateToken`. The constructor receives it.
- `room.getUIDFromSocket(socket)` is the parameter `socketUID` of the three
  host-by-connection handlers. Its value is the uid the room resolves the
  requesting socket to at that moment.

Three details of server/routes/sockets/room-service.js that a reader might
not expect. The model keeps each of them as written:

- At line 292 a `user_vote` payload is rejected only when `cardIndex` is
  `=== null`. A missing (`undefined`) card index passes the check, and so
  does `0`.
- At lines 235-238 `close_room` passes a "Failed to Close Room"
  title/message to `checkIfUserAuthorizedForRoomGivenUID`. The helper never
  uses that argument: line 61 emits `not_authorized` with no payload.
- At lines 189-197 `create_room` runs only the identity check
  (`checkIfUserAuthorized`). It has no host check, because the room does not
  exist yet.

## Model

| member | source | states |
|---|---|---|
| Coordinator.OnConnection | server/routes/sockets/room-service.js:76-78 | a connection adds a record with no room for that socket; other sockets, rooms, calls and emits are unchanged |
| Coordinator.ConnectedRoom | server/routes/sockets/room-service.js:107-111 | the room a disconnect detaches from is always a registered key, and the socket has a record |
| Coordinator.OnDisconnect | server/routes/sockets/room-service.js:104-120 | the socket's record is removed and rooms and emits are unchanged; `disconnectUserFromRoom` is called only when `connectedTo` names a registered room; a socket with no record (second disconnect) leaves the state unchanged |
| Coordinator.ClientJoinRoom | server/routes/sockets/room-service.js:142-172 | the room registry never changes; a malformed payload changes nothing; an unregistered room emits only `room_inactive`; a registered room gets `joinUserToRoom({nickname, socketID, uid})` and the socket's `connectedTo` becomes the room; `connectedTo` changes only on such a join |
| Coordinator.ClientStartRoom | server/routes/sockets/room-service.js:177-210 | a malformed payload changes nothing; a failed token check emits one `not_authorized` with "Failed to Create Room" and nothing else; an existing id emits `room_already_created`; existing rooms are never overwritten; the registry changes iff all checks pass, and then exactly the key `roomID` is added, holding a room with that id, the payload's config and host `uid`, and `create_success` is emitted; keeps `Valid` |
| Coordinator.ClientCloseRoom | server/routes/sockets/room-service.js:215-249 | a malformed payload changes nothing; an unregistered id emits only `host_room_closed_failure`; a non-host uid or failing token emits `not_authorized` with no payload and changes nothing else; a room call happens iff the room is registered and the uid is its host with a validating token (`ClosesAsHost`), and then `disconnectAllUsers` is called and `host_room_closed_success` is emitted; otherwise the registry is unchanged; when every room is stored under its own id (`KeysMatch`, part of `Valid`) a successful close removes exactly that key and leaves every other room untouched |
| Coordinator.HostAction | server/routes/sockets/room-service.js:264-280 | an unregistered room is a silent no-op; a refused host-by-connection check emits one `not_authorized` with the action's payload; the room call is made iff the room exists and the check passes |
| Coordinator.ClientKickUser | server/routes/sockets/room-service.js:254-284 | a malformed payload or unknown room changes nothing; a socket with no resolved uid never causes a call; `kickUser(user)` is called iff the resolved uid is the host and its token validates; otherwise "Failed to Kick User" is emitted |
| Coordinator.ClientVote | server/routes/sockets/room-service.js:289-307 | never emits and never touches the registries; `userVote(cardIndex)` is delegated iff `roomID` is truthy, `cardIndex` is not null (so 0 is accepted) and the room is registered, with no authorization |
| Coordinator.ClientCancelVote | server/routes/sockets/room-service.js:312-327 | never emits and never touches the registries; `userCancelVote` is delegated iff `roomID` is truthy and registered, with no authorization |
| Coordinator.ClientStartNewRound | server/routes/sockets/room-service.js:332-361 | like kick: no-op when malformed or unknown; `startNewRound` iff host by connection; otherwise "Failed to Start New Round" |
| Coordinator.ClientForceEndBidding | server/routes/sockets/room-service.js:367-396 | like kick: no-op when malformed or unknown; `forceEndBidding` iff host by connection; otherwise "Failed to Force End Bidding" |
| Coordinator.Step | server/routes/sockets/room-service.js:79-96 | any event with a malformed payload changes nothing; every event keeps `Valid`, emits at most one notice, makes at most one room call; only `create_room` adds a room; under `KeysMatch`, only a host-authorized `close_room` for a key removes or changes that room; only a connection adds a socket record; every host-only room call was requested by a socket the room resolves to its host, with a validating token |
| Coordinator.Run | server/routes/sockets/room-service.js:79-96 | over any sequence of events, emits and room calls are only appended, `Valid` is kept, and at most one notice per event is emitted |
| CoordinatorLemmas.RoomUnchangedUntilClosed | server/routes/sockets/room-service.js:125-137 | from a state whose rooms are stored under their own ids (`KeysMatch`, part of `Valid`), a registered room keeps its exact value, host included, through any events that contain no `close_room` for it by its host with a validating token; refused closes of it and closes of other rooms leave it untouched |
| CoordinatorLemmas.NoRoomWithoutCreate | server/routes/sockets/room-service.js:125-127 | without `create_room` events, no key is added to the room registry |
| CoordinatorLemmas.NoRecordWithoutConnection | server/routes/sockets/room-service.js:76-78 | a socket with no record does not get one unless it connects again |
| CoordinatorLemmas.DisconnectCleansUp | server/routes/sockets/room-service.js:104-120 | after a disconnect, the socket has no record until it connects again, whatever events follow |
| CoordinatorLemmas.UnresolvedSocketsNeverActAsHost | server/routes/sockets/room-service.js:40-48 | if no room resolves the requesting sockets to a uid, no `kickUser`, `startNewRound` or `forceEndBidding` call is ever made |
| Service.RoomService.constructor | server/routes/sockets/room-service.js:9-19 | both registries start empty, no calls and no emits; the invariant holds |
| Service.RoomService.EmitUserEvent | server/routes/sockets/room-service.js:68-70 | appends exactly one notice for the socket |
| Service.RoomService.CallRoom | server/routes/sockets/room-service.js:165 | appends exactly one delegated room call to the trace and changes nothing else; it stands for every call into a room (lines 113, 134, 165, 280, 302, 322, 357, 392) |
| Service.RoomService.CheckIfUserAuthorized | server/routes/sockets/room-service.js:24-31 | true iff the token validates for the uid; otherwise one `not_authorized` with the given payload |
| Service.RoomService.CheckIfUserAuthorizedForRoom | server/routes/sockets/room-service.js:40-48 | true iff the resolved uid is truthy, equals `hostUID` and its token validates; an unresolved socket is never authorized; every refusal emits one `not_authorized` with the given payload |
| Service.RoomService.CheckIfUserAuthorizedForRoomGivenUID | server/routes/sockets/room-service.js:57-63 | true iff `uid` equals `hostUID` and its token validates; the refusal emits `not_authorized` with no payload |
| Service.RoomService.OnConnection | server/routes/sockets/room-service.js:76-78 | performs `Coordinator.OnConnection` on the fields and keeps `Valid` |
| Service.RoomService.OnDisconnect | server/routes/sockets/room-service.js:104-120 | performs `Coordinator.OnDisconnect` on the fields and keeps `Valid` |
| Service.RoomService.CreateRoom | server/routes/sockets/room-service.js:125-127 | stores a room under `roomID` with the given host; for a non-empty host whose identity some token validates, the invariant is kept |
| Service.RoomService.CloseRoom | server/routes/sockets/room-service.js:132-137 | calls `disconnectAllUsers` on the room, then deletes exactly the key `room.roomID`; the invariant is kept |
| Service.RoomService.ClientJoinRoomEvent | server/routes/sockets/room-service.js:142-172 | performs `Coordinator.ClientJoinRoom` and keeps `Valid` |
| Service.RoomService.ClientStartRoomEvent | server/routes/sockets/room-service.js:177-210 | performs `Coordinator.ClientStartRoom` and keeps `Valid` |
| Service.RoomService.ClientCloseRoomEvent | server/routes/sockets/room-service.js:215-249 | performs `Coordinator.ClientCloseRoom` and keeps `Valid` |
| Service.RoomService.ClientKickUserEvent | server/routes/sockets/room-service.js:254-284 | performs `Coordinator.ClientKickUser` and keeps `Valid` |
| Service.RoomService.ClientVoteEvent | server/routes/sockets/room-service.js:289-307 | performs `Coordinator.ClientVote` and keeps `Valid` |
| Service.RoomService.ClientCancelVoteEvent | server/routes/sockets/room-service.js:312-327 | performs `Coordinator.ClientCancelVote` and keeps `Valid` |
| Service.RoomService.ClientStartNewRoundEvent | server/routes/sockets/room-service.js:332-361 | performs `Coordinator.ClientStartNewRound` and keeps `Valid` |
| Service.RoomService.ClientForceEndBidding | server/routes/sockets/room-service.js:367-396 | performs `Coordinator.ClientForceEndBidding` and keeps `Valid` |

## Left out

- Socket.io transport: server construction, `listen`, the event wiring of
  `onConnection` and `io.to(...).emit`. An emit is one appended `Notice`. A
  connection is the insertion of its socket record. The wiring is the
  dispatch in `Coordinator.Step`.
- The Room class (`./room`) is not part of this model. Its membership,
  votes, phases and broadcasts are not modelled. The service's calls into a
  room are recorded in a trace, tagged with the room's registry key.
  `getUIDFromSocket` is the `socketUID` parameter, and the `io` argument of
  the room constructor is dropped.
- `AuthService.validateToken` is not part of this model. It is an arbitrary
  function `(authToken, uid) -> bool` supplied to the constructor.
- Logging (`Utils.DebugLog`, `console.log` in the catch blocks) is not
  modelled. A throw inside a handler's `try` is modelled as "stop there".
  Two throws come from the service's own code:
  - `join_room` on a socket without a record: the room has already been
    called, and `connectedTo` is not set.
  - A disconnect of a socket without a record: nothing changes.
- Calls into a room, `getUIDFromSocket`, the `Room` constructor and
  `validateToken` are assumed to return normally. A throw from one of them is
  not modelled. For example, a throw at line 113 would skip the delete at
  line 116, and a throw at line 134 would skip the delete at line 136 and the
  success emit at line 245.
- A payload that is itself `undefined` or `null` is not modelled. The field
  checks run outside the `try`, so they would throw out of the handler.
- Payload fields other than `cardIndex` are optional strings. Missing and
  `""` are falsy. JavaScript's other falsy values (`0`, `false`, `null`,
  `NaN`) are not distinguished. The room config object and the kicked user
  are opaque non-empty strings.
- Room and socket ids are plain map keys. JavaScript's coercion of object
  keys to strings is not modelled. Nor are the properties an object inherits,
  which make a lookup such as `activeRoomsByID["toString"]` truthy.
- Host disconnection does not close the room (the TODO at
  server/routes/sockets/room-service.js:102). The source does not do it, so
  the model does not either.
- Concurrency: handlers run one at a time on the event loop, so the model
  handles events in sequence.
- The UI files are not modelled: React rendering, form validation, an icon
  and bootstrap. This covers `ui/src/pages/CreatePage.js`,
  `ui/src/pages/round/RoundSubpage.js`, `ui/src/components/login/*.jsx`,
  `ui/src/components/icon/PilePlanIcon.js`, `ui/src/pages/create/EditCard.js`
  and `ui/src/index.js`. This leaves out their array copy/delete helpers and
  the voted/total count.
