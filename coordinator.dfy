/**
 * The room registry of `RoomService` as a pure state machine: the two
 * dictionaries, the trace of calls delegated to rooms and the log of emitted
 * notifications, with one transition function per socket event. The class in
 * room_service.dfy is proved to perform exactly these transitions.
 */
module Coordinator {
  import opened Wrappers
  import opened Payloads
  import opened Rooms

  /** `AuthService.validateToken(authToken, uid)`: an external credential check. */
  type Validator = (string, UID) -> bool

  /** The value `{socket, connectedTo}` stored in `activeSocketsByID`. */
  datatype SocketRecord = SocketRecord(connectedTo: Option<RoomID>)

  /**
   * `rooms` is `activeRoomsByID`, `sockets` is `activeSocketsByID`, `calls`
   * the operations delegated to rooms in order, `emitted` the notifications
   * sent in order.
   */
  datatype State = State(
    rooms: map<RoomID, Room>,
    sockets: map<SocketID, SocketRecord>,
    calls: seq<RoomCall>,
    emitted: seq<Notice>)

  const Initial: State := State(map[], map[], [], [])

  /**
   * A registered room is stored under its own id, and its host is a
   * non-empty uid whose identity some token has been validated for.
   */
  ghost predicate RoomWellFormed(auth: Validator, key: RoomID, room: Room) {
    room.roomID == key && room.hostUID != "" && exists t :: auth(t, room.hostUID)
  }

  /** Every registered room is stored under its own id: the part of `Valid` that `closeRoom` relies on. */
  ghost predicate KeysMatch(s: State) {
    forall k :: k in s.rooms ==> s.rooms[k].roomID == k
  }

  /** The invariant every reachable state keeps. */
  ghost predicate Valid(auth: Validator, s: State) {
    forall k :: k in s.rooms ==> RoomWellFormed(auth, k, s.rooms[k])
  }

  function Emit(s: State, event: OutEvent, socketID: SocketID, info: Option<ErrorInfo>): State {
    s.(emitted := s.emitted + [Notice(event, socketID, info)])
  }

  function Delegate(s: State, call: RoomCall): State {
    s.(calls := s.calls + [call])
  }

  // ---------------------------------------------------------------------
  // Authorization decisions
  // ---------------------------------------------------------------------

  /** Host by uid: the uid named in the payload is the host and its token validates. */
  predicate HostByUID(auth: Validator, room: Room, token: string, uid: UID) {
    room.hostUID == uid && auth(token, uid)
  }

  /**
   * Host by connection: `socketUID` is what the room resolves the requesting
   * socket to; it must be truthy, be the host, and its token must validate.
   */
  predicate HostByConnection(auth: Validator, room: Room, token: string, socketUID: Field) {
    Truthy(socketUID) && room.hostUID == socketUID.value && auth(token, socketUID.value)
  }

  // ---------------------------------------------------------------------
  // Connection and disconnection
  // ---------------------------------------------------------------------

  /** A new connection registers a socket record with no room. */
  function OnConnection(s: State, socketID: SocketID): (r: State)
    ensures socketID in r.sockets && r.sockets[socketID].connectedTo == None
    ensures r.sockets.Keys == s.sockets.Keys + {socketID}
    ensures forall x :: x in s.sockets && x != socketID ==> r.sockets[x] == s.sockets[x]
    ensures r.rooms == s.rooms && r.calls == s.calls && r.emitted == s.emitted
  {
    s.(sockets := s.sockets[socketID := SocketRecord(None)])
  }

  /**
   * The registered room a socket is connected to, if any: its `connectedTo`
   * is truthy and still a key of the registry.
   */
  function ConnectedRoom(s: State, socketID: SocketID): (r: Option<RoomID>)
    ensures r.Some? ==> r.value in s.rooms && socketID in s.sockets
  {
    if socketID in s.sockets
       && Truthy(s.sockets[socketID].connectedTo)
       && s.sockets[socketID].connectedTo.value in s.rooms
    then s.sockets[socketID].connectedTo
    else None
  }

  /**
   * Disconnection detaches the user from the room the socket is connected to
   * (only if that room is still registered) and drops the socket record. For
   * a socket with no record the lookup throws and the throw is swallowed.
   */
  function OnDisconnect(s: State, socketID: SocketID): (r: State)
    ensures socketID !in r.sockets
    ensures r.sockets == s.sockets - {socketID}
    ensures r.rooms == s.rooms && r.emitted == s.emitted
    ensures socketID !in s.sockets ==> r == s
    ensures r.calls != s.calls ==>
      && socketID in s.sockets
      && s.sockets[socketID].connectedTo.Some?
      && s.sockets[socketID].connectedTo.value in s.rooms
      && r.calls == s.calls + [DisconnectUserFromRoom(s.sockets[socketID].connectedTo.value, socketID)]
    ensures ConnectedRoom(s, socketID).Some? ==> |r.calls| == |s.calls| + 1
  {
    if socketID !in s.sockets then
      s
    else
      var detached :=
        match ConnectedRoom(s, socketID)
        case Some(id) => Delegate(s, DisconnectUserFromRoom(id, socketID))
        case None => s;
      detached.(sockets := s.sockets - {socketID})
  }

  // ---------------------------------------------------------------------
  // join_room
  // ---------------------------------------------------------------------

  predicate JoinPayloadOk(info: EventInfo) {
    Truthy(info.roomID) && Truthy(info.nickname) && Truthy(info.uid)
  }

  /**
   * Joining is open to anyone: an unregistered room answers `room_inactive`;
   * a registered one is handed the user and the socket records the room.
   * Without a socket record the assignment throws after the room was
   * already called, and the throw is swallowed.
   */
  function ClientJoinRoom(s: State, info: EventInfo, socketID: SocketID): (r: State)
    ensures r.rooms == s.rooms
    ensures r.sockets.Keys == s.sockets.Keys
    ensures forall x :: x in s.sockets && x != socketID ==> r.sockets[x] == s.sockets[x]
    ensures !JoinPayloadOk(info) ==> r == s
    ensures JoinPayloadOk(info) && info.roomID.value !in s.rooms ==>
      r == Emit(s, RoomInactive, socketID, None)
    ensures JoinPayloadOk(info) && info.roomID.value in s.rooms ==>
      && r.emitted == s.emitted
      && r.calls == s.calls + [JoinUserToRoom(info.roomID.value, User(info.nickname.value, socketID, info.uid.value))]
      && (socketID in s.sockets ==> r.sockets[socketID].connectedTo == info.roomID)
    ensures socketID in s.sockets && r.sockets[socketID] != s.sockets[socketID] ==>
      JoinPayloadOk(info) && info.roomID.value in s.rooms
  {
    if !JoinPayloadOk(info) then
      s
    else if info.roomID.value !in s.rooms then
      Emit(s, RoomInactive, socketID, None)
    else
      var id := info.roomID.value;
      var joined := Delegate(s, JoinUserToRoom(id, User(info.nickname.value, socketID, info.uid.value)));
      if socketID in s.sockets then
        joined.(sockets := s.sockets[socketID := s.sockets[socketID].(connectedTo := Some(id))])
      else
        joined
  }

  // ---------------------------------------------------------------------
  // create_room
  // ---------------------------------------------------------------------

  predicate CreatePayloadOk(info: EventInfo) {
    Truthy(info.roomID) && Truthy(info.roomConfig) && Truthy(info.uid) && Truthy(info.authToken)
  }

  /**
   * Creation checks the caller's identity only, then refuses an id that is
   * already registered; otherwise it registers a room hosted by the caller.
   */
  function ClientStartRoom(auth: Validator, s: State, info: EventInfo, socketID: SocketID): (r: State)
    ensures r.sockets == s.sockets && r.calls == s.calls
    ensures forall k :: k in s.rooms ==> k in r.rooms && r.rooms[k] == s.rooms[k]
    ensures !CreatePayloadOk(info) ==> r == s
    ensures CreatePayloadOk(info) && !auth(info.authToken.value, info.uid.value) ==>
      r == Emit(s, NotAuthorized, socketID, Some(CreateDenied))
    ensures CreatePayloadOk(info) && auth(info.authToken.value, info.uid.value) && info.roomID.value in s.rooms ==>
      r == Emit(s, RoomAlreadyCreated, socketID, None)
    ensures r.rooms != s.rooms <==>
      CreatePayloadOk(info) && auth(info.authToken.value, info.uid.value) && info.roomID.value !in s.rooms
    ensures r.rooms != s.rooms ==>
      && r.rooms.Keys == s.rooms.Keys + {info.roomID.value}
      && r.rooms[info.roomID.value] == Room(info.roomID.value, info.roomConfig.value, info.uid.value)
      && r.emitted == s.emitted + [Notice(CreateSuccess, socketID, None)]
    ensures KeysMatch(s) ==> KeysMatch(r)
    ensures Valid(auth, s) ==> Valid(auth, r)
  {
    if !CreatePayloadOk(info) then
      s
    else if !auth(info.authToken.value, info.uid.value) then
      Emit(s, NotAuthorized, socketID, Some(CreateDenied))
    else if info.roomID.value in s.rooms then
      Emit(s, RoomAlreadyCreated, socketID, None)
    else
      var id := info.roomID.value;
      var created := s.(rooms := s.rooms[id := Room(id, info.roomConfig.value, info.uid.value)]);
      Emit(created, CreateSuccess, socketID, None)
  }

  // ---------------------------------------------------------------------
  // close_room
  // ---------------------------------------------------------------------

  predicate ClosePayloadOk(info: EventInfo) {
    Truthy(info.roomID) && Truthy(info.uid) && Truthy(info.authToken)
  }

  /** A `close_room` that passes every check: the named room is registered and the uid is its host. */
  predicate ClosesAsHost(auth: Validator, s: State, info: EventInfo) {
    && ClosePayloadOk(info) && info.roomID.value in s.rooms
    && HostByUID(auth, s.rooms[info.roomID.value], info.authToken.value, info.uid.value)
  }

  /**
   * Closing needs the host by uid (the host need not be in the room). The
   * refusal carries no title/message. On success every user is disconnected
   * and the key `room.roomID` is deleted.
   */
  function ClientCloseRoom(auth: Validator, s: State, info: EventInfo, socketID: SocketID): (r: State)
    ensures r.sockets == s.sockets
    ensures r.rooms.Keys <= s.rooms.Keys
    ensures !ClosePayloadOk(info) ==> r == s
    ensures ClosePayloadOk(info) && info.roomID.value !in s.rooms ==>
      r == Emit(s, HostRoomClosedFailure, socketID, None)
    ensures ClosePayloadOk(info) && info.roomID.value in s.rooms
            && !HostByUID(auth, s.rooms[info.roomID.value], info.authToken.value, info.uid.value) ==>
      r == Emit(s, NotAuthorized, socketID, None)
    ensures r.calls != s.calls <==> ClosesAsHost(auth, s, info)
    ensures ClosesAsHost(auth, s, info) ==>
      && r.calls == s.calls + [DisconnectAllUsers(info.roomID.value)]
      && r.emitted == s.emitted + [Notice(HostRoomClosedSuccess, socketID, None)]
    ensures !ClosesAsHost(auth, s, info) ==> r.rooms == s.rooms
    ensures KeysMatch(s) ==> KeysMatch(r)
    ensures KeysMatch(s) && ClosesAsHost(auth, s, info) ==>
      && r.rooms.Keys == s.rooms.Keys - {info.roomID.value}
      && forall k :: k in r.rooms ==> r.rooms[k] == s.rooms[k]
    ensures Valid(auth, s) ==> Valid(auth, r)
  {
    if !ClosePayloadOk(info) then
      s
    else if info.roomID.value !in s.rooms then
      Emit(s, HostRoomClosedFailure, socketID, None)
    else
      var room := s.rooms[info.roomID.value];
      if !HostByUID(auth, room, info.authToken.value, info.uid.value) then
        Emit(s, NotAuthorized, socketID, None)
      else
        var closed := Delegate(s, DisconnectAllUsers(info.roomID.value)).(rooms := s.rooms - {room.roomID});
        Emit(closed, HostRoomClosedSuccess, socketID, None)
  }

  // ---------------------------------------------------------------------
  // kick_user, start_new_round, force_end_bidding
  // ---------------------------------------------------------------------

  /**
   * The shared shape of the three host-by-connection actions once the
   * payload is valid: an unregistered room is ignored silently; a refused
   * host check emits `not_authorized` with the action's title/message; an
   * accepted one makes the room call.
   */
  function HostAction(auth: Validator, s: State, roomID: RoomID, token: string, socketID: SocketID,
                      socketUID: Field, denied: ErrorInfo, call: RoomCall): (r: State)
    ensures r.rooms == s.rooms && r.sockets == s.sockets
    ensures roomID !in s.rooms ==> r == s
    ensures roomID in s.rooms && !HostByConnection(auth, s.rooms[roomID], token, socketUID) ==>
      r == Emit(s, NotAuthorized, socketID, Some(denied))
    ensures r.calls != s.calls <==> roomID in s.rooms && HostByConnection(auth, s.rooms[roomID], token, socketUID)
    ensures r.calls != s.calls ==> r.calls == s.calls + [call] && r.emitted == s.emitted
  {
    if roomID !in s.rooms then
      s
    else if !HostByConnection(auth, s.rooms[roomID], token, socketUID) then
      Emit(s, NotAuthorized, socketID, Some(denied))
    else
      Delegate(s, call)
  }

  predicate KickPayloadOk(info: EventInfo) {
    Truthy(info.roomID) && Truthy(info.user) && Truthy(info.authToken)
  }

  /** `kick_user`: host by connection, then `room.kickUser(user)`. */
  function ClientKickUser(auth: Validator, s: State, info: EventInfo, socketID: SocketID, socketUID: Field): (r: State)
    ensures r.rooms == s.rooms && r.sockets == s.sockets
    ensures !KickPayloadOk(info) || info.roomID.value !in s.rooms ==> r == s
    ensures !Truthy(socketUID) ==> r.calls == s.calls
    ensures KickPayloadOk(info) && info.roomID.value in s.rooms
            && !HostByConnection(auth, s.rooms[info.roomID.value], info.authToken.value, socketUID) ==>
      r == Emit(s, NotAuthorized, socketID, Some(KickDenied))
    ensures r.calls != s.calls <==>
      KickPayloadOk(info) && info.roomID.value in s.rooms
      && HostByConnection(auth, s.rooms[info.roomID.value], info.authToken.value, socketUID)
    ensures r.calls != s.calls ==>
      r.calls == s.calls + [KickUser(info.roomID.value, info.user.value)] && r.emitted == s.emitted
  {
    if !KickPayloadOk(info) then
      s
    else
      HostAction(auth, s, info.roomID.value, info.authToken.value, socketID, socketUID,
                 KickDenied, KickUser(info.roomID.value, info.user.value))
  }

  predicate HostActionPayloadOk(info: EventInfo) {
    Truthy(info.roomID) && Truthy(info.authToken)
  }

  /** `start_new_round`: host by connection, then `room.startNewRound()`. */
  function ClientStartNewRound(auth: Validator, s: State, info: EventInfo, socketID: SocketID, socketUID: Field): (r: State)
    ensures r.rooms == s.rooms && r.sockets == s.sockets
    ensures !HostActionPayloadOk(info) || info.roomID.value !in s.rooms ==> r == s
    ensures !Truthy(socketUID) ==> r.calls == s.calls
    ensures HostActionPayloadOk(info) && info.roomID.value in s.rooms
            && !HostByConnection(auth, s.rooms[info.roomID.value], info.authToken.value, socketUID) ==>
      r == Emit(s, NotAuthorized, socketID, Some(NewRoundDenied))
    ensures r.calls != s.calls <==>
      HostActionPayloadOk(info) && info.roomID.value in s.rooms
      && HostByConnection(auth, s.rooms[info.roomID.value], info.authToken.value, socketUID)
    ensures r.calls != s.calls ==>
      r.calls == s.calls + [StartNewRound(info.roomID.value)] && r.emitted == s.emitted
  {
    if !HostActionPayloadOk(info) then
      s
    else
      HostAction(auth, s, info.roomID.value, info.authToken.value, socketID, socketUID,
                 NewRoundDenied, StartNewRound(info.roomID.value))
  }

  /** `force_end_bidding`: host by connection, then `room.forceEndBidding()`. */
  function ClientForceEndBidding(auth: Validator, s: State, info: EventInfo, socketID: SocketID, socketUID: Field): (r: State)
    ensures r.rooms == s.rooms && r.sockets == s.sockets
    ensures !HostActionPayloadOk(info) || info.roomID.value !in s.rooms ==> r == s
    ensures !Truthy(socketUID) ==> r.calls == s.calls
    ensures HostActionPayloadOk(info) && info.roomID.value in s.rooms
            && !HostByConnection(auth, s.rooms[info.roomID.value], info.authToken.value, socketUID) ==>
      r == Emit(s, NotAuthorized, socketID, Some(EndBiddingDenied))
    ensures r.calls != s.calls <==>
      HostActionPayloadOk(info) && info.roomID.value in s.rooms
      && HostByConnection(auth, s.rooms[info.roomID.value], info.authToken.value, socketUID)
    ensures r.calls != s.calls ==>
      r.calls == s.calls + [ForceEndBidding(info.roomID.value)] && r.emitted == s.emitted
  {
    if !HostActionPayloadOk(info) then
      s
    else
      HostAction(auth, s, info.roomID.value, info.authToken.value, socketID, socketUID,
                 EndBiddingDenied, ForceEndBidding(info.roomID.value))
  }

  // ---------------------------------------------------------------------
  // user_vote, user_cancel_vote
  // ---------------------------------------------------------------------

  /** Only a `null` card index is refused; `undefined` and `0` pass. */
  predicate VotePayloadOk(info: EventInfo) {
    Truthy(info.roomID) && info.cardIndex != Null
  }

  /** `user_vote`: no authorization, no notification; an unknown room is ignored. */
  function ClientVote(s: State, info: EventInfo, socketID: SocketID): (r: State)
    ensures r.rooms == s.rooms && r.sockets == s.sockets && r.emitted == s.emitted
    ensures VotePayloadOk(info) && info.roomID.value in s.rooms ==>
      r.calls == s.calls + [UserVote(info.roomID.value, info.cardIndex, socketID)]
    ensures !(VotePayloadOk(info) && info.roomID.value in s.rooms) ==> r == s
  {
    if VotePayloadOk(info) && info.roomID.value in s.rooms then
      Delegate(s, UserVote(info.roomID.value, info.cardIndex, socketID))
    else
      s
  }

  /** `user_cancel_vote`: no authorization, no notification; an unknown room is ignored. */
  function ClientCancelVote(s: State, info: EventInfo, socketID: SocketID): (r: State)
    ensures r.rooms == s.rooms && r.sockets == s.sockets && r.emitted == s.emitted
    ensures Truthy(info.roomID) && info.roomID.value in s.rooms ==>
      r.calls == s.calls + [UserCancelVote(info.roomID.value, socketID)]
    ensures !(Truthy(info.roomID) && info.roomID.value in s.rooms) ==> r == s
  {
    if Truthy(info.roomID) && info.roomID.value in s.rooms then
      Delegate(s, UserCancelVote(info.roomID.value, socketID))
    else
      s
  }

  // ---------------------------------------------------------------------
  // Event dispatch and runs
  // ---------------------------------------------------------------------

  /**
   * One event delivered on one socket. The host-by-connection events carry
   * `socketUID`: what the room's `getUIDFromSocket` answers for that socket
   * when the event is handled (the room's membership is not modelled).
   */
  datatype ClientEvent =
    | Connection(socketID: SocketID)
    | Disconnect(socketID: SocketID)
    | JoinRoom(info: EventInfo, socketID: SocketID)
    | Vote(info: EventInfo, socketID: SocketID)
    | CancelVote(info: EventInfo, socketID: SocketID)
    | CreateRoom(info: EventInfo, socketID: SocketID)
    | CloseRoom(info: EventInfo, socketID: SocketID)
    | Kick(info: EventInfo, socketID: SocketID, socketUID: Field)
    | NewRound(info: EventInfo, socketID: SocketID, socketUID: Field)
    | EndBidding(info: EventInfo, socketID: SocketID, socketUID: Field)
  {
    predicate ByConnection() {
      Kick? || NewRound? || EndBidding?
    }

    /** The payload check each handler makes before anything else. */
    predicate PayloadOk() {
      match this
      case Connection(_) => true
      case Disconnect(_) => true
      case JoinRoom(info, _) => JoinPayloadOk(info)
      case Vote(info, _) => VotePayloadOk(info)
      case CancelVote(info, _) => Truthy(info.roomID)
      case CreateRoom(info, _) => CreatePayloadOk(info)
      case CloseRoom(info, _) => ClosePayloadOk(info)
      case Kick(info, _, _) => KickPayloadOk(info)
      case NewRound(info, _, _) => HostActionPayloadOk(info)
      case EndBidding(info, _, _) => HostActionPayloadOk(info)
    }
  }

  /**
   * `e` is a `close_room` for the key `k` whose uid is the host of `room`
   * and whose token validates: the only event that can remove `k`.
   */
  predicate ClosesRoomAsHost(auth: Validator, e: ClientEvent, k: RoomID, room: Room) {
    && e.CloseRoom? && ClosePayloadOk(e.info) && e.info.roomID.value == k
    && HostByUID(auth, room, e.info.authToken.value, e.info.uid.value)
  }

  /** The handler wired to each event in `onConnection`. */
  function Step(auth: Validator, s: State, e: ClientEvent): (r: State)
    ensures !e.PayloadOk() ==> r == s
    ensures Valid(auth, s) ==> Valid(auth, r)
    ensures s.emitted <= r.emitted && |r.emitted| <= |s.emitted| + 1
    ensures s.calls <= r.calls && |r.calls| <= |s.calls| + 1
    ensures !e.CloseRoom? ==> forall k :: k in s.rooms ==> k in r.rooms && r.rooms[k] == s.rooms[k]
    ensures KeysMatch(s) ==> KeysMatch(r)
    ensures KeysMatch(s) ==>
      forall k :: k in s.rooms && !ClosesRoomAsHost(auth, e, k, s.rooms[k]) ==> k in r.rooms && r.rooms[k] == s.rooms[k]
    ensures !e.CreateRoom? ==> r.rooms.Keys <= s.rooms.Keys
    ensures !e.Connection? ==> r.sockets.Keys <= s.sockets.Keys
    ensures e.Disconnect? ==> e.socketID !in r.sockets
    ensures |r.calls| > |s.calls| && r.calls[|s.calls|].HostOnly() ==>
      && e.ByConnection() && Truthy(e.info.authToken)
      && r.calls[|s.calls|].roomID in s.rooms
      && HostByConnection(auth, s.rooms[r.calls[|s.calls|].roomID], e.info.authToken.value, e.socketUID)
  {
    match e
    case Connection(x) => OnConnection(s, x)
    case Disconnect(x) => OnDisconnect(s, x)
    case JoinRoom(info, x) => ClientJoinRoom(s, info, x)
    case Vote(info, x) => ClientVote(s, info, x)
    case CancelVote(info, x) => ClientCancelVote(s, info, x)
    case CreateRoom(info, x) => ClientStartRoom(auth, s, info, x)
    case CloseRoom(info, x) => ClientCloseRoom(auth, s, info, x)
    case Kick(info, x, u) => ClientKickUser(auth, s, info, x, u)
    case NewRound(info, x, u) => ClientStartNewRound(auth, s, info, x, u)
    case EndBidding(info, x, u) => ClientForceEndBidding(auth, s, info, x, u)
  }

  /**
   * Events handled one at a time, in order. Notifications and room calls
   * are only ever appended, and the invariant holds throughout.
   */
  function Run(auth: Validator, s: State, events: seq<ClientEvent>): (r: State)
    ensures Valid(auth, s) ==> Valid(auth, r)
    ensures s.emitted <= r.emitted && s.calls <= r.calls
    ensures |r.emitted| <= |s.emitted| + |events|
    decreases |events|
  {
    if events == [] then s else Run(auth, Step(auth, s, events[0]), events[1..])
  }
}
