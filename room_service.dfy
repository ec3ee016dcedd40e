/**
 * `RoomService`: the server-side coordinator that owns the room registry
 * and the socket registry and handles the events arriving on each socket.
 * Both registries are map fields reassigned in place; the calls delegated to
 * rooms and the notifications emitted to sockets are appended to two logs.
 * Every handler is proved to perform exactly the transition of the same name
 * in module Coordinator, and to keep that module's invariant: the functions
 * there carry the properties, the methods here the in-place form.
 */
module Service {
  import opened Wrappers
  import opened Payloads
  import opened Rooms
  import Coordinator

  class RoomService {
    /** `AuthService.validateToken`, fixed for the lifetime of the service. */
    const validateToken: Coordinator.Validator
    /** Room id to room. */
    var activeRoomsByID: map<RoomID, Room>
    /** Socket id to `{socket, connectedTo}`. */
    var activeSocketsByID: map<SocketID, Coordinator.SocketRecord>
    /** Every operation delegated to a room, in order. */
    var roomCalls: seq<RoomCall>
    /** Every event emitted to a socket, in order. */
    var emitted: seq<Notice>

    function Snapshot(): Coordinator.State
      reads this
    {
      Coordinator.State(activeRoomsByID, activeSocketsByID, roomCalls, emitted)
    }

    ghost predicate Valid()
      reads this
    {
      Coordinator.Valid(validateToken, Snapshot())
    }

    constructor (validateToken: Coordinator.Validator)
      ensures this.validateToken == validateToken
      ensures Snapshot() == Coordinator.Initial && Valid()
    {
      this.validateToken := validateToken;
      activeRoomsByID := map[];
      activeSocketsByID := map[];
      roomCalls := [];
      emitted := [];
    }

    /** `emitUserEvent`: send one event to one socket. */
    method EmitUserEvent(event: OutEvent, socketID: SocketID, eventInfo: Option<ErrorInfo>)
      modifies this`emitted
      ensures emitted == old(emitted) + [Notice(event, socketID, eventInfo)]
    {
      emitted := emitted + [Notice(event, socketID, eventInfo)];
    }

    /** Invoke one operation on a registered room. */
    method CallRoom(call: RoomCall)
      modifies this`roomCalls
      ensures roomCalls == old(roomCalls) + [call]
    {
      roomCalls := roomCalls + [call];
    }

    /** Identity only: the token validates for the uid; otherwise `not_authorized` with the given payload. */
    method CheckIfUserAuthorized(uid: UID, authToken: string, socketID: SocketID, eventInfoOnError: ErrorInfo)
      returns (authorized: bool)
      modifies this`emitted
      ensures authorized == validateToken(authToken, uid)
      ensures emitted == old(emitted) + if authorized then [] else [Notice(NotAuthorized, socketID, Some(eventInfoOnError))]
    {
      if validateToken(authToken, uid) {
        authorized := true;
      } else {
        EmitUserEvent(NotAuthorized, socketID, Some(eventInfoOnError));
        authorized := false;
      }
    }

    /**
     * Host by connection. `socketUID` is `room.getUIDFromSocket(socket)`; a
     * socket the room does not resolve is never the host, even of a room
     * whose host uid is empty.
     */
    method CheckIfUserAuthorizedForRoom(room: Room, authToken: string, socketID: SocketID, socketUID: Field,
                                        eventInfoOnError: ErrorInfo)
      returns (authorized: bool)
      modifies this`emitted
      ensures authorized == Coordinator.HostByConnection(validateToken, room, authToken, socketUID)
      ensures !Truthy(socketUID) ==> !authorized
      ensures emitted == old(emitted) + if authorized then [] else [Notice(NotAuthorized, socketID, Some(eventInfoOnError))]
    {
      if Coordinator.HostByConnection(validateToken, room, authToken, socketUID) {
        authorized := true;
      } else {
        EmitUserEvent(NotAuthorized, socketID, Some(eventInfoOnError));
        authorized := false;
      }
    }

    /**
     * Host by uid. The refusal is emitted WITHOUT `eventInfoOnError`: the
     * parameter is accepted and never used.
     */
    method CheckIfUserAuthorizedForRoomGivenUID(room: Room, authToken: string, uid: UID, socketID: SocketID,
                                                eventInfoOnError: ErrorInfo)
      returns (authorized: bool)
      modifies this`emitted
      ensures authorized == Coordinator.HostByUID(validateToken, room, authToken, uid)
      ensures emitted == old(emitted) + if authorized then [] else [Notice(NotAuthorized, socketID, None)]
    {
      if Coordinator.HostByUID(validateToken, room, authToken, uid) {
        authorized := true;
      } else {
        EmitUserEvent(NotAuthorized, socketID, None);
        authorized := false;
      }
    }

    /** A new socket is registered with no room. */
    method OnConnection(socketID: SocketID)
      requires Valid()
      modifies this`activeSocketsByID
      ensures Valid()
      ensures Snapshot() == Coordinator.OnConnection(old(Snapshot()), socketID)
    {
      activeSocketsByID := activeSocketsByID[socketID := Coordinator.SocketRecord(None)];
    }

    /** A socket went away: leave its registered room, then forget the socket. */
    method OnDisconnect(socketID: SocketID)
      requires Valid()
      modifies this`activeSocketsByID, this`roomCalls
      ensures Valid()
      ensures Snapshot() == Coordinator.OnDisconnect(old(Snapshot()), socketID)
    {
      if socketID !in activeSocketsByID {
        // Reading `connectedTo` of undefined throws; the catch swallows it.
        return;
      }
      var connectedRoomID := activeSocketsByID[socketID].connectedTo;
      if Truthy(connectedRoomID) && connectedRoomID.value in activeRoomsByID {
        CallRoom(DisconnectUserFromRoom(connectedRoomID.value, socketID));
      }
      activeSocketsByID := activeSocketsByID - {socketID};
    }

    /** Register a new room under `roomID`, hosted by `hostUID`. */
    method CreateRoom(roomID: RoomID, roomConfig: string, hostUID: UID)
      requires Valid()
      requires hostUID != "" && exists t :: validateToken(t, hostUID)
      modifies this`activeRoomsByID
      ensures Valid()
      ensures activeRoomsByID == old(activeRoomsByID)[roomID := Room(roomID, roomConfig, hostUID)]
    {
      activeRoomsByID := activeRoomsByID[roomID := Room(roomID, roomConfig, hostUID)];
    }

    /** Disconnect every user of `room`, then delete its key. */
    method CloseRoom(room: Room)
      requires Valid()
      modifies this`activeRoomsByID, this`roomCalls
      ensures Valid()
      ensures roomCalls == old(roomCalls) + [DisconnectAllUsers(room.roomID)]
      ensures activeRoomsByID == old(activeRoomsByID) - {room.roomID}
    {
      CallRoom(DisconnectAllUsers(room.roomID));
      activeRoomsByID := activeRoomsByID - {room.roomID};
    }

    /** `join_room`. */
    method ClientJoinRoomEvent(eventInfo: EventInfo, socketID: SocketID)
      requires Valid()
      modifies this
      ensures Valid()
      ensures Snapshot() == Coordinator.ClientJoinRoom(old(Snapshot()), eventInfo, socketID)
    {
      if !Truthy(eventInfo.roomID) || !Truthy(eventInfo.nickname) || !Truthy(eventInfo.uid) {
        return;
      }
      var roomID := eventInfo.roomID.value;
      if roomID !in activeRoomsByID {
        EmitUserEvent(RoomInactive, socketID, None);
      } else {
        var user := User(eventInfo.nickname.value, socketID, eventInfo.uid.value);
        CallRoom(JoinUserToRoom(roomID, user));
        // Without a socket record the assignment throws after the join; the catch swallows it.
        if socketID in activeSocketsByID {
          activeSocketsByID := activeSocketsByID[socketID := activeSocketsByID[socketID].(connectedTo := Some(roomID))];
        }
      }
    }

    /** `create_room`. */
    method ClientStartRoomEvent(eventInfo: EventInfo, socketID: SocketID)
      requires Valid()
      modifies this
      ensures Valid()
      ensures Snapshot() == Coordinator.ClientStartRoom(validateToken, old(Snapshot()), eventInfo, socketID)
    {
      if !Truthy(eventInfo.roomID) || !Truthy(eventInfo.roomConfig) || !Truthy(eventInfo.uid)
         || !Truthy(eventInfo.authToken) {
        return;
      }
      var authorized := CheckIfUserAuthorized(eventInfo.uid.value, eventInfo.authToken.value, socketID, CreateDenied);
      if !authorized {
        return;
      }
      if eventInfo.roomID.value in activeRoomsByID {
        EmitUserEvent(RoomAlreadyCreated, socketID, None);
      } else {
        CreateRoom(eventInfo.roomID.value, eventInfo.roomConfig.value, eventInfo.uid.value);
        EmitUserEvent(CreateSuccess, socketID, None);
      }
    }

    /** `close_room`. */
    method ClientCloseRoomEvent(eventInfo: EventInfo, socketID: SocketID)
      requires Valid()
      modifies this
      ensures Valid()
      ensures Snapshot() == Coordinator.ClientCloseRoom(validateToken, old(Snapshot()), eventInfo, socketID)
    {
      if !Truthy(eventInfo.roomID) || !Truthy(eventInfo.uid) || !Truthy(eventInfo.authToken) {
        return;
      }
      if eventInfo.roomID.value !in activeRoomsByID {
        EmitUserEvent(HostRoomClosedFailure, socketID, None);
        return;
      }
      var room := activeRoomsByID[eventInfo.roomID.value];
      var authorized := CheckIfUserAuthorizedForRoomGivenUID(room, eventInfo.authToken.value, eventInfo.uid.value,
                                                             socketID, CloseDenied);
      if !authorized {
        return;
      }
      CloseRoom(room);
      EmitUserEvent(HostRoomClosedSuccess, socketID, None);
    }

    /** `kick_user`; `socketUID` is what the room resolves this socket to. */
    method ClientKickUserEvent(eventInfo: EventInfo, socketID: SocketID, socketUID: Field)
      requires Valid()
      modifies this
      ensures Valid()
      ensures Snapshot() == Coordinator.ClientKickUser(validateToken, old(Snapshot()), eventInfo, socketID, socketUID)
    {
      if !Truthy(eventInfo.roomID) || !Truthy(eventInfo.user) || !Truthy(eventInfo.authToken) {
        return;
      }
      if eventInfo.roomID.value !in activeRoomsByID {
        return;
      }
      var room := activeRoomsByID[eventInfo.roomID.value];
      var authorized := CheckIfUserAuthorizedForRoom(room, eventInfo.authToken.value, socketID, socketUID, KickDenied);
      if !authorized {
        return;
      }
      CallRoom(KickUser(eventInfo.roomID.value, eventInfo.user.value));
    }

    /** `user_vote`. */
    method ClientVoteEvent(eventInfo: EventInfo, socketID: SocketID)
      requires Valid()
      modifies this
      ensures Valid()
      ensures Snapshot() == Coordinator.ClientVote(old(Snapshot()), eventInfo, socketID)
    {
      if !Truthy(eventInfo.roomID) || eventInfo.cardIndex == Null {
        return;
      }
      if eventInfo.roomID.value in activeRoomsByID {
        CallRoom(UserVote(eventInfo.roomID.value, eventInfo.cardIndex, socketID));
      }
    }

    /** `user_cancel_vote`. */
    method ClientCancelVoteEvent(eventInfo: EventInfo, socketID: SocketID)
      requires Valid()
      modifies this
      ensures Valid()
      ensures Snapshot() == Coordinator.ClientCancelVote(old(Snapshot()), eventInfo, socketID)
    {
      if !Truthy(eventInfo.roomID) {
        return;
      }
      if eventInfo.roomID.value in activeRoomsByID {
        CallRoom(UserCancelVote(eventInfo.roomID.value, socketID));
      }
    }

    /** `start_new_round`; `socketUID` is what the room resolves this socket to. */
    method ClientStartNewRoundEvent(eventInfo: EventInfo, socketID: SocketID, socketUID: Field)
      requires Valid()
      modifies this
      ensures Valid()
      ensures Snapshot() == Coordinator.ClientStartNewRound(validateToken, old(Snapshot()), eventInfo, socketID, socketUID)
    {
      if !Truthy(eventInfo.roomID) || !Truthy(eventInfo.authToken) {
        return;
      }
      if eventInfo.roomID.value !in activeRoomsByID {
        return;
      }
      var room := activeRoomsByID[eventInfo.roomID.value];
      var authorized := CheckIfUserAuthorizedForRoom(room, eventInfo.authToken.value, socketID, socketUID, NewRoundDenied);
      if !authorized {
        return;
      }
      CallRoom(StartNewRound(eventInfo.roomID.value));
    }

    /** `force_end_bidding`; `socketUID` is what the room resolves this socket to. */
    method ClientForceEndBidding(eventInfo: EventInfo, socketID: SocketID, socketUID: Field)
      requires Valid()
      modifies this
      ensures Valid()
      ensures Snapshot() == Coordinator.ClientForceEndBidding(validateToken, old(Snapshot()), eventInfo, socketID, socketUID)
    {
      if !Truthy(eventInfo.roomID) || !Truthy(eventInfo.authToken) {
        return;
      }
      if eventInfo.roomID.value !in activeRoomsByID {
        return;
      }
      var room := activeRoomsByID[eventInfo.roomID.value];
      var authorized := CheckIfUserAuthorizedForRoom(room, eventInfo.authToken.value, socketID, socketUID, EndBiddingDenied);
      if !authorized {
        return;
      }
      CallRoom(ForceEndBidding(eventInfo.roomID.value));
    }
  }
}
