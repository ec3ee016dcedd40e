/**
 * The part of a Room that the room service can see. The Room class itself
 * (membership, votes, phases) lives elsewhere and is kept abstract: the
 * service reads only `roomID` and `hostUID`, and every operation it delegates
 * to a Room is recorded as one `RoomCall` in a trace.
 */
module Rooms {
  import opened Payloads

  /** `new Room(io, roomID, roomConfig, hostUID)`; the host never changes. */
  datatype Room = Room(roomID: RoomID, roomConfig: string, hostUID: UID)

  /** The user object handed to `joinUserToRoom`. */
  datatype User = User(nickname: string, socketID: SocketID, uid: UID)

  /** One delegated call, tagged with the registry key of the room called. */
  datatype RoomCall =
    | JoinUserToRoom(roomID: RoomID, user: User)
    | KickUser(roomID: RoomID, target: string)
    | UserVote(roomID: RoomID, cardIndex: CardIndex, socketID: SocketID)
    | UserCancelVote(roomID: RoomID, socketID: SocketID)
    | StartNewRound(roomID: RoomID)
    | ForceEndBidding(roomID: RoomID)
    | DisconnectUserFromRoom(roomID: RoomID, socketID: SocketID)
    | DisconnectAllUsers(roomID: RoomID)
  {
    /** The calls only the host of the room may cause. */
    predicate HostOnly() {
      KickUser? || StartNewRound? || ForceEndBidding?
    }
  }
}
