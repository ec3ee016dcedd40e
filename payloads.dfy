/**
 * The shapes that cross the socket boundary of the room service: the inbound
 * event payload (`eventInfo`), JavaScript truthiness of its fields, and the
 * outbound notifications sent to one socket.
 */
module Payloads {
  import opened Wrappers

  type RoomID = string
  type SocketID = string
  type UID = string

  /**
   * A payload field. `None` is a missing field (`undefined`); a present
   * field is its text. Non-string values (the room configuration object,
   * the kicked user) are stood in for by an opaque string.
   */
  type Field = Option<string>

  /** JavaScript truthiness of a field: a missing field and `""` are falsy. */
  predicate Truthy(f: Field) {
    f.Some? && f.value != ""
  }

  /**
   * `cardIndex` is the one field checked with `=== null` rather than by
   * truthiness, so `Undefined` and `Index(0)` both pass the check.
   */
  datatype CardIndex = Undefined | Null | Index(n: int)

  /** The inbound payload; each handler reads only some of the fields. */
  datatype EventInfo = EventInfo(
    roomID: Field,
    nickname: Field,
    uid: Field,
    roomConfig: Field,
    authToken: Field,
    user: Field,
    cardIndex: CardIndex)

  /** Event names the service emits to a single socket. */
  datatype OutEvent =
    | NotAuthorized        // 'not_authorized'
    | RoomInactive         // 'room_inactive'
    | RoomAlreadyCreated   // 'room_already_created'
    | CreateSuccess        // 'create_success'
    | HostRoomClosedFailure  // 'host_room_closed_failure'
    | HostRoomClosedSuccess  // 'host_room_closed_success'

  /** The `{title, message}` object sent with a `not_authorized` event. */
  datatype ErrorInfo = ErrorInfo(title: string, message: string)

  /** One `emit` to one socket, with its optional payload. */
  datatype Notice = Notice(event: OutEvent, socketID: SocketID, info: Option<ErrorInfo>)

  const CreateDenied := ErrorInfo("Failed to Create Room",
    "We could not authorize your attempt to create a room.")
  const CloseDenied := ErrorInfo("Failed to Close Room",
    "We could not authorize your attempt to close this room.")
  const KickDenied := ErrorInfo("Failed to Kick User",
    "We could not authorize your attempt to kick that user.")
  const NewRoundDenied := ErrorInfo("Failed to Start New Round",
    "We could not authorize your attempt to start a new round.")
  const EndBiddingDenied := ErrorInfo("Failed to Force End Bidding",
    "We could not authorize your attempt to force the bidding round to end.")
}
