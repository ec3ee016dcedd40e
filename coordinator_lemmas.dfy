/**
 * Properties of whole sequences of socket events, proved by induction on
 * the sequence from the per-event contracts of `Coordinator.Step`.
 */
module CoordinatorLemmas {
  import opened Wrappers
  import opened Payloads
  import opened Rooms
  import opened Coordinator

  /**
   * In a state whose rooms are stored under their own ids (as every `Valid`
   * state's are), a registered room keeps its exact value (and so its host)
   * until its host closes it: no other event removes or overwrites it, including a
   * refused `close_room` for it and a `close_room` for another room.
   */
  lemma {:induction false} RoomUnchangedUntilClosed(auth: Validator, s: State, events: seq<ClientEvent>, k: RoomID)
    requires KeysMatch(s) && k in s.rooms
    requires forall i :: 0 <= i < |events| ==> !ClosesRoomAsHost(auth, events[i], k, s.rooms[k])
    ensures k in Run(auth, s, events).rooms && Run(auth, s, events).rooms[k] == s.rooms[k]
    decreases |events|
  {
    if events != [] {
      var next := Step(auth, s, events[0]);
      assert !ClosesRoomAsHost(auth, events[0], k, s.rooms[k]);
      RoomUnchangedUntilClosed(auth, next, events[1..], k);
    }
  }

  /** Only `create_room` events add keys to the room registry. */
  lemma {:induction false} NoRoomWithoutCreate(auth: Validator, s: State, events: seq<ClientEvent>)
    requires forall i :: 0 <= i < |events| ==> !events[i].CreateRoom?
    ensures Run(auth, s, events).rooms.Keys <= s.rooms.Keys
    decreases |events|
  {
    if events != [] {
      NoRoomWithoutCreate(auth, Step(auth, s, events[0]), events[1..]);
    }
  }

  /** A socket with no record gets one only from a new connection with its id. */
  lemma {:induction false} NoRecordWithoutConnection(auth: Validator, s: State, events: seq<ClientEvent>, x: SocketID)
    requires x !in s.sockets
    requires forall i :: 0 <= i < |events| ==> events[i] != Connection(x)
    ensures x !in Run(auth, s, events).sockets
    decreases |events|
  {
    if events != [] {
      var next := Step(auth, s, events[0]);
      assert x !in next.sockets by {
        if events[0].Connection? {
          assert events[0].socketID != x;
        }
      }
      NoRecordWithoutConnection(auth, next, events[1..], x);
    }
  }

  /**
   * Disconnection cleans up: after a socket disconnects, it has no record
   * until it connects again, whatever else happens in between.
   */
  lemma DisconnectCleansUp(auth: Validator, s: State, x: SocketID, later: seq<ClientEvent>)
    requires forall i :: 0 <= i < |later| ==> later[i] != Connection(x)
    ensures x !in Run(auth, s, [Disconnect(x)] + later).sockets
  {
    var events := [Disconnect(x)] + later;
    assert events[0] == Disconnect(x) && events[1..] == later;
    NoRecordWithoutConnection(auth, Step(auth, s, Disconnect(x)), later, x);
  }

  /**
   * A socket that no room resolves to a uid can never act as a host: if no
   * host-by-connection event carries a truthy resolved uid, no `kickUser`,
   * `startNewRound` or `forceEndBidding` call is ever made, even for a
   * room whose host uid is empty.
   */
  lemma {:induction false} UnresolvedSocketsNeverActAsHost(auth: Validator, s: State, events: seq<ClientEvent>)
    requires forall i :: 0 <= i < |events| && events[i].ByConnection() ==> !Truthy(events[i].socketUID)
    ensures forall i :: |s.calls| <= i < |Run(auth, s, events).calls| ==> !Run(auth, s, events).calls[i].HostOnly()
    decreases |events|
  {
    if events != [] {
      var next := Step(auth, s, events[0]);
      UnresolvedSocketsNeverActAsHost(auth, next, events[1..]);
      assert Run(auth, s, events) == Run(auth, next, events[1..]);
      if |next.calls| > |s.calls| {
        assert !next.calls[|s.calls|].HostOnly();
      }
    }
  }
}
