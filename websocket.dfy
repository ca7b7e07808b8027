/** The messages exchanged over a room's websocket (api-types/src/websocket.rs). */
module Websocket {
  import opened Wrappers

  /** A point-in-time view of a room as clients see it: member names, host, buzzer. */
  datatype RoomState = RoomState(members: seq<string>, host: string, buzzed: Option<string>)

  /** Server to client: a full room snapshot, or who holds the buzzer now. */
  datatype ServerMessage = State(state: RoomState) | Buzzed(who: Option<string>)

  /** Client to server; no payload beyond the kind. */
  datatype ClientMessage = Buzz | FreeBuzzer | Leave
}
