# Buzzer rooms in Dafny

This project models the server side of the buzzer application: the rooms
where people gather, one of them hosts, anyone may buzz in, and the host
frees the buzzer. Each step runs atomically, one after another.

- `Rooms.RoomState` (src/rooms.rs) is a class with the fields the Rust struct
  mutates in place:
  - `members`, a map from name to `UserData`;
  - `host`, the host's name;
  - `buzzed`, the optional name holding the buzzer;
  - `events`, an append-only log that stands in for the room's broadcast channel.

  `JoinMember`, `LeaveMember`, `SetHost` and `SetBuzzed` change these fields.
  `State` builds the snapshot that is published. The getters are functions.
  `Valid()` is the room invariant:
  - each member is stored under its own name;
  - a non-empty room's host is one of its members;
  - an empty room's host is `""`.
- `Rooms.Fields`, `Rooms.Joined` and `Rooms.LeaveStep` describe the same
  transitions on values. Leaving hands the host role to *some* remaining
  member. The source takes the first entry in hash-map order, so the model
  does not fix which one.
- `Routes` (src/server/routes.rs) holds the following:
  - `Login`, which checks the login input;
  - `Dispatch` and `HandleClientMessage`, which apply the rules for Buzz, FreeBuzzer and Leave;
  - `WebsocketHandler`, `ReceiveLoop` and `ReceiveFrame`, which run one websocket session, with the client's frames given as a sequence. `OnFrame` and `Serve` state the same on values;
  - `Registry`, the `RoomDb` map from room id to room (src/server/mod.rs:18). `GetOrCreate` is `entry(id).or_default()`. `Connect` gets or creates the room and runs the session in it. `Disconnect` always leaves, then removes the id when the room is empty. `WebsocketUpgrade` is `Connect` followed by `Disconnect`. The pieces are separate methods, so sessions that overlap at the registry can be written as interleaved calls.
- `RoomProperties` proves properties of whole runs: any sequence of joins, leaves and client messages.

Behaviour of the code worth noting:
- A text frame that does not decode as a client message ends the session
  (`serde_json::from_str(..).ok()?`). It is not dropped.
- `leave_member` of a name that is not in the room still publishes a snapshot.
- A FreeBuzzer from the host publishes `Buzzed(None)` even when nobody had
  buzzed.
- After the session, `websocket_upgrade` calls `leave_member` even when the
  join was refused. A second session under a name already in the room
  therefore removes the first session's member (see
  `Routes.Registry.WebsocketUpgrade`).
- Sessions on the same id can overlap. Suppose one session has created a
  room but has not yet joined it when a second session runs in full on that
  room. The second session's leave empties the room, so the id is removed.
  The first session then joins a room that is no longer registered, and
  later sessions on the id get a different room
  (`RoomProperties.OrphanedMember`).
- A member who leaves while holding the buzzer stays in `buzzed` as a
  dangling name (see `RoomProperties.BuzzerHeldUntilHostFrees`).
- "Empty room exactly when the host is empty" holds only if no member is
  named `""`. The room code accepts any name, and login refuses the empty
  one (`RoomProperties.EmptyIffNoHost`).

## Model

| member | source | states |
|---|---|---|
| `Rooms.RoomState.constructor` | src/rooms.rs:39-48 | A new room has no members, host `""`, no buzzer and an empty event log, and it satisfies the room invariant |
| `Rooms.RoomState.Subscribe` | src/rooms.rs:52-56 | A new subscriber receives exactly the events published from the current end of the log onwards |
| `Rooms.RoomState.NumMembers` | src/rooms.rs:64-68 | The number of members in the room |
| `Rooms.RoomState.IsEmpty` | src/rooms.rs:70-74 | True exactly when there are no members; in a valid room, an empty room has host `""` |
| `Rooms.RoomState.Host` | src/rooms.rs:76-80 | The current host; in a valid non-empty room, the host is a member |
| `Rooms.RoomState.SetHost` | src/rooms.rs:82-87 | Overwrites the host with the given name and touches nothing else |
| `Rooms.RoomState.Buzzed` | src/rooms.rs:89-93 | The name currently holding the buzzer, if any |
| `Rooms.RoomState.SetBuzzed` | src/rooms.rs:95-102 | Sets the buzzer to the given value, publishes exactly one `Buzzed` event with that value, leaves members and host alone, and always returns `Some` |
| `Rooms.RoomState.State` | src/rooms.rs:104-111 | The snapshot lists every member name exactly once, in some order, and copies the host and the buzzer |
| `Rooms.RoomState.JoinMember` | src/rooms.rs:113-132 | A taken name returns `None` and changes neither members, host, buzzer nor the log. Otherwise it inserts exactly that user. The joiner becomes host iff the room was empty. It returns `Some(old count + 1)`, publishes exactly one snapshot of the new state, and keeps the room invariant |
| `Rooms.Joined` | src/rooms.rs:116-131 | The join transition on values keeps the room invariant |
| `Rooms.RoomState.LeaveMember` | src/rooms.rs:134-154 | It removes exactly that name and returns `Some(new count)`, or `None` if the name was absent. The buzzer is never touched. If the host left, the new host is some remaining member, or `""` when none remain; otherwise the host is unchanged. It publishes one snapshot even for an absent name, and keeps the room invariant |
| `Rooms.FromLogin` | src/rooms.rs:19-23 | The user data carries the login's user name |
| `Routes.Login` | src/server/routes.rs:26-41 | An empty user name is refused with `InvalidInput("Invalid user data!")`, and only it is refused by validation; otherwise the user data for the token carries that name |
| `Routes.HandleClientMessage` | src/server/routes.rs:100-123 | Members and host never change. Buzz sets the buzzer to the caller and publishes it only when nobody holds it; otherwise it changes and publishes nothing. FreeBuzzer from the host clears the buzzer and publishes `Buzzed(None)`; from anyone else it does nothing. Leave changes nothing. The reply is `None` exactly for Leave |
| `Routes.ServeKeepsMembersAndHost` | src/server/routes.rs:76-97 | However many frames the session handles, and whatever it published before, the members and the host stay as they were |
| `Routes.WebsocketHandler` | src/server/routes.rs:66-75 | A taken name ends the session at once. Nothing is sent, there is no subscription, and the room is unchanged. Otherwise the join's snapshot is published. If sending the first snapshot fails, the session ends without subscribing. Else the client gets one snapshot of the joined room, subscribes right after the join's event, and its frames then act on the room as the receive loop prescribes |
| `Routes.ReceiveFrame` | src/server/routes.rs:84-93 | One received frame acts on the room as `OnFrame` says. A close frame or receive error stops the session. So does a text frame that is not a client message. A client message is handled as `HandleClientMessage` states, and a Leave stops the session. Any other frame is skipped |
| `Routes.ReceiveLoop` | src/server/routes.rs:76-97 | Frames are handled in order until one stops the session or the stream ends. The final room, the events published and the reason for ending are those of `Serve` |
| `Routes.SessionThenLeave` | src/server/routes.rs:55-59 | A session followed by the unconditional leave ends with the caller's name gone. A refused duplicate evicts the member already there under that name, keeps the buzzer and publishes one snapshot. An accepted session keeps the members. It also keeps the host of a room that was not empty. The session's reason for ending and its final buzzer are those of `Serve`. The log gains exactly the join's snapshot, the session's events and the leave's snapshot, in that order |
| `Routes.Registry.constructor` | src/server/mod.rs:18-22 | The registry starts empty and satisfies its invariant |
| `Routes.Registry.GetOrCreate` | src/server/routes.rs:52 | The room under the id is reused if present. Otherwise a fresh empty room with an empty log is inserted under that id. No other entry changes, and the registry keeps its invariant |
| `Routes.Registry.Connect` | src/server/routes.rs:52-56 | The id now maps to the room the session used, which is the existing room or a fresh empty one. No other entry changes. That room went through the handler's session as `WebsocketHandler` states it |
| `Routes.Registry.Disconnect` | src/server/routes.rs:59-62 | The room loses the caller as `LeaveMember` states and publishes one snapshot. The id is removed exactly when that room is now empty, whatever room the id then maps to. Otherwise the registry is unchanged |
| `Routes.Registry.WebsocketUpgrade` | src/server/routes.rs:43-64 | After the session, no other registry entry has changed. The room used is the one registered under the id, or a fresh one. The id stays registered, with that room, exactly when the room still has members after the leave; a room made for this session alone is always reclaimed. The room ends as the session then the leave leave it (`SessionThenLeave`). The registry keeps its invariant: every entry is a valid room, and no room is under two ids |
| `RoomProperties.OrphanedMember` | src/server/routes.rs:52-62 | Two sessions interleave on a new id: one creates the room, then the other runs in full and its leave drops the id. The first then joins a room that is no longer registered, and the next lookup of the id yields a different, empty room |
| `RoomProperties.LeavePreservesInv` | src/rooms.rs:137-154 | Any leave, by host or not, keeps the room invariant |
| `RoomProperties.DispatchKeepsMembersAndHost` | src/server/routes.rs:101-123 | Handling a client message never changes the members or the host, so it keeps the room invariant |
| `RoomProperties.StepPreservesInv` | src/rooms.rs:116-154 | Any single join, leave or client message keeps the room invariant |
| `RoomProperties.ExecutionPreservesInv` | src/rooms.rs:116-154 | In every run from a valid room, such as a fresh one, every state reached keeps the invariant |
| `RoomProperties.EmptyIffNoHost` | src/rooms.rs:122-124 | When no member is named `""`, a valid room is empty exactly when its host is `""` |
| `RoomProperties.HostStaysUntilItLeaves` | src/rooms.rs:116-154 | In any run without a leave by the host, the host stays the same and stays a member |
| `RoomProperties.BuzzerHeldUntilHostFrees` | src/server/routes.rs:106-117 | Once a name holds the buzzer, it keeps it through any joins, leaves (its own included) and buzzes, until the host of the moment frees it |
| `RoomProperties.DistinctJoinsCount` | src/rooms.rs:116-132 | Joining users with distinct new names adds one member each. The first joiner of an empty room becomes host; otherwise the host is unchanged |
| `RoomProperties.ServeStopsAtLeave` | src/server/routes.rs:84-89 | When the frames before the first Leave are skipped frames, Buzzes or FreeBuzzers, the session ends at that Leave with the members unchanged |
| `RoomProperties.ScenarioHostHandOff` | src/rooms.rs:116-154 | A joins an empty room and hosts, then B joins. When A leaves, B is host of one member. When B leaves, the room is empty with host `""` |
| `RoomProperties.ScenarioBuzz` | src/server/routes.rs:101-123 | A, the host, buzzes and holds the buzzer. B's buzz and B's free do nothing and publish nothing. A's free clears the buzzer |

## Left out

- JSON Web Token issuance and checking (src/server/auth.rs) belongs to a foreign library, and so does the `ServerError::Jwt` path of `login`. Identity is a given `UserData`, and `Routes.Login` returns the user data a token would carry, not a token.
- The broadcast channel's capacity of 5, dropped sends and lagging receivers are not modelled. The channel is an unbounded append-only log. A subscription is the index in that log from which the subscriber receives.
- Routes.WebsocketHandler: the event-forwarding arm of the `tokio::select!` loop (src/server/routes.rs:79-82) is not modelled. That arm sends published events to the client and ends the session when the receiver lags or a send fails. Only the client-frame arm is modelled.
- Concurrency is not modelled. Each room operation runs as one atomic step. The gaps between separate lock acquisitions, such as the `buzzed()` check before `set_buzzed`, the `state()` read after `drop(members)`, and `is_empty` before `remove`, are not modelled.
- Serialisation with `serde_json` is not modelled. A received text frame is given already decoded, or as undecodable. Failures to encode the first snapshot count as a failed send.
- Routes.Registry.WebsocketUpgrade: it runs `Connect` and `Disconnect` back to back. A session that overlaps others is written as separate calls to `GetOrCreate`, `WebsocketHandler` or `HandleClientMessage`, and `Disconnect`.
- Rooms.RoomState.State: the order of member names in a snapshot is hash-map order, so the model states only that each member appears exactly once. The same holds for the new host chosen by `LeaveMember`.
- `RoomState::members()` (src/rooms.rs:58-62) returns a copy of the map. In the model it is the field `members` itself.
- `set_host` returns `&Self` for chaining. The model's `SetHost` returns nothing.
- `tracing` calls, HTTP routing, static files, settings, the process entry points and the browser frontend are outside the room logic.
