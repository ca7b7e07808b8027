/**
 * The server's handlers (src/server/routes.rs) and its room registry, the
 * `RoomDb` of src/server/mod.rs.
 *
 * A websocket session is run one step at a time: the frames the client sends
 * are given as a sequence, and other sessions do not interleave with it.
 */
module Routes {
  import opened Wrappers
  import opened ApiTypes
  import opened Rooms
  import Websocket

  /** The handlers' errors. `Jwt` comes from the token encoder, which is not
      part of this model. */
  datatype ServerError = Jwt | InvalidInput(message: string)

  /** `login`: an invalid login is refused before any token is made;
      otherwise the user data that the token's claims carry. */
  function Login(info: LoginInfo): (r: Result<UserData, ServerError>)
    ensures r.Failure? <==> info.username == ""
    ensures r.Failure? ==> r.error == InvalidInput("Invalid user data!")
    ensures r.Success? ==> r.value.name == info.username
  {
    if !info.IsValid() then Failure(InvalidInput("Invalid user data!"))
    else Success(FromLogin(info))
  }

  /** What handling one client message does: the new fields, the events
      published, and the reply (`None` ends the session). */
  datatype Outcome = Outcome(room: Fields, emitted: seq<Websocket.ServerMessage>, reply: Option<()>)

  /** `handle_client_message` on the fields of the room, for the caller `name`. */
  function Dispatch(r: Fields, name: string, msg: Websocket.ClientMessage): Outcome {
    var isHost := r.host == name;
    match msg
    case Buzz =>
      if r.buzzed.None? then Outcome(r.(buzzed := Some(name)), [Websocket.Buzzed(Some(name))], Some(()))
      else Outcome(r, [], Some(()))
    case FreeBuzzer =>
      if isHost then Outcome(r.(buzzed := None), [Websocket.Buzzed(None)], Some(()))
      else Outcome(r, [], Some(()))
    case Leave =>
      Outcome(r, [], None)
  }

  /** Buzz claims the buzzer only when it is free; FreeBuzzer clears it only
      for the host; Leave touches nothing and ends the session. */
  method HandleClientMessage(room: RoomState, user: UserData, msg: Websocket.ClientMessage) returns (reply: Option<()>)
    modifies room`buzzed, room`events
    ensures var o := Dispatch(old(room.View()), user.name, msg);
      room.View() == o.room && room.events == old(room.events) + o.emitted && reply == o.reply
    ensures room.members == old(room.members) && room.host == old(room.host)
    ensures reply == None <==> msg.Leave?
    ensures msg.Buzz? && old(room.buzzed).None? ==>
      room.buzzed == Some(user.name) && room.events == old(room.events) + [Websocket.Buzzed(Some(user.name))]
    ensures msg.Buzz? && old(room.buzzed).Some? ==>
      room.buzzed == old(room.buzzed) && room.events == old(room.events)
    ensures msg.FreeBuzzer? && old(room.host) == user.name ==>
      room.buzzed == None && room.events == old(room.events) + [Websocket.Buzzed(None)]
    ensures msg.FreeBuzzer? && old(room.host) != user.name ==>
      room.buzzed == old(room.buzzed) && room.events == old(room.events)
    ensures msg.Leave? ==> room.buzzed == old(room.buzzed) && room.events == old(room.events)
  {
    var isHost := room.Host() == user.name;
    match msg {
      case Buzz =>
        if room.Buzzed().None? {
          var _ := room.SetBuzzed(Some(user.name));
        }
      case FreeBuzzer =>
        if isHost {
          var _ := room.SetBuzzed(None);
        }
      case Leave =>
        return None;
    }
    reply := Some(());
  }

  /** One frame received from the client: a text frame (decoded, or `None`
      if it is not a client message), a close frame, a receive error, or any
      other frame. */
  datatype Frame = Text(decoded: Option<Websocket.ClientMessage>) | Close | RecvError | Other

  /** Why a session ended. In the source every path returns `None`. */
  datatype SessionEnd =
    | Rejected           // the name was already in the room
    | SnapshotNotSent    // the first snapshot could not be sent
    | LeftByClient       // a Leave message
    | Undecodable        // a text frame that is not a client message
    | Closed             // a close frame or a receive error
    | Disconnected       // the client's stream ended

  /** The effect of the receive loop on the room. */
  datatype Served = Served(room: Fields, emitted: seq<Websocket.ServerMessage>, end: SessionEnd)

  /** The effect of one received frame: the room after it, the events it
      published, and the reason to stop, if it ends the session. */
  datatype FrameEffect = FrameEffect(room: Fields, emitted: seq<Websocket.ServerMessage>, stop: Option<SessionEnd>)

  /** One frame for the caller `name`: a close frame or receive error ends
      the session, an undecodable text frame ends it too, a client message is
      dispatched (a Leave ends the session), and any other frame is skipped. */
  function OnFrame(r: Fields, name: string, f: Frame): FrameEffect {
    match f
    case Close => FrameEffect(r, [], Some(Closed))
    case RecvError => FrameEffect(r, [], Some(Closed))
    case Other => FrameEffect(r, [], None)
    case Text(decoded) =>
      if decoded.None? then FrameEffect(r, [], Some(Undecodable))
      else
        var o := Dispatch(r, name, decoded.value);
        FrameEffect(o.room, o.emitted, if o.reply.None? then Some(LeftByClient) else None)
  }

  /** The receive loop of `websocket_handler` on the fields, for the caller
      `name`, once `done` has been published: frames are handled in order
      until one stops the session or the stream ends. */
  function ServeAfter(r: Fields, name: string, frames: seq<Frame>, done: seq<Websocket.ServerMessage>): Served
    decreases |frames|
  {
    if frames == [] then Served(r, done, Disconnected)
    else
      var e := OnFrame(r, name, frames[0]);
      if e.stop.Some? then Served(e.room, done + e.emitted, e.stop.value)
      else ServeAfter(e.room, name, frames[1..], done + e.emitted)
  }

  /** The whole receive loop from room `r`. */
  function Serve(r: Fields, name: string, frames: seq<Frame>): Served {
    ServeAfter(r, name, frames, [])
  }

  /** The receive loop never changes who is in the room or who hosts it. */
  lemma {:induction false} ServeKeepsMembersAndHost(r: Fields, name: string, frames: seq<Frame>, done: seq<Websocket.ServerMessage>)
    ensures ServeAfter(r, name, frames, done).room.members == r.members
    ensures ServeAfter(r, name, frames, done).room.host == r.host
    decreases |frames|
  {
    if frames != [] {
      var e := OnFrame(r, name, frames[0]);
      assert e.room.members == r.members && e.room.host == r.host;
      if e.stop.None? {
        ServeKeepsMembersAndHost(e.room, name, frames[1..], done + e.emitted);
      }
    }
  }

  /** `websocket_handler`: join (or give up at once if the name is taken), send
      the first snapshot, subscribe, then handle the client's frames. Returns
      why the session ended, the messages sent directly to the client, and
      the index in the event log from which its subscription receives. */
  method WebsocketHandler(room: RoomState, user: UserData, inbound: seq<Frame>, sendOk: bool)
    returns (end: SessionEnd, sent: seq<Websocket.ServerMessage>, subscribedFrom: Option<nat>)
    requires room.Valid()
    modifies room
    ensures room.Valid()
    ensures user.name in old(room.members) ==>
      && end == Rejected && sent == [] && subscribedFrom == None
      && room.View() == old(room.View()) && room.events == old(room.events)
    ensures user.name !in old(room.members) ==>
      var joined := Joined(old(room.View()), user);
      var k := |old(room.events)| + 1;
      && k <= |room.events|
      && AppendedState(old(room.events), room.events[..k], joined)
      && (!sendOk ==>
            end == SnapshotNotSent && sent == [] && subscribedFrom == None
            && room.View() == joined && |room.events| == k)
      && (sendOk ==>
            var s := Serve(joined, user.name, inbound);
            && |sent| == 1 && sent[0].State? && IsStateOf(sent[0].state, joined)
            && subscribedFrom == Some(k)
            && end == s.end && room.View() == s.room && room.events[k..] == s.emitted)
  {
    var count := room.JoinMember(user);
    if count.None? {
      return Rejected, [], None;
    }
    var snapshot := room.State();
    if !sendOk {
      return SnapshotNotSent, [], None;
    }
    sent := [Websocket.State(snapshot)];
    var from := room.Subscribe();
    subscribedFrom := Some(from);
    end := ReceiveLoop(room, user, inbound);
  }

  /** One arm of the loop of `websocket_handler`: handle one frame received
      from the client, and say whether the session ends there. */
  method ReceiveFrame(room: RoomState, user: UserData, f: Frame) returns (stop: Option<SessionEnd>)
    modifies room`buzzed, room`events
    ensures var e := OnFrame(old(room.View()), user.name, f);
      stop == e.stop && room.View() == e.room && room.events == old(room.events) + e.emitted
  {
    match f {
      case Close =>
        stop := Some(Closed);
      case RecvError =>
        stop := Some(Closed);
      case Other =>
        stop := None;
      case Text(decoded) =>
        if decoded.None? {
          return Some(Undecodable);
        }
        var reply := HandleClientMessage(room, user, decoded.value);
        stop := if reply.None? then Some(LeftByClient) else None;
    }
  }

  /** The loop of `websocket_handler` that handles the client's frames: it
      stops at a Leave, an undecodable text frame, a close frame or receive
      error, or the end of the stream, and skips any other frame. */
  method ReceiveLoop(room: RoomState, user: UserData, inbound: seq<Frame>) returns (end: SessionEnd)
    requires room.Valid()
    modifies room`buzzed, room`events
    ensures room.Valid()
    ensures var s := Serve(old(room.View()), user.name, inbound);
      end == s.end && room.View() == s.room && room.events == old(room.events) + s.emitted
  {
    ghost var total := Serve(room.View(), user.name, inbound);
    ghost var emitted: seq<Websocket.ServerMessage> := [];
    var rest := inbound;
    while rest != []
      invariant room.members == old(room.members) && room.host == old(room.host)
      invariant room.events == old(room.events) + emitted
      invariant total == ServeAfter(room.View(), user.name, rest, emitted)
      decreases |rest|
    {
      ghost var e := OnFrame(room.View(), user.name, rest[0]);
      var stop := ReceiveFrame(room, user, rest[0]);
      assert old(room.events) + emitted + e.emitted == old(room.events) + (emitted + e.emitted);
      emitted := emitted + e.emitted;
      if stop.Some? {
        return stop.value;
      }
      rest := rest[1..];
    }
    end := Disconnected;
  }

  /** The log of one accepted session: the join's snapshot of `joined`, the
      events the session published, then the leave's snapshot of `final`. */
  ghost predicate SessionLog(before: seq<Websocket.ServerMessage>, after: seq<Websocket.ServerMessage>,
                             joined: Fields, emitted: seq<Websocket.ServerMessage>, final: Fields)
  {
    && |after| == |before| + |emitted| + 2
    && AppendedState(before, after[..|before| + 1], joined)
    && after[|before| + 1..|after| - 1] == emitted
    && AppendedState(after[..|after| - 1], after, final)
  }

  /** What `WebsocketHandler` promises, as values: from `before` with log
      `log`, the session ends with `end`, the room `mid` and the log `midLog`. */
  ghost predicate Handled(before: Fields, log: seq<Websocket.ServerMessage>, user: UserData, inbound: seq<Frame>,
                          sendOk: bool, end: SessionEnd, mid: Fields, midLog: seq<Websocket.ServerMessage>)
  {
    if user.name in before.members then end == Rejected && mid == before && midLog == log
    else
      var joined := Joined(before, user);
      var s := if sendOk then Serve(joined, user.name, inbound) else Served(joined, [], SnapshotNotSent);
      && end == s.end && mid == s.room
      && |log| + 1 <= |midLog|
      && AppendedState(log, midLog[..|log| + 1], joined)
      && midLog[|log| + 1..] == s.emitted
  }

  /** A whole session followed by the leave, from `before` with log `log` to
      `final` with log `finalLog`: the caller's name is gone; a refused
      duplicate evicts the member already there; an accepted session keeps
      the members, and the host of a room that was not empty, ends the
      buzzer where the session left it, and publishes exactly the join's
      snapshot, the session's events and the leave's snapshot. */
  ghost predicate SessionOutcome(before: Fields, log: seq<Websocket.ServerMessage>, user: UserData, inbound: seq<Frame>,
                                 sendOk: bool, end: SessionEnd, final: Fields, finalLog: seq<Websocket.ServerMessage>)
  {
    && user.name !in final.members
    && (user.name in before.members ==>
          && end == Rejected
          && LeaveStep(before, user.name, final)
          && final.members == before.members - {user.name} && final.buzzed == before.buzzed
          && AppendedState(log, finalLog, final))
    && (user.name !in before.members ==>
          var joined := Joined(before, user);
          var s := if sendOk then Serve(joined, user.name, inbound) else Served(joined, [], SnapshotNotSent);
          && end == s.end
          && LeaveStep(s.room, user.name, final)
          && final.members == before.members && final.buzzed == s.room.buzzed
          && (before.members != map[] ==> final.host == before.host)
          && SessionLog(log, finalLog, joined, s.emitted, final))
  }

  /** The handler's outcome followed by a leave is the outcome of the session. */
  lemma SessionThenLeave(before: Fields, log: seq<Websocket.ServerMessage>, user: UserData, inbound: seq<Frame>,
                         sendOk: bool, end: SessionEnd, mid: Fields, midLog: seq<Websocket.ServerMessage>,
                         final: Fields, finalLog: seq<Websocket.ServerMessage>)
    requires Inv(before) && Handled(before, log, user, inbound, sendOk, end, mid, midLog)
    requires LeaveStep(mid, user.name, final) && AppendedState(midLog, finalLog, final)
    ensures SessionOutcome(before, log, user, inbound, sendOk, end, final, finalLog)
  {
    if user.name !in before.members {
      var joined := Joined(before, user);
      ServeKeepsMembersAndHost(joined, user.name, inbound, []);
      assert finalLog[..|midLog|] == midLog;
      assert finalLog[..|log| + 1] == midLog[..|log| + 1];
      assert finalLog[|log| + 1..|finalLog| - 1] == midLog[|log| + 1..];
    }
  }

  /** A room id (a 128-bit UUID). */
  datatype Uuid = Uuid(bits: bv128)

  /** The registry of rooms, `RoomDb`. */
  class Registry {
    var rooms: map<Uuid, RoomState>

    /** Every registered room is valid, and no room sits under two ids. A
        registered room may be empty: `or_default` inserts an empty room
        before its session joins it. */
    ghost predicate Valid()
      reads this, rooms.Values
    {
      && (forall id :: id in rooms ==> rooms[id].Valid())
      && (forall a, b :: a in rooms && b in rooms && a != b ==> rooms[a] != rooms[b])
    }

    constructor ()
      ensures rooms == map[]
      ensures Valid()
    {
      rooms := map[];
    }

    /** `entry(id).or_default()`: the room under `id`, created empty if absent. */
    method GetOrCreate(id: Uuid) returns (room: RoomState)
      requires Valid()
      modifies this
      ensures Valid() && room.Valid()
      ensures id in old(rooms) ==> room == old(rooms[id]) && rooms == old(rooms)
      ensures id !in old(rooms) ==> rooms == old(rooms)[id := room]
      ensures id !in old(rooms) ==> fresh(room) && room.View() == Empty && room.events == []
    {
      if id in rooms {
        room := rooms[id];
      } else {
        room := new RoomState();
        rooms := rooms[id := room];
      }
    }

    /** The end of `websocket_upgrade`: `room` (the one the session got for
        `id`) loses the caller, and `id` is dropped from the registry if that
        room is now empty, whatever room `id` then maps to. */
    method Disconnect(id: Uuid, room: RoomState, name: string)
      requires Valid() && room.Valid()
      modifies this, room
      ensures Valid() && room.Valid()
      ensures LeaveStep(old(room.View()), name, room.View())
      ensures AppendedState(old(room.events), room.events, room.View())
      ensures rooms == if room.members == map[] then old(rooms) - {id} else old(rooms)
    {
      var _ := room.LeaveMember(name);
      if room.IsEmpty() {
        rooms := rooms - {id};
      }
    }

    /** The start of `websocket_upgrade`: get or create the room under `id`
        and run the session in it. */
    method Connect(id: Uuid, user: UserData, inbound: seq<Frame>, sendOk: bool)
      returns (end: SessionEnd, room: RoomState)
      requires Valid()
      modifies this, if id in rooms then {rooms[id]} else {}
      ensures Valid() && room.Valid()
      ensures rooms == old(rooms)[id := room]
      ensures id in old(rooms) ==> room == old(rooms[id])
      ensures id !in old(rooms) ==> fresh(room)
      ensures Handled(if id in old(rooms) then old(rooms[id].View()) else Empty,
                      if id in old(rooms) then old(rooms[id].events) else [],
                      user, inbound, sendOk, end, room.View(), room.events)
    {
      room := GetOrCreate(id);
      assert rooms == old(rooms)[id := room];
      var sent, from;
      end, sent, from := WebsocketHandler(room, user, inbound, sendOk);
    }

    /** `websocket_upgrade`: get or create the room, run the session, leave
        the room whether or not the join succeeded, and drop the room from
        the registry if it is now empty. `room` names the room the session
        used. */
    method WebsocketUpgrade(id: Uuid, user: UserData, inbound: seq<Frame>, sendOk: bool)
      returns (end: SessionEnd, ghost room: RoomState)
      requires Valid()
      modifies this, if id in rooms then {rooms[id]} else {}
      ensures Valid() && room.Valid()
      ensures id in old(rooms) ==> room == old(rooms[id])
      ensures id !in old(rooms) ==> fresh(room)
      ensures forall i :: i != id ==> (i in rooms <==> i in old(rooms)) && (i in rooms ==> rooms[i] == old(rooms[i]))
      ensures (id in rooms <==> room.members != map[]) && (id in rooms ==> rooms[id] == room)
      ensures SessionOutcome(if id in old(rooms) then old(rooms[id].View()) else Empty,
                             if id in old(rooms) then old(rooms[id].events) else [],
                             user, inbound, sendOk, end, room.View(), room.events)
    {
      var r;
      end, r := Connect(id, user, inbound, sendOk);
      room := r;
      ghost var mid := r.View();
      ghost var midLog := r.events;
      ghost var connected := rooms;
      Disconnect(id, r, user.name);
      assert rooms == if r.members == map[] then connected - {id} else connected;
      forall i | i != id
        ensures (i in rooms <==> i in old(rooms)) && (i in rooms ==> rooms[i] == old(rooms[i]))
      {
        assert i in rooms <==> i in connected;
      }
      SessionThenLeave(if id in old(rooms) then old(rooms[id].View()) else Empty,
                       if id in old(rooms) then old(rooms[id].events) else [],
                       user, inbound, sendOk, end, mid, midLog, r.View(), r.events);
    }
  }
}
