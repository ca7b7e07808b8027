/**
 * Properties of a room over whole runs: any interleaving of joins, leaves
 * and client messages, one atomic step at a time.
 */
module RoomProperties {
  import opened Wrappers
  import opened Rooms
  import opened Routes
  import Websocket

  /** One step that can happen to a room. */
  datatype Op =
    | JoinOp(user: UserData)
    | LeaveOp(name: string)
    | MessageOp(from: string, msg: Websocket.ClientMessage)

  ghost predicate Step(r: Fields, op: Op, r': Fields) {
    match op
    case JoinOp(u) => r' == Joined(r, u)
    case LeaveOp(n) => LeaveStep(r, n, r')
    case MessageOp(n, m) => r' == Dispatch(r, n, m).room
  }

  /** `rs` are the successive states of a room under the steps `ops`. */
  ghost predicate Execution(rs: seq<Fields>, ops: seq<Op>) {
    && |rs| == |ops| + 1
    && forall i :: 0 <= i < |ops| ==> Step(rs[i], ops[i], rs[i + 1])
  }

  /** Dropping the last step of a run leaves a run. */
  lemma ExecutionPrefix(rs: seq<Fields>, ops: seq<Op>)
    requires Execution(rs, ops) && ops != []
    ensures Execution(rs[..|ops|], ops[..|ops| - 1])
  {
  }

  /** Leaving keeps the room invariant, whoever leaves. */
  lemma LeavePreservesInv(r: Fields, name: string, r': Fields)
    requires Inv(r) && LeaveStep(r, name, r')
    ensures Inv(r')
  {
    if name in r.members && r.members[name].name != r.host {
      // the leaver is not the host, so the host stays and is still a member
      assert r.host != name && r.host in r'.members;
    }
  }

  /** Handling a client message never touches members or host. */
  lemma DispatchKeepsMembersAndHost(r: Fields, name: string, msg: Websocket.ClientMessage)
    ensures Dispatch(r, name, msg).room.members == r.members
    ensures Dispatch(r, name, msg).room.host == r.host
    ensures Inv(r) ==> Inv(Dispatch(r, name, msg).room)
  {
  }

  lemma StepPreservesInv(r: Fields, op: Op, r': Fields)
    requires Inv(r) && Step(r, op, r')
    ensures Inv(r')
  {
    match op
    case JoinOp(u) =>
    case LeaveOp(n) => LeavePreservesInv(r, n, r');
    case MessageOp(n, m) => DispatchKeepsMembersAndHost(r, n, m);
  }

  /** From a valid room (such as a fresh one), every state reached keeps the
      invariant: a non-empty room has a member as host, an empty room has "". */
  lemma {:induction false} ExecutionPreservesInv(rs: seq<Fields>, ops: seq<Op>)
    requires Execution(rs, ops) && Inv(rs[0])
    ensures forall i :: 0 <= i < |rs| ==> Inv(rs[i])
    decreases |ops|
  {
    if ops != [] {
      var n := |ops|;
      ExecutionPrefix(rs, ops);
      ExecutionPreservesInv(rs[..n], ops[..n - 1]);
      assert Inv(rs[..n][n - 1]);
      StepPreservesInv(rs[n - 1], ops[n - 1], rs[n]);
    }
  }

  /** With names that are never empty (login refuses an empty one), a room is
      empty exactly when its host is "". */
  lemma EmptyIffNoHost(r: Fields)
    requires Inv(r) && "" !in r.members
    ensures r.members == map[] <==> r.host == ""
  {
  }

  /** The host stays the host, and stays in the room, until it leaves. */
  lemma {:induction false} HostStaysUntilItLeaves(rs: seq<Fields>, ops: seq<Op>)
    requires Execution(rs, ops) && Inv(rs[0]) && rs[0].host in rs[0].members
    requires forall i :: 0 <= i < |ops| ==> ops[i] != LeaveOp(rs[0].host)
    ensures forall i :: 0 <= i < |rs| ==> rs[i].host == rs[0].host && rs[0].host in rs[i].members
    decreases |ops|
  {
    if ops != [] {
      var n := |ops|;
      ExecutionPrefix(rs, ops);
      HostStaysUntilItLeaves(rs[..n], ops[..n - 1]);
      ExecutionPreservesInv(rs, ops);
      var r, op, r' := rs[n - 1], ops[n - 1], rs[n];
      assert r.host == rs[0].host && rs[0].host in r.members && Inv(r) by {
        assert rs[..n][n - 1] == r;
      }
      assert Step(r, op, r');
      match op
      case JoinOp(u) =>
      case LeaveOp(x) =>
        assert x != r.host;
      case MessageOp(x, m) =>
        DispatchKeepsMembersAndHost(r, x, m);
    }
  }

  /** Once somebody holds the buzzer, nobody takes it over: it stays with
      them through any joins, leaves and buzzes until the host of the moment
      frees it. In particular a leaving buzzer's name stays in place. */
  lemma {:induction false} BuzzerHeldUntilHostFrees(rs: seq<Fields>, ops: seq<Op>, x: string)
    requires Execution(rs, ops) && rs[0].buzzed == Some(x)
    requires forall i :: 0 <= i < |ops| && ops[i].MessageOp? && ops[i].msg.FreeBuzzer? ==> ops[i].from != rs[i].host
    ensures forall i :: 0 <= i < |rs| ==> rs[i].buzzed == Some(x)
    decreases |ops|
  {
    if ops != [] {
      var n := |ops|;
      ExecutionPrefix(rs, ops);
      BuzzerHeldUntilHostFrees(rs[..n], ops[..n - 1], x);
      assert rs[..n][n - 1] == rs[n - 1];
      assert Step(rs[n - 1], ops[n - 1], rs[n]);
    }
  }

  /** Joining the users one after the other. */
  function JoinAll(r: Fields, users: seq<UserData>): Fields
    decreases |users|
  {
    if users == [] then r else JoinAll(Joined(r, users[0]), users[1..])
  }

  /** Joins with distinct new names each add one member; the host is the
      first joiner if the room was empty, and is unchanged otherwise. */
  lemma {:induction false} DistinctJoinsCount(r: Fields, users: seq<UserData>)
    requires forall i, j :: 0 <= i < j < |users| ==> users[i].name != users[j].name
    requires forall i :: 0 <= i < |users| ==> users[i].name !in r.members
    ensures |JoinAll(r, users).members| == |r.members| + |users|
    ensures JoinAll(r, users).host == if r.members == map[] && users != [] then users[0].name else r.host
    ensures forall i :: 0 <= i < |users| ==> users[i].name in JoinAll(r, users).members
    ensures r.members.Keys <= JoinAll(r, users).members.Keys
    decreases |users|
  {
    if users != [] {
      var r1 := Joined(r, users[0]);
      var rest := users[1..];
      assert forall i :: 0 <= i < |rest| ==> rest[i].name !in r1.members by {
        forall i | 0 <= i < |rest| ensures rest[i].name !in r1.members {
          assert rest[i] == users[i + 1];
        }
      }
      DistinctJoinsCount(r1, rest);
      forall i | 0 <= i < |users| ensures users[i].name in JoinAll(r, users).members {
        if i > 0 {
          assert users[i] == rest[i - 1];
        }
      }
    }
  }

  /** The receive loop ends with `LeftByClient` at the first Leave when every
      frame before it is a skipped frame, a Buzz or a FreeBuzzer. */
  lemma {:induction false} ServeStopsAtLeave(r: Fields, name: string, before: seq<Frame>, after: seq<Frame>,
                                             done: seq<Websocket.ServerMessage>)
    requires forall i :: 0 <= i < |before| ==>
      before[i].Other? || (before[i].Text? && before[i].decoded.Some? && !before[i].decoded.value.Leave?)
    ensures ServeAfter(r, name, before + [Text(Some(Websocket.Leave))] + after, done).end == LeftByClient
    ensures ServeAfter(r, name, before + [Text(Some(Websocket.Leave))] + after, done).room.members == r.members
    decreases |before|
  {
    var frames := before + [Text(Some(Websocket.Leave))] + after;
    if before != [] {
      assert frames[0] == before[0];
      assert frames[1..] == before[1..] + [Text(Some(Websocket.Leave))] + after;
      var e := OnFrame(r, name, frames[0]);
      ServeStopsAtLeave(e.room, name, before[1..], after, done + e.emitted);
    } else {
      assert frames[0] == Text(Some(Websocket.Leave));
    }
  }

  /** A joins an empty room and is host; B joins; A leaves and B is host;
      B leaves and the room is empty again, with no host. */
  lemma ScenarioHostHandOff(r1: Fields, r2: Fields, r3: Fields, r4: Fields)
    requires r1 == Joined(Empty, UserData("A")) && r2 == Joined(r1, UserData("B"))
    requires LeaveStep(r2, "A", r3) && LeaveStep(r3, "B", r4)
    ensures |r1.members| == 1 && r1.host == "A"
    ensures |r2.members| == 2 && r2.host == "A"
    ensures |r3.members| == 1 && r3.host == "B"
    ensures r4.members == map[] && r4.host == ""
  {
    assert "A" != "B";
    assert r3.members == map["B" := UserData("B")];
  }

  /** With A hosting and nobody buzzed: A buzzes and holds the buzzer; B's
      buzz changes nothing and publishes nothing; B cannot free it; A frees it. */
  lemma ScenarioBuzz(r: Fields)
    requires r.host == "A" && r.buzzed == None
    ensures var a := Dispatch(r, "A", Websocket.Buzz);
      && a.room.buzzed == Some("A") && a.emitted == [Websocket.Buzzed(Some("A"))]
      && var b := Dispatch(a.room, "B", Websocket.Buzz);
      && b.room == a.room && b.emitted == []
      && var c := Dispatch(b.room, "B", Websocket.FreeBuzzer);
      && c.room == b.room && c.emitted == []
      && var d := Dispatch(c.room, "A", Websocket.FreeBuzzer);
      && d.room.buzzed == None && d.emitted == [Websocket.Buzzed(None)]
  {
    assert "A" != "B";
  }

  /** Two sessions on one new room id, overlapping. A's session has created
      the room but has not joined yet when B's whole session runs on the same
      room; B's leave empties it, so the id is dropped. A then joins a room
      that is no longer registered, and the next session on the id gets a
      different, empty room: A and that session never meet. */
  method OrphanedMember(id: Uuid, a: UserData, b: UserData) returns (reg: Registry, stale: RoomState, next: RoomState)
    ensures a.name in stale.members && stale.host == a.name
    ensures reg.rooms == map[id := next] && next != stale && next.members == map[]
  {
    reg := new Registry();
    stale := reg.GetOrCreate(id);
    var end, room := reg.WebsocketUpgrade(id, b, [Close], true);
    assert room == stale && stale.members == map[];
    assert reg.rooms == map[];
    var n := stale.JoinMember(a);
    next := reg.GetOrCreate(id);
  }
}
