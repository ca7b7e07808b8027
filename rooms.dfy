/**
 * One buzzer room (src/rooms.rs): its members keyed by name, its host, the
 * name that holds the buzzer, and the events it has published.
 *
 * The broadcast channel is modelled as an append-only log `events`: every
 * publication appends one message. Each operation runs as one atomic step.
 */
module Rooms {
  import opened Wrappers
  import opened ApiTypes
  import Websocket

  /** A member of a room; the name is its identity. */
  datatype UserData = UserData(name: string)

  /** The user data a login carries into its token. */
  function FromLogin(login: LoginInfo): (u: UserData)
    ensures u.name == login.username
  {
    UserData(login.username)
  }

  /** The state of a room as a value: the members, the host and the buzzer. */
  datatype Fields = Fields(members: map<string, UserData>, host: string, buzzed: Option<string>)

  /** A freshly created room: nobody in it, no host, nobody buzzed. */
  const Empty := Fields(map[], "", None)

  /** Every member is stored under its own name. */
  ghost predicate KeyedByName(m: map<string, UserData>) {
    forall k :: k in m ==> m[k].name == k
  }

  /** The room invariant: a non-empty room has one of its members as host,
      an empty room has the empty host. */
  ghost predicate Inv(r: Fields) {
    && KeyedByName(r.members)
    && (r.members != map[] ==> r.host in r.members)
    && (r.members == map[] ==> r.host == "")
  }

  ghost predicate Distinct(s: seq<string>) {
    forall i, j :: 0 <= i < j < |s| ==> s[i] != s[j]
  }

  /** `v` is a snapshot of `r`: each member name exactly once, in some order,
      and the host and the buzzer copied. */
  ghost predicate IsStateOf(v: Websocket.RoomState, r: Fields) {
    && Distinct(v.members)
    && (forall n :: n in v.members <==> n in r.members)
    && v.host == r.host
    && v.buzzed == r.buzzed
  }

  /** `after` is `before` with exactly one snapshot of `r` published. */
  ghost predicate AppendedState(before: seq<Websocket.ServerMessage>, after: seq<Websocket.ServerMessage>, r: Fields) {
    && |after| == |before| + 1
    && after[..|before|] == before
    && after[|before|].State?
    && IsStateOf(after[|before|].state, r)
  }

  /** The effect of `join_member` on the fields: a taken name changes nothing;
      otherwise the user is added and becomes host if the room was empty. */
  function Joined(r: Fields, user: UserData): (r': Fields)
    ensures Inv(r) ==> Inv(r')
  {
    if user.name in r.members then r
    else Fields(r.members[user.name := user], if |r.members| == 0 then user.name else r.host, r.buzzed)
  }

  /** The effect of `leave_member` on the fields. The name is removed and the
      buzzer is left alone; if the leaver was the host, the host passes to some
      remaining member (the first in hash-map order, which is not specified),
      or to "" when nobody remains. */
  ghost predicate LeaveStep(r: Fields, name: string, r': Fields) {
    && r'.members == r.members - {name}
    && r'.buzzed == r.buzzed
    && if name in r.members && r.members[name].name == r.host then
         (r'.members == map[] ==> r'.host == "") && (r'.members != map[] ==> r'.host in r'.members)
       else
         r'.host == r.host
  }

  class RoomState {
    var members: map<string, UserData>
    var host: string
    var buzzed: Option<string>
    /** Every message published on the room's broadcast channel, oldest first. */
    var events: seq<Websocket.ServerMessage>

    function View(): Fields
      reads this
    {
      Fields(members, host, buzzed)
    }

    ghost predicate Valid()
      reads this
    {
      Inv(View())
    }

    /** `Default`: an empty room with a fresh channel. */
    constructor ()
      ensures View() == Empty && events == []
      ensures Valid()
    {
      members, host, buzzed, events := map[], "", None, [];
    }

    /** A new subscriber receives the events published from this index on. */
    function Subscribe(): (from: nat)
      reads this
      ensures from == |events|
    {
      |events|
    }

    function NumMembers(): (n: nat)
      reads this
      ensures n == |members|
    {
      |members|
    }

    function IsEmpty(): (e: bool)
      reads this
      ensures e <==> members == map[]
      ensures Valid() && e ==> host == ""
    {
      NumMembers() == 0
    }

    function Host(): (h: string)
      reads this
      ensures h == host
      ensures Valid() && members != map[] ==> h in members
    {
      host
    }

    function Buzzed(): (b: Option<string>)
      reads this
      ensures b == buzzed
    {
      buzzed
    }

    method SetHost(name: string)
      modifies this`host
      ensures host == name
    {
      host := name;
    }

    /** Overwrites the buzzer and publishes the new holder; always `Some`. */
    method SetBuzzed(name: Option<string>) returns (r: Option<RoomState>)
      modifies this`buzzed, this`events
      ensures buzzed == name
      ensures members == old(members) && host == old(host)
      ensures events == old(events) + [Websocket.Buzzed(name)]
      ensures r == Some(this)
    {
      buzzed := name;
      events := events + [Websocket.Buzzed(name)];
      r := Some(this);
    }

    /** The snapshot `state()`: the member names in the map's own order. */
    method State() returns (s: Websocket.RoomState)
      ensures IsStateOf(s, View())
    {
      var names: seq<string> := [];
      var rest := members.Keys;
      while rest != {}
        invariant rest <= members.Keys
        invariant forall n :: n in names <==> n in members && n !in rest
        invariant Distinct(names)
        decreases |rest|
      {
        var n :| n in rest;
        names := names + [n];
        rest := rest - {n};
      }
      s := Websocket.RoomState(names, host, buzzed);
    }

    /** Adds `user` unless the name is taken; the first member becomes host.
        Returns the new member count, or `None` for a taken name. */
    method JoinMember(user: UserData) returns (n: Option<nat>)
      requires Valid()
      modifies this`members, this`host, this`events
      ensures Valid()
      ensures View() == Joined(old(View()), user)
      ensures user.name in old(members) ==> n == None && View() == old(View()) && events == old(events)
      ensures user.name !in old(members) ==>
        && members == old(members)[user.name := user]
        && host == (if old(members) == map[] then user.name else old(host))
        && buzzed == old(buzzed)
        && n == Some(|old(members)| + 1)
        && AppendedState(old(events), events, View())
    {
      if user.name in members {
        return None;
      }
      if |members| == 0 {
        SetHost(user.name);
      }
      members := members[user.name := user];
      var count := |members|;
      var s := State();
      events := events + [Websocket.State(s)];
      n := Some(count);
    }

    /** Removes `name` if present, handing the host role on if it was the
        host, and always publishes a snapshot. Returns the new member count,
        or `None` if the name was not there. */
    method LeaveMember(name: string) returns (n: Option<nat>)
      requires Valid()
      modifies this`members, this`host, this`events
      ensures Valid()
      ensures LeaveStep(old(View()), name, View())
      ensures members == old(members) - {name} && buzzed == old(buzzed)
      ensures n == (if name in old(members) then Some(|old(members)| - 1) else None)
      ensures name in old(members) && name == old(host) ==>
        (members == map[] ==> host == "") && (members != map[] ==> host in members)
      ensures !(name in old(members) && name == old(host)) ==> host == old(host)
      ensures AppendedState(old(events), events, View())
    {
      var prev: Option<UserData> := if name in members then Some(members[name]) else None;
      members := members - {name};
      if prev.Some? && prev.value.name == host {
        var first := "";
        if members != map[] {
          var k :| k in members;
          first := members[k].name;
        }
        SetHost(first);
      }
      var out := if prev.Some? then Some(|members|) else None;
      var s := State();
      events := events + [Websocket.State(s)];
      n := out;
    }
  }
}
