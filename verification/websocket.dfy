/**
 * The realtime connection manager: which users are connected, which rooms
 * they are in, and what sending a message does to that state. The sockets
 * themselves are not modelled: whether a send reaches its user is an input.
 * Time is an input too: `now` counts seconds.
 */
module Websocket {
  import opened Common

  /** A connected user's record: the rooms joined, when the user connected, the last successful send, and metadata. */
  datatype Connection = Connection(roomIds: set<string>, connectedAt: int, lastActivity: int, metadata: map<string, string>)

  /** `get_user_presence` */
  datatype Presence = Presence(userId: string, connectedAt: int, lastActivity: int, rooms: set<string>, metadata: map<string, string>)

  const SetChangedSize := "Set changed size during iteration"

  /**
   * Rooms and connections agree: a user is listed in a room exactly when that
   * room is among the user's rooms, and no room is stored empty.
   */
  predicate Consistent(rooms: map<string, set<string>>, conns: map<string, Connection>)
  {
    && (forall r :: r in rooms ==> rooms[r] != {})
    && (forall r, u :: r in rooms && u in rooms[r] ==> u in conns && r in conns[u].roomIds)
    && (forall u, r :: u in conns && r in conns[u].roomIds ==> r in rooms && u in rooms[r])
  }

  /** The rooms after `user` leaves each of `ids`: dropped from those rooms, and a room left empty deleted. */
  function LeaveAll(rooms: map<string, set<string>>, user: string, ids: set<string>): map<string, set<string>>
  {
    map r | r in rooms && (r !in ids || rooms[r] - {user} != {}) :: if r in ids then rooms[r] - {user} else rooms[r]
  }

  /** The rooms once every user in `gone` is dropped from all of them. */
  function DropUsers(rooms: map<string, set<string>>, gone: set<string>): map<string, set<string>>
  {
    map r | r in rooms && rooms[r] - gone != {} :: rooms[r] - gone
  }

  /** The members a broadcast addresses: all but the excluded user. */
  function Recipients(members: set<string>, exclude: Option<string>): set<string>
  {
    set u | u in members && Some(u) != exclude
  }

  /** The connections after the users in `ok` were sent to at `now` and those in `failed` disconnected. */
  function AfterSends(conns: map<string, Connection>, ok: set<string>, failed: set<string>, now: int): map<string, Connection>
  {
    map u | u in conns && u !in failed :: if u in ok then conns[u].(lastActivity := now) else conns[u]
  }

  /** In a consistent state, leaving all of one's own rooms is being dropped from every room. */
  lemma LeaveOwnRooms(rooms: map<string, set<string>>, conns: map<string, Connection>, user: string)
    requires Consistent(rooms, conns) && user in conns
    ensures LeaveAll(rooms, user, conns[user].roomIds) == DropUsers(rooms, {user})
  {
    var a := LeaveAll(rooms, user, conns[user].roomIds);
    var b := DropUsers(rooms, {user});
    forall r | r in rooms
      ensures r in a <==> r in b
      ensures r in a ==> a[r] == b[r]
    {
      if r !in conns[user].roomIds {
        assert user !in rooms[r];
        assert rooms[r] - {user} == rooms[r];
      }
    }
  }

  /** Dropping users from the rooms and their connections keeps rooms and connections in agreement. */
  lemma DropKeepsConsistent(rooms: map<string, set<string>>, conns: map<string, Connection>, ok: set<string>, gone: set<string>, now: int)
    requires Consistent(rooms, conns)
    ensures Consistent(DropUsers(rooms, gone), AfterSends(conns, ok, gone, now))
  {
    var rs := DropUsers(rooms, gone);
    var cs := AfterSends(conns, ok, gone, now);
    forall u, r | u in cs && r in cs[u].roomIds
      ensures r in rs && u in rs[r]
    {
      assert r in conns[u].roomIds;
      assert u in rooms[r] - gone;
    }
  }

  /** Dropping one group of users and then another is dropping both at once. */
  lemma DropTwice(rooms: map<string, set<string>>, a: set<string>, b: set<string>)
    ensures DropUsers(DropUsers(rooms, a), b) == DropUsers(rooms, a + b)
  {
    var l := DropUsers(DropUsers(rooms, a), b);
    var r := DropUsers(rooms, a + b);
    forall k | k in rooms
      ensures k in l <==> k in r
      ensures k in l ==> l[k] == r[k]
    {
      assert rooms[k] - a - b == rooms[k] - (a + b);
    }
  }

  /** Sending to more users, or disconnecting more, composes one user at a time. */
  lemma AfterSendsStep(conns: map<string, Connection>, ok: set<string>, failed: set<string>, now: int, u: string)
    requires u in conns && u !in ok && u !in failed
    ensures var cs := AfterSends(conns, ok, failed, now);
      && AfterSends(conns, ok + {u}, failed, now) == cs[u := cs[u].(lastActivity := now)]
      && AfterSends(conns, ok, failed + {u}, now) == cs - {u}
  {
  }

  /**
   * A user who connects again while connected gets a fresh record with no
   * rooms, while the rooms still list the user: the two sides disagree.
   */
  lemma ReconnectStrandsMember(rooms: map<string, set<string>>, conns: map<string, Connection>, user: string, c: Connection)
    requires Consistent(rooms, conns) && user in conns && conns[user].roomIds != {} && c.roomIds == {}
    ensures !Consistent(rooms, conns[user := c])
  {
    var r :| r in conns[user].roomIds;
    assert r in rooms && user in rooms[r] && r !in conns[user := c][user].roomIds;
  }

  /** Dropping a user who is not connected changes no room. */
  lemma DropAbsent(rooms: map<string, set<string>>, conns: map<string, Connection>, user: string)
    requires Consistent(rooms, conns) && user !in conns
    ensures DropUsers(rooms, {user}) == rooms
  {
    forall r | r in rooms ensures rooms[r] - {user} == rooms[r]
    {
      assert user !in rooms[r];
    }
  }

  /** The members a broadcast reaches. */
  function Reached(members: set<string>, exclude: Option<string>, delivers: string -> bool): set<string>
  {
    set u | u in members && Some(u) != exclude && delivers(u)
  }

  /** The members a broadcast fails to reach, each of whom is then disconnected. */
  function Failing(members: set<string>, exclude: Option<string>, delivers: string -> bool): set<string>
  {
    set u | u in members && Some(u) != exclude && !delivers(u)
  }

  /** The rooms once `user` is added to `room`, the room created if need be. */
  function Joined(rooms: map<string, set<string>>, room: string, user: string): map<string, set<string>>
  {
    rooms[room := (if room in rooms then rooms[room] else {}) + {user}]
  }

  /** The connections once `room` is added to, or removed from, a connected user's rooms. */
  function WithRoom(conns: map<string, Connection>, user: string, room: string, add: bool): map<string, Connection>
  {
    if user !in conns then conns
    else conns[user := conns[user].(roomIds := if add then conns[user].roomIds + {room} else conns[user].roomIds - {room})]
  }

  /** Walking one more member adds it to the reached or the failing ones, or to neither when it is the excluded user. */
  lemma WalkStep(done: set<string>, u: string, exclude: Option<string>, delivers: string -> bool)
    requires u !in done
    ensures Reached(done + {u}, exclude, delivers)
            == Reached(done, exclude, delivers) + (if Some(u) != exclude && delivers(u) then {u} else {})
    ensures Failing(done + {u}, exclude, delivers)
            == Failing(done, exclude, delivers) + (if Some(u) != exclude && !delivers(u) then {u} else {})
  {
  }

  /** The state after walking one more addressed member, by the outcome of its send. */
  lemma WalkOne(rooms0: map<string, set<string>>, conns0: map<string, Connection>, done: set<string>, u: string,
                exclude: Option<string>, delivers: string -> bool, now: int)
    requires u in conns0 && u !in done && Some(u) != exclude
    ensures var ok, failed := Reached(done, exclude, delivers), Failing(done, exclude, delivers);
      var ok', failed' := Reached(done + {u}, exclude, delivers), Failing(done + {u}, exclude, delivers);
      var cs := AfterSends(conns0, ok, failed, now);
      && u in cs
      && (delivers(u) ==> AfterSends(conns0, ok', failed', now) == cs[u := cs[u].(lastActivity := now)]
                          && failed' == failed && |ok'| == |ok| + 1)
      && (!delivers(u) ==> AfterSends(conns0, ok', failed', now) == cs - {u}
                           && DropUsers(rooms0, failed') == DropUsers(DropUsers(rooms0, failed), {u}) && ok' == ok)
  {
    WalkStep(done, u, exclude, delivers);
    var ok, failed := Reached(done, exclude, delivers), Failing(done, exclude, delivers);
    assert u !in ok && u !in failed;
    AfterSendsStep(conns0, ok, failed, now, u);
    DropTwice(rooms0, failed, {u});
  }

  /** Once nobody fails, everybody addressed is reached. */
  lemma NoneFailing(members: set<string>, exclude: Option<string>, delivers: string -> bool)
    requires Failing(members, exclude, delivers) == {}
    ensures Reached(members, exclude, delivers) == Recipients(members, exclude)
  {
    forall u | u in Recipients(members, exclude) ensures delivers(u)
    {
      assert u !in Failing(members, exclude, delivers);
    }
  }

  /** Dropping a member from its room leaves the room smaller or deletes it. */
  lemma DropShrinks(rooms: map<string, set<string>>, room: string, u: string)
    requires room in rooms && u in rooms[room]
    ensures var rs := DropUsers(rooms, {u}); room !in rs || |rs[room]| < |rooms[room]|
  {
    var rs := DropUsers(rooms, {u});
    if room in rs {
      assert rs[room] < rooms[room];
    }
  }

  /** Dropping nobody changes no room, since none is stored empty. */
  lemma DropNobody(rooms: map<string, set<string>>, conns: map<string, Connection>)
    requires Consistent(rooms, conns)
    ensures DropUsers(rooms, {}) == rooms
  {
    forall r | r in rooms ensures rooms[r] - {} == rooms[r]
    {
    }
  }

  /** A newly connected user with no rooms keeps the state consistent. */
  lemma AddUnlisted(rooms: map<string, set<string>>, conns: map<string, Connection>, user: string, c: Connection)
    requires Consistent(rooms, conns) && user !in conns && c.roomIds == {}
    ensures Consistent(rooms, conns[user := c])
  {
  }

  /** Joining a room keeps the state consistent. */
  lemma JoinKeepsConsistent(rooms: map<string, set<string>>, conns: map<string, Connection>, user: string, room: string)
    requires Consistent(rooms, conns) && user in conns
    ensures Consistent(Joined(rooms, room, user), WithRoom(conns, user, room, true))
  {
  }

  /** Leaving a room keeps the state consistent. */
  lemma LeaveKeepsConsistent(rooms: map<string, set<string>>, conns: map<string, Connection>, user: string, room: string)
    requires Consistent(rooms, conns)
    ensures Consistent(LeaveAll(rooms, user, {room}), WithRoom(conns, user, room, false))
  {
    var rs := LeaveAll(rooms, user, {room});
    var cs := WithRoom(conns, user, room, false);
    forall u, r | u in cs && r in cs[u].roomIds
      ensures r in rs && u in rs[r]
    {
      assert r in conns[u].roomIds;
      assert u in rooms[r];
      if r == room {
        assert u != user;
        assert u in rooms[r] - {user};
      }
    }
  }

  class ConnectionManager {
    var connections: map<string, Connection>
    var rooms: map<string, set<string>>
    var connectionCount: nat

    ghost predicate Valid()
      reads this
    {
      Consistent(rooms, connections)
    }

    constructor()
      ensures connections == map[] && rooms == map[] && connectionCount == 0
      ensures Valid()
    {
      connections := map[];
      rooms := map[];
      connectionCount := 0;
    }

    /** The loop of `disconnect`: `user` is dropped from each room of `ids`, and a room left empty is deleted. */
    method LeaveRooms(user: string, ids: set<string>)
      modifies this
      ensures rooms == LeaveAll(old(rooms), user, ids)
      ensures connections == old(connections) && connectionCount == old(connectionCount)
    {
      var left := ids;
      while left != {}
        invariant left <= ids
        invariant rooms == LeaveAll(old(rooms), user, ids - left)
        invariant connections == old(connections) && connectionCount == old(connectionCount)
        decreases left
      {
        var r :| r in left;
        if r in rooms {
          rooms := rooms[r := rooms[r] - {user}];
          if rooms[r] == {} {
            rooms := rooms - {r};
          }
        }
        left := left - {r};
        assert ids - left == (ids - (left + {r})) + {r};
      }
    }

    /**
     * `disconnect`: the user leaves every room listed in its record, emptied
     * rooms are deleted, and the connection is dropped; nothing happens for a
     * user who is not connected.
     */
    method Disconnect(user: string)
      modifies this
      ensures connections == old(connections) - {user}
      ensures rooms == if user in old(connections) then LeaveAll(old(rooms), user, old(connections)[user].roomIds) else old(rooms)
      ensures connectionCount == old(connectionCount)
      ensures old(Valid()) ==> Valid() && rooms == DropUsers(old(rooms), {user})
    {
      if user in connections {
        LeaveRooms(user, connections[user].roomIds);
        connections := connections - {user};
        if old(Valid()) {
          LeaveOwnRooms(old(rooms), old(connections), user);
          DropKeepsConsistent(old(rooms), old(connections), {}, {user}, 0);
          assert AfterSends(old(connections), {}, {user}, 0) == connections;
        }
      } else if old(Valid()) {
        DropAbsent(rooms, connections, user);
      }
    }

    /**
     * `send_to_user`, the socket taking the message iff `delivered`: nothing
     * for a user who is not connected; a success records the time; a failure
     * disconnects the user.
     */
    method SendToUser(user: string, delivered: bool, now: int) returns (ok: bool)
      modifies this
      ensures ok <==> user in old(connections) && delivered
      ensures user !in old(connections) ==> connections == old(connections) && rooms == old(rooms)
      ensures ok ==> connections == old(connections)[user := old(connections)[user].(lastActivity := now)] && rooms == old(rooms)
      ensures !ok && user in old(connections) ==>
        connections == old(connections) - {user} && rooms == LeaveAll(old(rooms), user, old(connections)[user].roomIds)
      ensures connectionCount == old(connectionCount)
      ensures old(Valid()) ==> Valid()
      ensures old(Valid()) && !ok && user in old(connections) ==> rooms == DropUsers(old(rooms), {user})
    {
      if user !in connections {
        return false;
      }
      if delivered {
        connections := connections[user := connections[user].(lastActivity := now)];
        ok := true;
        if old(Valid()) {
          DropKeepsConsistent(old(rooms), old(connections), {user}, {}, now);
          DropNobody(old(rooms), old(connections));
          assert AfterSends(old(connections), {user}, {}, now) == connections;
        }
      } else {
        Disconnect(user);
        ok := false;
      }
    }

    /**
     * `connect`: a new record with no rooms replaces any earlier one, the
     * counter goes up by one, and the greeting is sent, which disconnects the
     * user again when it fails.
     */
    method Connect(user: string, metadata: Option<map<string, string>>, delivered: bool, now: int) returns (c: Connection)
      modifies this
      ensures c == Connection({}, now, now, if metadata.Some? then metadata.value else map[])
      ensures connectionCount == old(connectionCount) + 1
      ensures rooms == old(rooms)
      ensures connections == if delivered then old(connections)[user := c] else old(connections) - {user}
      ensures old(Valid()) && user !in old(connections) ==> Valid()
    {
      c := Connection({}, now, now, if metadata.Some? then metadata.value else map[]);
      if old(Valid()) && user !in connections {
        AddUnlisted(rooms, connections, user, c);
      }
      connections := connections[user := c];
      connectionCount := connectionCount + 1;
      var _ := SendToUser(user, delivered, now);
    }

    /** `connect` preceded by `disconnect`, so that a user connecting again does not stay listed in rooms the new record does not know. */
    method ConnectAfresh(user: string, metadata: Option<map<string, string>>, delivered: bool, now: int) returns (c: Connection)
      modifies this
      ensures c == Connection({}, now, now, if metadata.Some? then metadata.value else map[])
      ensures connectionCount == old(connectionCount) + 1
      ensures connections == if delivered then old(connections)[user := c] else old(connections) - {user}
      ensures old(Valid()) ==> Valid() && rooms == DropUsers(old(rooms), {user})
    {
      Disconnect(user);
      c := Connect(user, metadata, delivered, now);
    }

    /** The number of members of `room`, 0 once it is deleted. */
    function LiveSize(room: string): nat
      reads this
    {
      if room in rooms then |rooms[room]| else 0
    }

    /** The state once the members `done` of a broadcast from (`rooms0`, `conns0`) have been walked. */
    ghost predicate Walked(rooms0: map<string, set<string>>, conns0: map<string, Connection>, done: set<string>,
                           exclude: Option<string>, delivers: string -> bool, now: int)
      reads this
    {
      && Valid()
      && rooms == DropUsers(rooms0, Failing(done, exclude, delivers))
      && connections == AfterSends(conns0, Reached(done, exclude, delivers), Failing(done, exclude, delivers), now)
    }

    /** `Walked`, and `count` is the number of members reached so far. */
    ghost predicate Progress(rooms0: map<string, set<string>>, conns0: map<string, Connection>, done: set<string>,
                             count: nat, exclude: Option<string>, delivers: string -> bool, now: int)
      reads this
    {
      count == |Reached(done, exclude, delivers)| && Walked(rooms0, conns0, done, exclude, delivers, now)
    }

    /** One send of a broadcast loop: the user joins the reached or the failing ones. */
    method SendOne(u: string, exclude: Option<string>, delivers: string -> bool, now: int, ghost valid0: bool,
                   ghost rooms0: map<string, set<string>>, ghost conns0: map<string, Connection>,
                   ghost done: set<string>, ghost count: nat)
      returns (sent: bool)
      modifies this
      requires Some(u) != exclude
      requires valid0 ==> u in conns0 && u !in done && Progress(rooms0, conns0, done, count, exclude, delivers, now)
      ensures connectionCount == old(connectionCount)
      ensures valid0 ==> (sent <==> delivers(u))
      ensures valid0 ==> Progress(rooms0, conns0, done + {u}, if sent then count + 1 else count, exclude, delivers, now)
    {
      if valid0 {
        WalkOne(rooms0, conns0, done, u, exclude, delivers, now);
      }
      sent := SendToUser(u, delivers(u), now);
    }

    /** Walking past the excluded user changes nothing. */
    lemma SkipOne(rooms0: map<string, set<string>>, conns0: map<string, Connection>, done: set<string>, u: string,
                  count: nat, exclude: Option<string>, delivers: string -> bool, now: int)
      requires Some(u) == exclude && u !in done && Progress(rooms0, conns0, done, count, exclude, delivers, now)
      ensures Progress(rooms0, conns0, done + {u}, count, exclude, delivers, now)
    {
      WalkStep(done, u, exclude, delivers);
    }

    /** The state before any send: nothing walked, nothing changed. */
    lemma StartWalk(exclude: Option<string>, delivers: string -> bool, now: int)
      requires Valid()
      ensures Progress(rooms, connections, {}, 0, exclude, delivers, now)
    {
      DropNobody(rooms, connections);
      assert AfterSends(connections, {}, {}, now) == connections;
      assert Reached({}, exclude, delivers) == {} && Failing({}, exclude, delivers) == {};
    }

    /**
     * The send loop shared by the broadcasts: each user of a fixed set, but the
     * excluded one, is sent the message; those whose send fails are disconnected.
     */
    method SendEach(users: set<string>, exclude: Option<string>, delivers: string -> bool, now: int) returns (count: nat)
      modifies this
      requires Valid() ==> users <= connections.Keys
      ensures connectionCount == old(connectionCount)
      ensures old(Valid()) ==> count == |Reached(users, exclude, delivers)| && Walked(old(rooms), old(connections), users, exclude, delivers, now)
    {
      ghost var valid0 := Valid();
      ghost var rooms0, conns0 := rooms, connections;
      if valid0 {
        StartWalk(exclude, delivers, now);
      }
      var left := users;
      count := 0;
      ghost var done: set<string> := {};
      while left != {}
        invariant done == users - left && left <= users
        invariant connectionCount == old(connectionCount)
        invariant valid0 ==> users <= conns0.Keys && Progress(rooms0, conns0, done, count, exclude, delivers, now)
        decreases left
      {
        var u :| u in left;
        if Some(u) != exclude {
          var sent := SendOne(u, exclude, delivers, now, valid0, rooms0, conns0, done, count);
          if sent {
            count := count + 1;
          }
        } else if valid0 {
          SkipOne(rooms0, conns0, done, u, count, exclude, delivers, now);
        }
        left := left - {u};
        done := done + {u};
      }
      assert done == users;
    }

    /**
     * One send of the as-written room broadcast, and whether it changed the
     * size of the live member set being walked: under a consistent state a
     * failed send always does, since it disconnects a member of the room.
     */
    method SendLive(u: string, room: string, members: set<string>, exclude: Option<string>, delivers: string -> bool,
                    now: int, ghost valid0: bool, ghost rooms0: map<string, set<string>>,
                    ghost conns0: map<string, Connection>, ghost done: set<string>, ghost count: nat)
      returns (sent: bool, changed: bool)
      modifies this
      requires Some(u) != exclude
      requires valid0 ==> u in conns0 && u !in done && room in rooms0 && u in rooms0[room] && members == rooms0[room]
      requires valid0 ==> Failing(done, exclude, delivers) == {} && Progress(rooms0, conns0, done, count, exclude, delivers, now)
      ensures changed ==> !sent
      ensures valid0 ==> (sent <==> delivers(u)) && (changed <==> !sent)
      ensures valid0 ==> Progress(rooms0, conns0, done + {u}, if sent then count + 1 else count, exclude, delivers, now)
      ensures valid0 && sent ==> Failing(done + {u}, exclude, delivers) == {}
      ensures valid0 && changed ==> u in Failing(members, exclude, delivers)
    {
      if valid0 {
        WalkStep(done, u, exclude, delivers);
      }
      sent := SendOne(u, exclude, delivers, now, valid0, rooms0, conns0, done, count);
      changed := !sent && LiveSize(room) != |members|;
      if valid0 && !sent {
        DropShrinks(rooms0, room, u);
      }
    }

    /**
     * The loop of `broadcast_to_room` as written, over the live member set of
     * `room`: it stops, raising, at the first send that changed that set.
     */
    method WalkLive(room: string, members: set<string>, exclude: Option<string>, delivers: string -> bool, now: int)
      returns (count: nat, raised: bool)
      modifies this
      requires Valid() ==> room in rooms && members == rooms[room]
      ensures old(Valid()) ==> Valid() && (raised <==> Failing(members, exclude, delivers) != {})
      ensures old(Valid()) && !raised ==> count == |Reached(members, exclude, delivers)|
    {
      ghost var valid0 := Valid();
      ghost var rooms0, conns0 := rooms, connections;
      if valid0 {
        StartWalk(exclude, delivers, now);
        assert members <= connections.Keys;
      }
      var left := members;
      count := 0;
      ghost var done: set<string> := {};
      while left != {}
        invariant done == members - left && left <= members
        invariant valid0 ==> members <= conns0.Keys && room in rooms0 && members == rooms0[room]
        invariant valid0 ==> Failing(done, exclude, delivers) == {} && Progress(rooms0, conns0, done, count, exclude, delivers, now)
        decreases left
      {
        var u :| u in left;
        if Some(u) != exclude {
          var sent, changed := SendLive(u, room, members, exclude, delivers, now, valid0, rooms0, conns0, done, count);
          if changed {
            return count, true;
          } else if sent {
            count := count + 1;
          }
        } else if valid0 {
          SkipOne(rooms0, conns0, done, u, count, exclude, delivers, now);
          WalkStep(done, u, exclude, delivers);
        }
        left := left - {u};
        done := done + {u};
      }
      assert done == members;
      raised := false;
    }

    /**
     * `broadcast_to_room` as written: 0 for an unknown room; otherwise it walks
     * the live member set, and the first failed send disconnects that member,
     * which removes it from the set being walked, so the walk raises.
     */
    method BroadcastToRoom(room: string, exclude: Option<string>, delivers: string -> bool, now: int) returns (r: Result<nat>)
      modifies this
      ensures room !in old(rooms) ==> r == Ok(0) && rooms == old(rooms) && connections == old(connections)
      ensures old(Valid()) && room in old(rooms) ==> (r.Ok? <==> Failing(old(rooms)[room], exclude, delivers) == {})
      ensures old(Valid()) && room in old(rooms) && r.Ok? ==> r.value == |Recipients(old(rooms)[room], exclude)|
      ensures old(Valid()) ==> Valid()
    {
      if room !in rooms {
        return Ok(0);
      }
      var members := rooms[room];
      var count, raised := WalkLive(room, members, exclude, delivers, now);
      if raised {
        return Err(SetChangedSize);
      }
      if old(Valid()) {
        NoneFailing(members, exclude, delivers);
      }
      r := Ok(count);
    }

    /** `broadcast_to_room` walking a copy of the member set: every member but the excluded one is sent the message, and the count is of the sends that succeed. */
    method BroadcastToRoomCopy(room: string, exclude: Option<string>, delivers: string -> bool, now: int) returns (count: nat)
      modifies this
      ensures room !in old(rooms) ==> count == 0 && rooms == old(rooms) && connections == old(connections)
      ensures old(Valid()) && room in old(rooms) ==> var m := old(rooms)[room];
        && count == |Reached(m, exclude, delivers)|
        && rooms == DropUsers(old(rooms), Failing(m, exclude, delivers))
        && connections == AfterSends(old(connections), Reached(m, exclude, delivers), Failing(m, exclude, delivers), now)
      ensures old(Valid()) ==> Valid()
      ensures connectionCount == old(connectionCount)
    {
      if room !in rooms {
        return 0;
      }
      count := SendEach(rooms[room], exclude, delivers, now);
    }

    /** `broadcast_to_all`: every connected user but the excluded one is sent the message, over a copy of the user list. */
    method BroadcastToAll(exclude: Option<string>, delivers: string -> bool, now: int) returns (count: nat)
      modifies this
      ensures old(Valid()) ==> var us := old(connections).Keys;
        && Valid() && count == |Reached(us, exclude, delivers)|
        && rooms == DropUsers(old(rooms), Failing(us, exclude, delivers))
        && connections == AfterSends(old(connections), Reached(us, exclude, delivers), Failing(us, exclude, delivers), now)
      ensures connectionCount == old(connectionCount)
    {
      count := SendEach(connections.Keys, exclude, delivers, now);
    }

    /**
     * `join_room`: nothing for a user who is not connected; otherwise the user
     * and the room are added to each other and the other members are told.
     */
    method JoinRoom(user: string, room: string, delivers: string -> bool, now: int)
      modifies this
      ensures user !in old(connections) ==> rooms == old(rooms) && connections == old(connections)
      ensures old(Valid()) && user in old(connections) ==>
        var m := Joined(old(rooms), room, user)[room];
        && Valid()
        && rooms == DropUsers(Joined(old(rooms), room, user), Failing(m, Some(user), delivers))
        && connections == AfterSends(WithRoom(old(connections), user, room, true), Reached(m, Some(user), delivers),
                                     Failing(m, Some(user), delivers), now)
        && user in rooms[room] && room in connections[user].roomIds
      ensures connectionCount == old(connectionCount)
    {
      if user !in connections {
        return;
      }
      if old(Valid()) {
        JoinKeepsConsistent(rooms, connections, user, room);
      }
      rooms := Joined(rooms, room, user);
      connections := WithRoom(connections, user, room, true);
      var _ := BroadcastToRoomCopy(room, Some(user), delivers, now);
    }

    /** `leave_room`: the user and the room are removed from each other, an emptied room is deleted, and the remaining members are told. */
    method LeaveRoom(user: string, room: string, delivers: string -> bool, now: int)
      modifies this
      ensures old(Valid()) ==>
        var rs := LeaveAll(old(rooms), user, {room});
        var m := if room in rs then rs[room] else {};
        && Valid()
        && rooms == DropUsers(rs, Failing(m, None, delivers))
        && connections == AfterSends(WithRoom(old(connections), user, room, false), Reached(m, None, delivers),
                                     Failing(m, None, delivers), now)
        && (room in rooms ==> user !in rooms[room])
        && (user in connections ==> room !in connections[user].roomIds)
      ensures connectionCount == old(connectionCount)
    {
      if old(Valid()) {
        LeaveKeepsConsistent(rooms, connections, user, room);
      }
      rooms := LeaveAll(rooms, user, {room});
      connections := WithRoom(connections, user, room, false);
      var _ := BroadcastToRoomCopy(room, None, delivers, now);
      if old(Valid()) && room !in LeaveAll(old(rooms), user, {room}) {
        DropNobody(LeaveAll(old(rooms), user, {room}), WithRoom(old(connections), user, room, false));
        assert Failing({}, None, delivers) == {} && Reached({}, None, delivers) == {};
        assert AfterSends(WithRoom(old(connections), user, room, false), {}, {}, now) == WithRoom(old(connections), user, room, false);
      }
    }

    /** `get_room_users`: the members of the room, none for an unknown room. */
    function GetRoomUsers(room: string): set<string>
      reads this
    {
      if room in rooms then rooms[room] else {}
    }

    /** `get_user_rooms`: the user's rooms, none for a user who is not connected. */
    function GetUserRooms(user: string): set<string>
      reads this
    {
      if user in connections then connections[user].roomIds else {}
    }

    /** `is_user_connected` */
    predicate IsUserConnected(user: string)
      reads this
    {
      user in connections
    }

    /** `get_active_user_count` */
    function GetActiveUserCount(): nat
      reads this
    {
      |connections|
    }

    /** `get_user_presence`: None for a user who is not connected. */
    function GetUserPresence(user: string): (p: Option<Presence>)
      reads this
      ensures p.None? <==> !IsUserConnected(user)
      ensures p.Some? ==> p.value.userId == user && p.value.rooms == GetUserRooms(user)
    {
      if user !in connections then None
      else
        var c := connections[user];
        Some(Presence(user, c.connectedAt, c.lastActivity, c.roomIds, c.metadata))
    }
  }

  /**
   * In a consistent manager the two views of membership agree, no stored
   * room is empty, and an unknown room or user has no members, rooms or presence.
   */
  lemma MembershipAgrees(m: ConnectionManager, user: string, room: string)
    requires m.Valid()
    ensures user in m.GetRoomUsers(room) <==> room in m.GetUserRooms(user)
    ensures room in m.rooms ==> m.GetRoomUsers(room) != {}
    ensures user in m.GetRoomUsers(room) ==> m.IsUserConnected(user)
    ensures room !in m.rooms ==> m.GetRoomUsers(room) == {}
    ensures !m.IsUserConnected(user) ==> m.GetUserRooms(user) == {} && m.GetUserPresence(user).None?
  {
  }
}
