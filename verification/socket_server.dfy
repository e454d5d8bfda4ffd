/**
 * The socket server's room membership table (`roomsMeta`) and its handlers:
 * `join-room`, the per-socket `leaveRoom` helper, `leave-room` and
 * `disconnect`. Messages the server sends are appended to an outbox; the
 * database of rooms is the set of ids `Room.findOne` can find.
 */
module SocketServer {
  import opened Common
  import opened JsStrings
  import RoomRoutes

  /** The colour every joining socket is recorded with, whatever its payload says. */
  const DefaultColour: Colour := "#000"
  const RoomNotFound := "Room not found"

  /** One room's `users` object: socket id to colour. */
  type Users = map<SocketId, Colour>

  /** `roomsMeta`: room id to that room's users. */
  type Table = map<RoomId, Users>

  /** socket.io's own rooms: room id to the sockets that joined it. */
  type Channels = map<RoomId, set<SocketId>>

  datatype Message = Error(text: string) | PresenceUpdate(count: nat, users: Users)

  /**
   * One emitted message: to a single socket (`socket.emit`), or to the
   * sockets in a socket.io room at the moment of sending (`io.to(room).emit`).
   */
  datatype Emit = ToSocket(socket: SocketId, message: Message) | ToRoom(room: RoomId, audience: set<SocketId>, message: Message)

  /** The acknowledgement passed to the `leave-room` callback. */
  datatype Ack = Ack(status: string)

  predicate NoEmptyRooms(t: Table)
  {
    forall r :: r in t ==> t[r] != map[]
  }

  predicate AllDefaultColour(t: Table)
  {
    forall r, s :: r in t && s in t[r] ==> t[r][s] == DefaultColour
  }

  /** socket.io's rooms hold exactly the users of the table's rooms. */
  predicate Agree(t: Table, channels: Channels)
  {
    channels.Keys == t.Keys && forall r :: r in t ==> channels[r] == t[r].Keys
  }

  /**
   * The state invariant: no room entry is empty, every entry names a stored
   * room, every recorded colour is the default, and socket.io's rooms agree
   * with the table. Stored ids are never "", which the join route refuses.
   */
  predicate Inv(store: set<RoomId>, t: Table, channels: Channels)
  {
    && "" !in store
    && NoEmptyRooms(t)
    && t.Keys <= store
    && AllDefaultColour(t)
    && Agree(t, channels)
  }

  function UsersOf(t: Table, r: RoomId): Users
  {
    if r in t then t[r] else map[]
  }

  /** The payload of a presence update: the number of users and the users themselves. */
  function Presence(users: Users): Message
  {
    PresenceUpdate(|users|, users)
  }

  /** `roomsMeta` after socket `s` joins room `r`. */
  function JoinTable(t: Table, r: RoomId, s: SocketId): Table
  {
    t[r := UsersOf(t, r)[s := DefaultColour]]
  }

  /** `roomsMeta` after `leaveRoom(r)` by socket `s`. */
  function LeaveTable(t: Table, r: RoomId, s: SocketId): Table
  {
    if r !in t then t
    else if t[r] - {s} == map[] then t - {r}
    else t[r := t[r] - {s}]
  }

  /** What `leaveRoom(r)` by socket `s` emits, addressed to the socket.io room's `audience`. */
  function LeaveEmits(t: Table, r: RoomId, s: SocketId, audience: set<SocketId>): seq<Emit>
  {
    if r in t && t[r] - {s} != map[] then [ToRoom(r, audience, Presence(t[r] - {s}))] else []
  }

  /** `roomsMeta` after socket `s` has left `rooms`, in order. */
  function LeaveMany(t: Table, s: SocketId, rooms: seq<RoomId>): Table
  {
    if rooms == [] then t
    else LeaveTable(LeaveMany(t, s, rooms[..|rooms| - 1]), rooms[|rooms| - 1], s)
  }

  /**
   * The presence updates the disconnect loop emits while `s` leaves `rooms`
   * in order. socket.io has already taken `s` out of every room, so each
   * update reaches the remaining users only.
   */
  function DisconnectEmits(t: Table, s: SocketId, rooms: seq<RoomId>): seq<Emit>
  {
    if rooms == [] then []
    else
      var before := LeaveMany(t, s, rooms[..|rooms| - 1]);
      var r := rooms[|rooms| - 1];
      DisconnectEmits(t, s, rooms[..|rooms| - 1]) + LeaveEmits(before, r, s, (UsersOf(before, r) - {s}).Keys)
  }

  /** The table after leaving each of `rooms` once or more: those rooms lose `s`, and those left empty disappear. */
  function AfterLeaving(t: Table, s: SocketId, rooms: seq<RoomId>): Table
  {
    map r | r in t && (r !in rooms || t[r] - {s} != map[]) :: if r in rooms then t[r] - {s} else t[r]
  }

  /** The table with `s` taken out of every room and the rooms it alone occupied deleted. */
  function WithoutSocket(t: Table, s: SocketId): Table
  {
    map r | r in t && t[r] - {s} != map[] :: t[r] - {s}
  }

  predicate NoRepeats(rooms: seq<RoomId>)
  {
    forall i, j :: 0 <= i < j < |rooms| ==> rooms[i] != rooms[j]
  }

  /** socket.io's room membership after `socket.join(r)`. */
  function Subscribe(channels: Channels, r: RoomId, s: SocketId): Channels
  {
    channels[r := (if r in channels then channels[r] else {}) + {s}]
  }

  /** socket.io's room membership after `socket.leave(r)`; a room left empty is dropped. */
  function Unsubscribe(channels: Channels, r: RoomId, s: SocketId): Channels
  {
    if r !in channels then channels
    else if channels[r] - {s} == {} then channels - {r}
    else channels[r := channels[r] - {s}]
  }

  /** socket.io's room membership once a disconnected socket has been taken out of all its rooms. */
  function UnsubscribeAll(channels: Channels, s: SocketId): Channels
  {
    map r | r in channels && channels[r] - {s} != {} :: channels[r] - {s}
  }

  // ---------------------------------------------------------------------------
  // Joining

  /**
   * A join keeps the invariant, puts the joiner in socket.io's room, and a
   * socket that is already a member changes nothing.
   */
  lemma JoinKeepsInv(store: set<RoomId>, t: Table, channels: Channels, r: RoomId, s: SocketId)
    requires Inv(store, t, channels) && r in store
    ensures Inv(store, JoinTable(t, r, s), Subscribe(channels, r, s))
    ensures Subscribe(channels, r, s)[r] == JoinTable(t, r, s)[r].Keys
    ensures s in UsersOf(t, r) ==> JoinTable(t, r, s) == t
  {
    if s in UsersOf(t, r) {
      assert t[r][s := DefaultColour] == t[r];
    }
  }

  // ---------------------------------------------------------------------------
  // Leaving one room

  lemma LeaveKeepsInv(store: set<RoomId>, t: Table, channels: Channels, r: RoomId, s: SocketId)
    requires Inv(store, t, channels)
    ensures Inv(store, LeaveTable(t, r, s), Unsubscribe(channels, r, s))
    ensures Unsubscribe(Unsubscribe(channels, r, s), r, s) == Unsubscribe(channels, r, s)
    ensures r in t ==> channels[r] == t[r].Keys
    ensures r !in t ==> Unsubscribe(channels, r, s) == channels
  {
    if r in t {
      assert (t[r] - {s}).Keys == t[r].Keys - {s};
      assert t[r] - {s} == map[] <==> t[r].Keys - {s} == {};
    }
    var once := Unsubscribe(channels, r, s);
    if r in once {
      assert once[r] - {s} == once[r];
      assert once[r := once[r]] == once;
    }
  }

  /** A socket that is not in a room leaving it changes no entry, and the room still hears its unchanged count. */
  lemma NonMemberLeave(t: Table, r: RoomId, s: SocketId, audience: set<SocketId>)
    requires r in t && s !in t[r] && t[r] != map[]
    ensures LeaveTable(t, r, s) == t
    ensures LeaveEmits(t, r, s, audience) == [ToRoom(r, audience, Presence(t[r]))]
  {
    assert t[r] - {s} == t[r];
    assert t[r := t[r]] == t;
  }

  // ---------------------------------------------------------------------------
  // Leaving many rooms: the disconnect loop

  /** Leaving a list of rooms one after another touches only those rooms, each as a single leave would. */
  lemma {:induction false} LeaveManyIsAfterLeaving(t: Table, s: SocketId, rooms: seq<RoomId>)
    ensures LeaveMany(t, s, rooms) == AfterLeaving(t, s, rooms)
  {
    if rooms != [] {
      var init, r := rooms[..|rooms| - 1], rooms[|rooms| - 1];
      LeaveManyIsAfterLeaving(t, s, init);
      var before := AfterLeaving(t, s, init);
      var after := LeaveTable(before, r, s);
      var want := AfterLeaving(t, s, rooms);
      assert forall q :: q in rooms <==> q in init || q == r;
      forall q | q != r
        ensures (q in after <==> q in want) && (q in after ==> after[q] == want[q])
      {
      }
      assert (r in after <==> r in want) && (r in after ==> after[r] == want[r]);
      assert after == want;
    }
  }

  /**
   * Leaving, once each, exactly the rooms a socket belongs to takes it out of
   * every room and deletes exactly the rooms it was alone in.
   */
  lemma {:induction false} LeavingEveryRoomRemovesSocket(t: Table, s: SocketId, rooms: seq<RoomId>)
    requires NoEmptyRooms(t)
    requires forall r :: r in rooms <==> r in t && s in t[r]
    ensures LeaveMany(t, s, rooms) == WithoutSocket(t, s)
    ensures forall r :: r in LeaveMany(t, s, rooms) ==> s !in LeaveMany(t, s, rooms)[r]
  {
    LeaveManyIsAfterLeaving(t, s, rooms);
    forall r | r in t && r !in rooms
      ensures t[r] - {s} == t[r]
    {
    }
    assert AfterLeaving(t, s, rooms) == WithoutSocket(t, s);
  }

  /** Other sockets keep exactly the memberships and colours they had when `s` leaves any list of rooms. */
  lemma {:induction false} LeavingKeepsOtherSockets(t: Table, s: SocketId, rooms: seq<RoomId>, r: RoomId, o: SocketId)
    requires o != s
    ensures var t' := LeaveMany(t, s, rooms);
      (r in t' && o in t'[r]) <==> (r in t && o in t[r])
    ensures var t' := LeaveMany(t, s, rooms);
      r in t' && o in t'[r] ==> t'[r][o] == t[r][o]
  {
    LeaveManyIsAfterLeaving(t, s, rooms);
    if r in t && o in t[r] && r in rooms {
      assert o in t[r] - {s};
    }
  }

  /** A room not yet visited by the loop is as it was, and no entry has become empty. */
  lemma {:induction false} NotYetLeft(t: Table, s: SocketId, rooms: seq<RoomId>, r: RoomId)
    requires NoEmptyRooms(t) && r in t && r !in rooms
    ensures r in LeaveMany(t, s, rooms) && LeaveMany(t, s, rooms)[r] == t[r]
    ensures NoEmptyRooms(LeaveMany(t, s, rooms))
  {
    LeaveManyIsAfterLeaving(t, s, rooms);
  }

  /** The bookkeeping of the disconnect loop over the entries of `t` still `pending`, having left the rooms in `left`. */
  predicate DisconnectProgress(t: Table, s: SocketId, pending: set<RoomId>, left: seq<RoomId>)
  {
    && pending <= t.Keys
    && NoRepeats(left)
    && (forall r :: r in pending ==> r !in left)
    && (forall r :: r in left ==> r in t && s in t[r])
    && (forall r :: r in t && s in t[r] ==> r in left || r in pending)
  }

  /** Visiting one more pending entry, and leaving it exactly when `s` is a member, keeps the bookkeeping. */
  lemma DisconnectProgressStep(t: Table, s: SocketId, pending: set<RoomId>, left: seq<RoomId>, r: RoomId)
    requires DisconnectProgress(t, s, pending, left) && r in pending
    ensures s in t[r] ==> DisconnectProgress(t, s, pending - {r}, left + [r])
    ensures s !in t[r] ==> DisconnectProgress(t, s, pending - {r}, left)
  {
  }

  /**
   * One turn of the disconnect loop: leaving room `r` next extends the table
   * and the emitted updates by one leave, whose audience (socket.io having
   * dropped `s` already) is the room's remaining users.
   */
  lemma DisconnectStep(t: Table, channels: Channels, s: SocketId, left: seq<RoomId>, r: RoomId, sent: seq<Emit>)
    requires Agree(t, channels) && r in t
    requires r in LeaveMany(t, s, left) && LeaveMany(t, s, left)[r] == t[r]
    ensures LeaveMany(t, s, left + [r]) == LeaveTable(LeaveMany(t, s, left), r, s)
    ensures var all := UnsubscribeAll(channels, s);
      sent + DisconnectEmits(t, s, left + [r])
      == (sent + DisconnectEmits(t, s, left)) + LeaveEmits(LeaveMany(t, s, left), r, s, if r in all then all[r] else {})
    ensures Unsubscribe(UnsubscribeAll(channels, s), r, s) == UnsubscribeAll(channels, s)
  {
    assert (left + [r])[..|left|] == left;
    assert (t[r] - {s}).Keys == t[r].Keys - {s};
    assert t[r] - {s} == map[] <==> t[r].Keys - {s} == {};
    var all := UnsubscribeAll(channels, s);
    if r in all {
      assert all[r] - {s} == all[r];
      assert all[r := all[r]] == all;
    }
  }

  /** Removing `s` from every room on both sides keeps the invariant. */
  lemma DisconnectKeepsInv(store: set<RoomId>, t: Table, channels: Channels, s: SocketId)
    requires Inv(store, t, channels)
    ensures Inv(store, WithoutSocket(t, s), UnsubscribeAll(channels, s))
    ensures forall r :: r in UnsubscribeAll(channels, s) ==> s !in UnsubscribeAll(channels, s)[r]
  {
    forall r | r in t
      ensures (t[r] - {s}).Keys == channels[r] - {s}
      ensures t[r] - {s} == map[] <==> channels[r] - {s} == {}
    {
      assert (t[r] - {s}).Keys == t[r].Keys - {s};
    }
  }

  // ---------------------------------------------------------------------------
  // The server state

  /** The in-memory state of the socket server. */
  class Hub {
    /** Ids of the rooms stored in the database. */
    var store: set<RoomId>
    /** `roomsMeta`. */
    var roomsMeta: Table
    /** socket.io's own room membership, which decides who receives `io.to(room)` messages. */
    var channels: Channels
    /** Every message sent so far, in order. */
    var outbox: seq<Emit>

    ghost predicate Valid()
      reads this
    {
      Inv(store, roomsMeta, channels)
    }

    function Audience(r: RoomId): set<SocketId>
      reads this
    {
      if r in channels then channels[r] else {}
    }

    constructor (store: set<RoomId>)
      requires "" !in store
      ensures Valid()
      ensures this.store == store && roomsMeta == map[] && channels == map[] && outbox == []
    {
      this.store := store;
      roomsMeta := map[];
      channels := map[];
      outbox := [];
    }

    /** A room saved by the join route while the server runs becomes one `Room.findOne` can find. */
    method RoomCreated(id: RoomId)
      requires Valid() && id != ""
      modifies this
      ensures Valid() && store == old(store) + {id}
      ensures roomsMeta == old(roomsMeta) && channels == old(channels) && outbox == old(outbox)
    {
      store := store + {id};
    }

    /** The `join-room` handler. */
    method JoinRoom(sid: SocketId, roomId: RoomId)
      requires Valid()
      modifies this
      ensures Valid() && store == old(store)
      ensures roomId !in store ==>
        && roomsMeta == old(roomsMeta) && channels == old(channels)
        && outbox == old(outbox) + [ToSocket(sid, Error(RoomNotFound))]
      ensures roomId in store ==>
        && roomsMeta == JoinTable(old(roomsMeta), roomId, sid)
        && sid in roomsMeta[roomId]
        && (sid in UsersOf(old(roomsMeta), roomId) ==> roomsMeta == old(roomsMeta))
        && Audience(roomId) == roomsMeta[roomId].Keys
        && outbox == old(outbox) + [ToRoom(roomId, Audience(roomId), PresenceUpdate(|roomsMeta[roomId]|, roomsMeta[roomId]))]
    {
      if roomId !in store {
        outbox := outbox + [ToSocket(sid, Error(RoomNotFound))];
        return;
      }
      JoinKeepsInv(store, roomsMeta, channels, roomId, sid);
      channels := Subscribe(channels, roomId, sid);
      var users := if roomId in roomsMeta then roomsMeta[roomId] else map[];
      roomsMeta := roomsMeta[roomId := users[sid := DefaultColour]];
      outbox := outbox + [ToRoom(roomId, Audience(roomId), Presence(roomsMeta[roomId]))];
    }

    /**
     * `leaveRoom`, the helper both `leave-room` and `disconnect` call. It
     * needs only that no entry is empty: `disconnect` calls it after socket.io
     * has already taken the socket out of its rooms.
     */
    method LeaveRoom(sid: SocketId, roomId: Option<RoomId>)
      requires NoEmptyRooms(roomsMeta)
      modifies this
      ensures store == old(store)
      ensures !Truthy(roomId) || roomId.value !in old(roomsMeta) ==>
        roomsMeta == old(roomsMeta) && channels == old(channels) && outbox == old(outbox)
      ensures Truthy(roomId) && roomId.value in old(roomsMeta) ==>
        && roomsMeta == LeaveTable(old(roomsMeta), roomId.value, sid)
        && channels == Unsubscribe(old(channels), roomId.value, sid)
        && outbox == old(outbox) + LeaveEmits(old(roomsMeta), roomId.value, sid, old(Audience(roomId.value)))
    {
      if !Truthy(roomId) || roomId.value !in roomsMeta {
        return;
      }
      var r := roomId.value;
      var users := roomsMeta[r] - {sid};
      if |users| == 0 {
        roomsMeta := roomsMeta - {r};
      } else {
        roomsMeta := roomsMeta[r := users];
        outbox := outbox + [ToRoom(r, Audience(r), Presence(users))];
      }
      channels := Unsubscribe(channels, r, sid);
    }

    /** The `leave-room` handler: leave, leave the socket.io room again, and acknowledge. */
    method LeaveRoomRequest(sid: SocketId, roomId: Option<RoomId>) returns (ack: Ack)
      requires Valid()
      modifies this
      ensures Valid() && store == old(store)
      ensures ack == Ack("ok")
      ensures roomsMeta == if Truthy(roomId) then LeaveTable(old(roomsMeta), roomId.value, sid) else old(roomsMeta)
      ensures Truthy(roomId) ==> sid !in UsersOf(roomsMeta, roomId.value) && sid !in Audience(roomId.value)
      ensures Truthy(roomId) && roomId.value in old(roomsMeta) ==>
        outbox == old(outbox) + LeaveEmits(old(roomsMeta), roomId.value, sid, old(roomsMeta)[roomId.value].Keys)
      ensures Truthy(roomId) && roomId.value in old(roomsMeta) && sid !in old(roomsMeta)[roomId.value] ==>
        var r := roomId.value;
        roomsMeta == old(roomsMeta) && outbox == old(outbox) + [ToRoom(r, old(roomsMeta)[r].Keys, Presence(old(roomsMeta)[r]))]
      ensures !(Truthy(roomId) && roomId.value in old(roomsMeta)) ==> outbox == old(outbox)
    {
      if Truthy(roomId) {
        var r := roomId.value;
        LeaveKeepsInv(store, roomsMeta, channels, r, sid);
        if r in roomsMeta && sid !in roomsMeta[r] {
          NonMemberLeave(roomsMeta, r, sid, channels[r]);
        }
      }
      LeaveRoom(sid, roomId);
      if roomId.Some? {
        channels := Unsubscribe(channels, roomId.value, sid);
      }
      ack := Ack("ok");
    }

    /**
     * The `disconnect` handler. socket.io takes the socket out of all its
     * rooms first; the loop then visits every entry of `roomsMeta` once, in an
     * order the model leaves open, and calls `leaveRoom` for each room the
     * socket belongs to. `left` lists those rooms in the order visited.
     */
    method Disconnect(sid: SocketId) returns (left: seq<RoomId>)
      requires Valid()
      modifies this
      ensures Valid() && store == old(store)
      ensures NoRepeats(left)
      ensures forall r :: r in left <==> r in old(roomsMeta) && sid in old(roomsMeta)[r]
      ensures roomsMeta == LeaveMany(old(roomsMeta), sid, left) == WithoutSocket(old(roomsMeta), sid)
      ensures forall r :: r in roomsMeta ==> sid !in roomsMeta[r] && sid !in Audience(r)
      ensures outbox == old(outbox) + DisconnectEmits(old(roomsMeta), sid, left)
    {
      ghost var t0, ch0, out0 := roomsMeta, channels, outbox;
      DisconnectKeepsInv(store, t0, ch0, sid);
      channels := UnsubscribeAll(channels, sid);
      var pending := roomsMeta.Keys;
      left := [];
      while pending != {}
        invariant store == old(store)
        invariant DisconnectProgress(t0, sid, pending, left)
        invariant channels == UnsubscribeAll(ch0, sid)
        invariant roomsMeta == LeaveMany(t0, sid, left)
        invariant outbox == out0 + DisconnectEmits(t0, sid, left)
        decreases pending
      {
        var r :| r in pending;
        DisconnectProgressStep(t0, sid, pending, left, r);
        NotYetLeft(t0, sid, left, r);
        pending := pending - {r};
        if sid in roomsMeta[r] {
          DisconnectStep(t0, ch0, sid, left, r, out0);
          LeaveRoom(sid, Some(r));
          left := left + [r];
        }
      }
      LeavingEveryRoomRemovesSocket(t0, sid, left);
    }
  }

  // ---------------------------------------------------------------------------
  // `roomsMeta` as written: a plain object, which inherits Object.prototype

  /**
   * The methods every plain object inherits from Object.prototype, which a
   * missing own key falls through to. `__proto__` is left out: it is not
   * alphanumeric, so no room id the join route accepts can be it.
   */
  const ObjectPrototypeMembers: set<string> :=
    {"constructor", "hasOwnProperty", "isPrototypeOf", "propertyIsEnumerable",
     "toLocaleString", "toString", "valueOf",
     "__defineGetter__", "__defineSetter__", "__lookupGetter__", "__lookupSetter__"}

  /** A property of `roomsMeta`: a room entry, or an inherited method stored under its own name. */
  datatype Slot = Entry(users: Users) | Inherited(name: string)

  /** `roomsMeta` as a plain object: its own properties. */
  type PlainTable = map<RoomId, Slot>

  /**
   * How a handler run ended: normally, or by a thrown TypeError, with the
   * object as it was at the throw. What later handlers see after a throw
   * depends on whether the process survives it.
   */
  datatype Run = Completed(obj: PlainTable) | Threw(obj: PlainTable)

  /** Reading `roomsMeta[key]`: the own property, else the inherited method, else undefined. */
  function Lookup(obj: PlainTable, key: RoomId): (v: Option<Slot>)
    ensures key in obj ==> v == Some(obj[key])
    ensures key !in obj ==> (v.Some? <==> key in ObjectPrototypeMembers)
  {
    if key in obj then Some(obj[key])
    else if key in ObjectPrototypeMembers then Some(Inherited(key))
    else None
  }

  /**
   * The table updates of `join-room` as written, for a room that exists:
   * `roomsMeta[roomId] || { users: {} }` keeps any truthy value, an
   * inherited method included, and writing to `.users[socket.id]` of a
   * method throws, since its `users` is undefined.
   */
  function JoinAsWritten(obj: PlainTable, roomId: RoomId, sid: SocketId): (run: Run)
    ensures Lookup(obj, roomId).None? ==> run == Completed(obj[roomId := Entry(map[sid := DefaultColour])])
    ensures run.Threw? <==> Lookup(obj, roomId).Some? && Lookup(obj, roomId).value.Inherited?
  {
    var slot := match Lookup(obj, roomId) case Some(v) => v case None => Entry(map[]);
    match slot
    case Entry(users) => Completed(obj[roomId := Entry(users[sid := DefaultColour])])
    case Inherited(_) => Threw(obj[roomId := slot])
  }

  /**
   * The `disconnect` loop as written, over the own keys of `roomsMeta` in
   * enumeration `order`: reading `.users[socket.id]` of an inherited method
   * throws, and the rooms after it are not visited.
   */
  function DisconnectAsWritten(obj: PlainTable, order: seq<RoomId>, sid: SocketId): (run: Run)
    ensures (forall r :: r in obj ==> obj[r].Entry?) ==> run.Completed?
    decreases |order|
  {
    if order == [] then Completed(obj)
    else
      var r := order[0];
      if r !in obj then DisconnectAsWritten(obj, order[1..], sid)
      else match obj[r]
        case Inherited(_) => Threw(obj)
        case Entry(users) =>
          if sid !in users then DisconnectAsWritten(obj, order[1..], sid)
          else if users - {sid} == map[] then DisconnectAsWritten(obj - {r}, order[1..], sid)
          else DisconnectAsWritten(obj[r := Entry(users - {sid})], order[1..], sid)
  }

  /**
   * "toString" is a room id the join route accepts. Joining it stores the
   * inherited method as an own property of `roomsMeta` and throws; from then
   * on, a disconnect that enumerates "toString" first throws there and leaves
   * the socket recorded in the rooms that come after it.
   */
  lemma PrototypeRoomIdBreaksJoin(sid: SocketId)
    ensures RoomRoutes.ValidateJoin(Some("toString")) == RoomRoutes.Accepted("toString")
    ensures JoinAsWritten(map[], "toString", sid) == Threw(map["toString" := Inherited("toString")])
    ensures var obj := map["toString" := Inherited("toString"), "abcdef" := Entry(map[sid := DefaultColour])];
      DisconnectAsWritten(obj, ["toString", "abcdef"], sid) == Threw(obj)
      && sid in obj["abcdef"].users
  {
    assert !IsSpace('t') && !IsSpace('g');
    assert TrimStart("toString") == "toString";
    assert TrimEnd("toString") == "toString";
    assert RoomRoutes.WellFormedRoomId("toString");
  }
}
