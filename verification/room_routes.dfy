/**
 * The HTTP room routes: `POST /join` validates a room id and finds or creates
 * the room; `GET /:roomId` looks a room up. The document store is a map from
 * room id to room document held by a `RoomStore` object.
 */
module RoomRoutes {
  import opened Common
  import opened JsStrings
  import opened RoomModel

  const MinRoomIdLength: nat := 6
  const MaxRoomIdLength: nat := 8

  /** What the server accepts as a (trimmed) room id: 6 to 8 characters of `[a-zA-Z0-9]`. */
  predicate WellFormedRoomId(t: string)
  {
    MinRoomIdLength <= |t| <= MaxRoomIdLength && AllAlnum(t)
  }

  /** The JSON body of a response. */
  datatype Body =
    | ErrorField(error: string)
    | MsgField(msg: string)
    | Summary(roomId: RoomId, createdAt: int, lastActivity: int)
    | Document(room: Room)

  datatype Response = Response(status: nat, body: Body)

  const RoomIdRequired := Response(400, ErrorField("roomId required"))
  const InvalidRoomId := Response(400, MsgField("invalid roomId"))
  const NotFound := Response(404, MsgField("not found"))

  /**
   * The validation of `POST /join`: the untrimmed id when it is accepted,
   * otherwise the 400 response.
   */
  function ValidateJoin(roomId: Option<string>): (r: Result)
    ensures r == Rejected(RoomIdRequired) <==> !Truthy(roomId)
    ensures r.Accepted? <==> Truthy(roomId) && WellFormedRoomId(Trim(roomId.value))
    ensures r.Rejected? ==> r.response == RoomIdRequired || r.response == InvalidRoomId
    ensures r.Accepted? ==> r.roomId == roomId.value
  {
    if !Truthy(roomId) then Rejected(RoomIdRequired)
    else
      var refined := Trim(roomId.value);
      MatchAlnumRepeatIff(refined, 6, 8);
      if |refined| < 6 || |refined| > 8 || !MatchAlnumRepeat(refined, 6, 8) then Rejected(InvalidRoomId)
      else Accepted(roomId.value)
  }

  datatype Result = Accepted(roomId: RoomId) | Rejected(response: Response)

  /** The response that echoes a stored room's metadata. */
  function SummaryOf(room: Room): Response
  {
    Response(200, Summary(room.roomId, room.createdAt, room.lastActivity))
  }

  /** Every document is stored under its own, non-empty id. */
  predicate WellKeyed(rooms: map<RoomId, Room>)
  {
    forall k :: k in rooms ==> k != "" && rooms[k].roomId == k
  }

  /** The store and response after `POST /join` with body field `roomId`; `created` and `touched` are the two clock readings. */
  datatype Outcome = Outcome(rooms: map<RoomId, Room>, response: Response)

  function JoinOutcome(rooms: map<RoomId, Room>, roomId: Option<string>, created: int, touched: int): (o: Outcome)
    ensures o.response.status == 400 <==> ValidateJoin(roomId).Rejected?
    ensures ValidateJoin(roomId).Rejected? ==> o == Outcome(rooms, ValidateJoin(roomId).response)
  {
    match ValidateJoin(roomId)
    case Rejected(resp) => Outcome(rooms, resp)
    case Accepted(id) =>
      var room := if id in rooms then rooms[id] else Room(id, created, touched, []);
      Outcome(rooms[id := room], SummaryOf(room))
  }

  /**
   * An accepted join finds the room stored under the untrimmed id or creates
   * it with an empty log and both times set from the clock; no other room
   * changes, and the response echoes the stored room.
   */
  lemma FindOrCreate(rooms: map<RoomId, Room>, roomId: Option<string>, created: int, touched: int)
    requires ValidateJoin(roomId).Accepted?
    ensures var o := JoinOutcome(rooms, roomId, created, touched);
      var id := roomId.value;
      && o.response.status == 200
      && o.rooms.Keys == rooms.Keys + {id}
      && (forall k :: k in rooms ==> o.rooms[k] == rooms[k])
      && (id !in rooms ==> o.rooms[id] == Room(id, created, touched, []))
      && o.response == SummaryOf(o.rooms[id])
  {
  }

  /** Every room is stored under its own id, and no id is empty, before and after a join. */
  lemma JoinKeepsWellKeyed(rooms: map<RoomId, Room>, roomId: Option<string>, created: int, touched: int)
    requires WellKeyed(rooms)
    ensures WellKeyed(JoinOutcome(rooms, roomId, created, touched).rooms)
  {
  }

  /** A second join with the same body changes nothing and answers as the first did. */
  lemma JoinIdempotent(rooms: map<RoomId, Room>, roomId: Option<string>, c1: int, t1: int, c2: int, t2: int)
    ensures var first := JoinOutcome(rooms, roomId, c1, t1);
      JoinOutcome(first.rooms, roomId, c2, t2) == first
  {
  }

  /** The store key is the untrimmed id: a body with surrounding spaces creates a room under the padded id. */
  lemma UntrimmedIdIsStored(created: int, touched: int)
    ensures var o := JoinOutcome(map[], Some(" abc123"), created, touched);
      && o.response.status == 200
      && " abc123" in o.rooms && "abc123" !in o.rooms
  {
    assert !IsSpace('a') && !IsSpace('3');
    assert TrimStart("abc123") == "abc123";
    assert " abc123"[1..] == "abc123";
    assert TrimStart(" abc123") == "abc123";
    assert TrimEnd("abc123") == "abc123";
    assert WellFormedRoomId("abc123");
    assert ValidateJoin(Some(" abc123")) == Accepted(" abc123");
  }

  class RoomStore {
    var rooms: map<RoomId, Room>

    ghost predicate Valid()
      reads this
    {
      WellKeyed(rooms)
    }

    constructor ()
      ensures Valid() && rooms == map[]
    {
      rooms := map[];
    }

    /** `POST /join`: validate, then find the room or create it. */
    method Join(roomId: Option<string>, created: int, touched: int) returns (response: Response)
      requires Valid()
      modifies this
      ensures Valid()
      ensures Outcome(rooms, response) == JoinOutcome(old(rooms), roomId, created, touched)
    {
      if !Truthy(roomId) {
        return RoomIdRequired;
      }
      JoinKeepsWellKeyed(rooms, roomId, created, touched);
      var refined := Trim(roomId.value);
      MatchAlnumRepeatIff(refined, 6, 8);
      if |refined| < 6 || |refined| > 8 || !MatchAlnumRepeat(refined, 6, 8) {
        return InvalidRoomId;
      }
      FindOrCreate(rooms, roomId, created, touched);
      var id := roomId.value;
      var room: Room;
      if id in rooms {
        room := rooms[id];
      } else {
        room := Room(id, created, touched, []);
        rooms := rooms[id := room];
      }
      response := SummaryOf(room);
    }

    /** `GET /:roomId`: the whole document, or 404 exactly when no room has that id; the id is not validated. */
    method Get(roomId: RoomId) returns (response: Response)
      ensures response.status == 404 <==> roomId !in rooms
      ensures roomId !in rooms ==> response == NotFound
      ensures roomId in rooms ==> response == Response(200, Document(rooms[roomId]))
    {
      if roomId !in rooms {
        return NotFound;
      }
      response := Response(200, Document(rooms[roomId]));
    }
  }
}
