/**
 * The join form's submit handler: trim the typed id, check it, and on success
 * post it to `/api/rooms/join` and navigate to the room page.
 */
module RoomJoin {
  import opened Common
  import opened JsStrings
  import RoomRoutes
  import RoomModel

  const InvalidIdAlert :=
    "Room ID must be between 6 and 8 characters long and must contain only alphanumeric characters."
  const ConnectionAlert := "Error connecting to server. Please try again later."

  /** The client's test on the trimmed id: a length check and the pattern `^[a-zA-Z0-9]{3,20}$`. */
  predicate ClientAccepts(refined: string)
  {
    !(|refined| < 6 || |refined| > 8 || !MatchAlnumRepeat(refined, 3, 20))
  }

  /** How the `fetch` to the join endpoint settled. */
  datatype FetchResult = Responded(ok: bool) | NetworkFailure

  /** What the handler does to the outside world, in order. */
  datatype Effect = Alert(text: string) | PostJoin(roomId: string) | Navigate(path: string)

  /** `handleJoinRoom` for the typed text `input`; `fetched` is how the request settled. */
  function HandleJoinRoom(input: string, fetched: FetchResult): (effects: seq<Effect>)
    ensures !ClientAccepts(Trim(input)) <==> effects == [Alert(InvalidIdAlert)]
    ensures ClientAccepts(Trim(input)) ==> |effects| == 2 && effects[0] == PostJoin(Trim(input))
  {
    var refined := Trim(input);
    if |refined| < 6 || |refined| > 8 || !MatchAlnumRepeat(refined, 3, 20) then [Alert(InvalidIdAlert)]
    else
      [PostJoin(refined)] +
      match fetched
      case Responded(_) => [Navigate("/room/" + refined)]
      case NetworkFailure => [Alert(ConnectionAlert)]
  }

  /**
   * The app navigates, to "/room/" followed by the trimmed id, exactly when
   * the id passed the check and the server answered, whether or not the
   * answer was ok; a failed request alerts instead.
   */
  lemma NavigatesAfterAnyAnswer(input: string, fetched: FetchResult)
    ensures var effects := HandleJoinRoom(input, fetched);
      && (Navigate("/room/" + Trim(input)) in effects <==> ClientAccepts(Trim(input)) && fetched.Responded?)
      && (forall e :: e in effects && e.Navigate? ==> e.path == "/room/" + Trim(input))
      && (ClientAccepts(Trim(input)) && fetched.NetworkFailure? ==> effects[1] == Alert(ConnectionAlert))
  {
  }

  /** The `{3,20}` bound is redundant: the client accepts exactly the ids the server calls well-formed. */
  lemma {:induction false} ClientRuleIsServerRule(refined: string)
    ensures ClientAccepts(refined) <==> RoomRoutes.WellFormedRoomId(refined)
  {
    MatchAlnumRepeatIff(refined, 3, 20);
  }

  /**
   * The client sends a request for `input` exactly when the server's
   * validation would accept `input` as typed; and the trimmed id it sends is
   * accepted by the server as it is.
   */
  lemma {:induction false} ClientAndServerAgree(input: string, fetched: FetchResult)
    ensures HandleJoinRoom(input, fetched)[0].PostJoin? <==> RoomRoutes.ValidateJoin(Some(input)).Accepted?
    ensures HandleJoinRoom(input, fetched)[0].PostJoin? ==>
      RoomRoutes.ValidateJoin(Some(Trim(input))) == RoomRoutes.Accepted(Trim(input))
  {
    ClientRuleIsServerRule(Trim(input));
    TrimIdempotent(input);
  }

  /**
   * The page the client navigates to names the room the server stored:
   * whatever the store held, after the server handles the request body the
   * room whose id follows "/room/" exists.
   */
  lemma {:induction false} NavigationTargetIsStored(input: string, rooms: map<RoomId, RoomModel.Room>, created: int, touched: int)
    requires ClientAccepts(Trim(input))
    ensures var sent := HandleJoinRoom(input, Responded(true))[0].roomId;
      && HandleJoinRoom(input, Responded(true)) == [PostJoin(sent), Navigate("/room/" + sent)]
      && sent in RoomRoutes.JoinOutcome(rooms, Some(sent), created, touched).rooms
  {
    ClientAndServerAgree(input, Responded(true));
    RoomRoutes.FindOrCreate(rooms, Some(Trim(input)), created, touched);
  }
}
