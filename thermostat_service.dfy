/**
 * `ThermostatService.set_room_temperature`: validate the inputs, resolve the home,
 * look up the room's display name (for log messages only), read the room's
 * measured temperature from the home status, and either report that the room is
 * already within 0.1 degrees of the corrected temperature or post one
 * true-temperature override.
 */
module Thermostat {
  import opened Wrappers
  import opened Errors
  import opened ApiClient
  import opened Homes
  import Validators

  /** `ApiEndpoints.TRUE_TEMPERATURE` */
  const TrueTemperaturePath: string := "/api/truetemperature"

  /** Below this difference the override is skipped. */
  const Tolerance: real := 0.1

  function Abs(x: real): real {
    if x < 0.0 then -x else x
  }

  // ---------------------------------------------------------------------------
  // _get_room_name
  // ---------------------------------------------------------------------------

  /** How a scan of the homes-data payload ends: a name, no match, or a missing "id" (a `KeyError`). */
  datatype Search = Found(name: string) | Missing | Malformed

  /** Home i of `homes` has id `homeId` and its room j has id `roomId`. */
  predicate HasRoom(homes: seq<Home>, i: int, j: int, homeId: string, roomId: string) {
    && 0 <= i < |homes|
    && 0 <= j < |homes[i].rooms|
    && homes[i].id == Some(homeId)
    && homes[i].rooms[j].id == Some(roomId)
  }

  /** Every room has an id, and none of them is `roomId`: the inner loop runs to its end. */
  predicate RoomsPassed(rooms: seq<RoomInfo>, roomId: string) {
    forall j :: 0 <= j < |rooms| ==> rooms[j].id.Some? && rooms[j].id != Some(roomId)
  }

  /** The outer loop moves past this home without returning. */
  predicate HomePassed(home: Home, homeId: string, roomId: string) {
    home.id.Some? && (home.id == Some(homeId) ==> RoomsPassed(home.rooms, roomId))
  }

  /** The inner loop of `_get_room_name`, over the rooms of a matching home. */
  function SearchRooms(rooms: seq<RoomInfo>, roomId: string): (s: Search)
    ensures s.Missing? <==> RoomsPassed(rooms, roomId)
    ensures s.Found? ==> exists j :: 0 <= j < |rooms| && rooms[j].id == Some(roomId)
                                   && s.name == rooms[j].name.GetOr(roomId)
  {
    if rooms == [] then Missing
    else match rooms[0].id
      case None => Malformed
      case Some(id) =>
        if id == roomId then Found(rooms[0].name.GetOr(roomId))
        else
          var s := SearchRooms(rooms[1..], roomId);
          assert s.Missing? <==> RoomsPassed(rooms, roomId) by {
            if RoomsPassed(rooms[1..], roomId) {
              assert forall j :: 1 <= j < |rooms| ==> rooms[j] == rooms[1..][j - 1];
            }
          }
          s
  }

  /** The outer loop of `_get_room_name`, over the homes. */
  function SearchHomes(homes: seq<Home>, homeId: string, roomId: string): (s: Search)
    ensures s.Missing? <==> forall i :: 0 <= i < |homes| ==> HomePassed(homes[i], homeId, roomId)
    ensures s.Found? ==> exists i, j :: HasRoom(homes, i, j, homeId, roomId)
                                      && s.name == homes[i].rooms[j].name.GetOr(roomId)
  {
    if homes == [] then Missing
    else match homes[0].id
      case None => Malformed
      case Some(id) =>
        var inner := if id == homeId then SearchRooms(homes[0].rooms, roomId) else Missing;
        if !inner.Missing? then inner
        else
          var s := SearchHomes(homes[1..], homeId, roomId);
          assert forall i :: 1 <= i < |homes| ==> homes[i] == homes[1..][i - 1];
          assert s.Found? ==> exists i, j :: HasRoom(homes, i, j, homeId, roomId)
                                          && s.name == homes[i].rooms[j].name.GetOr(roomId) by {
            if s.Found? {
              var i, j :| HasRoom(homes[1..], i, j, homeId, roomId)
                          && s.name == homes[1..][i].rooms[j].name.GetOr(roomId);
              assert HasRoom(homes, i + 1, j, homeId, roomId);
            }
          }
          s
  }

  /**
   * `_get_room_name(home_id, room_id)`: the name of the first room with id `roomId`
   * inside a home with id `homeId`; `roomId` itself when that room has no name,
   * when nothing matches, or when the payload is malformed.
   */
  function RoomName(data: HomesData, homeId: string, roomId: string): (name: string)
    ensures name == roomId || exists i, j :: data.homes.Some? && HasRoom(data.homes.value, i, j, homeId, roomId)
                                          && data.homes.value[i].rooms[j].name == Some(name)
  {
    match data.homes
    case None => roomId
    case Some(homes) =>
      match SearchHomes(homes, homeId, roomId)
      case Found(n) =>
        assert n == roomId || exists i, j :: HasRoom(homes, i, j, homeId, roomId)
                                           && homes[i].rooms[j].name == Some(n) by {
          var i, j :| HasRoom(homes, i, j, homeId, roomId) && n == homes[i].rooms[j].name.GetOr(roomId);
        }
        n
      case _ => roomId
  }

  /**
   * The room name `set_room_temperature` logs with: `_get_room_name`'s answer, or
   * `roomId` when fetching the homes data failed.
   */
  function RoomLabel(homesData: Result<HomesData, Error>, homeId: string, roomId: string): string {
    match homesData
    case Ok(data) => RoomName(data, homeId, roomId)
    case Err(_) => roomId
  }

  /**
   * `_get_room_name` returns the name of the FIRST match: the first home with id
   * `homeId` holding a room with id `roomId`, and in it the first such room,
   * provided every entry scanned before it has an id.
   */
  lemma {:induction false} RoomNameFirstMatch(homes: seq<Home>, homeId: string, roomId: string, i: nat, j: nat)
    requires HasRoom(homes, i, j, homeId, roomId)
    requires forall k :: 0 <= k < i ==> HomePassed(homes[k], homeId, roomId)
    requires RoomsPassed(homes[i].rooms[..j], roomId)
    ensures RoomName(HomesData(Some(homes)), homeId, roomId) == homes[i].rooms[j].name.GetOr(roomId)
  {
    SearchHomesFirstMatch(homes, homeId, roomId, i, j);
  }

  lemma {:induction false} SearchRoomsFirstMatch(rooms: seq<RoomInfo>, roomId: string, j: nat)
    requires j < |rooms| && rooms[j].id == Some(roomId)
    requires RoomsPassed(rooms[..j], roomId)
    ensures SearchRooms(rooms, roomId) == Found(rooms[j].name.GetOr(roomId))
  {
    if j > 0 {
      assert rooms[..j][0] == rooms[0];
      assert rooms[1..][..j - 1] == rooms[..j][1..];
      SearchRoomsFirstMatch(rooms[1..], roomId, j - 1);
    }
  }

  lemma {:induction false} SearchHomesFirstMatch(homes: seq<Home>, homeId: string, roomId: string, i: nat, j: nat)
    requires HasRoom(homes, i, j, homeId, roomId)
    requires forall k :: 0 <= k < i ==> HomePassed(homes[k], homeId, roomId)
    requires RoomsPassed(homes[i].rooms[..j], roomId)
    ensures SearchHomes(homes, homeId, roomId) == Found(homes[i].rooms[j].name.GetOr(roomId))
  {
    if i == 0 {
      SearchRoomsFirstMatch(homes[0].rooms, roomId, j);
    } else {
      assert HomePassed(homes[0], homeId, roomId);
      assert forall k :: 0 <= k < i - 1 ==> homes[1..][k] == homes[k + 1];
      SearchHomesFirstMatch(homes[1..], homeId, roomId, i - 1, j);
    }
  }

  /**
   * `_get_room_name` falls back to `roomId` when the scan meets a home or room
   * without an "id" before any match (the `KeyError` it catches).
   */
  lemma {:induction false} RoomNameMalformed(homes: seq<Home>, homeId: string, roomId: string, i: nat)
    requires i < |homes|
    requires forall k :: 0 <= k < i ==> HomePassed(homes[k], homeId, roomId)
    requires homes[i].id.None? || (homes[i].id == Some(homeId) && SearchRooms(homes[i].rooms, roomId).Malformed?)
    ensures RoomName(HomesData(Some(homes)), homeId, roomId) == roomId
  {
    SearchHomesMalformed(homes, homeId, roomId, i);
  }

  lemma {:induction false} SearchHomesMalformed(homes: seq<Home>, homeId: string, roomId: string, i: nat)
    requires i < |homes|
    requires forall k :: 0 <= k < i ==> HomePassed(homes[k], homeId, roomId)
    requires homes[i].id.None? || (homes[i].id == Some(homeId) && SearchRooms(homes[i].rooms, roomId).Malformed?)
    ensures SearchHomes(homes, homeId, roomId) == Malformed
  {
    if i > 0 {
      assert HomePassed(homes[0], homeId, roomId);
      assert forall k :: 0 <= k < i - 1 ==> homes[1..][k] == homes[k + 1];
      SearchHomesMalformed(homes[1..], homeId, roomId, i - 1);
    }
  }

  // ---------------------------------------------------------------------------
  // set_room_temperature
  // ---------------------------------------------------------------------------

  /** The status rooms before the target: each has an id, and none is `roomId`. */
  predicate StatusRoomsPassed(rooms: seq<RoomStatus>, roomId: string) {
    forall k :: 0 <= k < |rooms| ==> rooms[k].id.Some? && rooms[k].id != Some(roomId)
  }

  /**
   * The loop over the status rooms: the measured temperature of the first room
   * with id `roomId`. `None` where the service raises `RoomNotFoundError`: no such
   * room, a room without "id" met first, or a missing or null temperature.
   */
  function MeasuredTemperature(rooms: seq<RoomStatus>, roomId: string): (t: Option<real>)
    ensures t.Some? ==> exists k :: 0 <= k < |rooms| && rooms[k].id == Some(roomId)
                                 && rooms[k].measured == t && StatusRoomsPassed(rooms[..k], roomId)
  {
    if rooms == [] then None
    else match rooms[0].id
      case None => None
      case Some(id) =>
        if id == roomId then
          assert rooms[..0] == [];
          rooms[0].measured
        else
          var t := MeasuredTemperature(rooms[1..], roomId);
          assert t.Some? ==> exists k :: 0 <= k < |rooms| && rooms[k].id == Some(roomId)
                                      && rooms[k].measured == t && StatusRoomsPassed(rooms[..k], roomId) by {
            if t.Some? {
              var k :| 0 <= k < |rooms[1..]| && rooms[1..][k].id == Some(roomId)
                       && rooms[1..][k].measured == t && StatusRoomsPassed(rooms[1..][..k], roomId);
              assert rooms[..k + 1] == [rooms[0]] + rooms[1..][..k];
            }
          }
          t
  }

  /** The room's current temperature in a home-status payload. */
  function CurrentTemperature(status: HomeStatus, roomId: string): Option<real> {
    match status.rooms
    case None => None
    case Some(rooms) => MeasuredTemperature(rooms, roomId)
  }

  /** The status lookup finds the first room with id `roomId` when every room before it has an id. */
  lemma {:induction false} MeasuredTemperatureFirstMatch(rooms: seq<RoomStatus>, roomId: string, k: nat)
    requires k < |rooms| && rooms[k].id == Some(roomId)
    requires StatusRoomsPassed(rooms[..k], roomId)
    ensures MeasuredTemperature(rooms, roomId) == rooms[k].measured
  {
    if k > 0 {
      assert rooms[..k][0] == rooms[0];
      assert rooms[1..][..k - 1] == rooms[..k][1..];
      MeasuredTemperatureFirstMatch(rooms[1..], roomId, k - 1);
    }
  }

  /** A status payload without a room `roomId` (every room having an id) yields no temperature. */
  lemma {:induction false} MeasuredTemperatureAbsent(rooms: seq<RoomStatus>, roomId: string)
    requires StatusRoomsPassed(rooms, roomId)
    ensures MeasuredTemperature(rooms, roomId) == None
  {
    if rooms != [] {
      assert StatusRoomsPassed(rooms[1..], roomId) by {
        forall k | 0 <= k < |rooms[1..]| ensures rooms[1..][k].id.Some? && rooms[1..][k].id != Some(roomId) {
          assert rooms[1..][k] == rooms[k + 1];
        }
      }
      MeasuredTemperatureAbsent(rooms[1..], roomId);
    }
  }

  /** The validators, in the order the service calls them: the first error raised, if any. */
  function InputError(roomId: string, corrected: real, homeId: Option<string>): (e: Option<Error>)
    ensures e.None? <==> && !Validators.IsBlank(roomId)
                         && Validators.MinTemperature <= corrected <= Validators.MaxTemperature
                         && (homeId.Some? ==> !Validators.IsBlank(homeId.value))
    ensures e.Some? ==> e.value == ValidationError(
              if Validators.IsBlank(roomId) then "room_id"
              else if !(Validators.MinTemperature <= corrected <= Validators.MaxTemperature) then "corrected_temperature"
              else "home_id")
  {
    var roomError := Validators.ValidateRoomId(roomId);
    var temperatureError := Validators.ValidateTemperature(corrected, "corrected_temperature");
    if roomError.Some? then roomError
    else if temperatureError.Some? then temperatureError
    else if homeId.Some? then Validators.ValidateHomeId(homeId.value)
    else None
  }

  /** The home the operation acts on: the given one, else the default home. */
  function ResolveHome(homeId: Option<string>, defaultHome: Result<string, Error>): Result<string, Error> {
    match homeId
    case Some(h) => Ok(h)
    case None => defaultHome
  }

  /** The JSON body of the true-temperature override. */
  function TrueTemperaturePayload(homeId: string, roomId: string, current: real, corrected: real): JsonObject {
    map["home_id" := Str(homeId), "room_id" := Str(roomId),
        "current_temperature" := Num(current), "corrected_temperature" := Num(corrected)]
  }

  /** The answer returned without a post when the room is already at the target. */
  function AlreadyAtTarget(timeServer: Scalar): JsonObject {
    map["status" := Str("ok"), "time_server" := timeServer]
  }

  /** What the service does once the inputs are valid and the home is known. */
  datatype Decision = Fail(error: Error) | Skip(answer: JsonObject) | Write(payload: JsonObject)

  function Decide(roomId: string, corrected: real, homeId: string, status: Result<HomeStatus, Error>): Decision {
    match status
    case Err(e) => Fail(e)
    case Ok(st) =>
      match CurrentTemperature(st, roomId)
      case None => Fail(RoomNotFoundError(roomId))
      case Some(current) =>
        if Abs(current - corrected) < Tolerance then Skip(AlreadyAtTarget(st.timeServer))
        else Write(TrueTemperaturePayload(homeId, roomId, current, corrected))
  }

  /** The body of the true-temperature post, when the operation makes one. */
  function PostedPayload(roomId: string, corrected: real, homeId: Option<string>,
                         defaultHome: Result<string, Error>, status: Result<HomeStatus, Error>): Option<JsonObject>
  {
    if InputError(roomId, corrected, homeId).Some? then None
    else match ResolveHome(homeId, defaultHome)
      case Err(_) => None
      case Ok(h) =>
        match Decide(roomId, corrected, h, status)
        case Write(payload) => Some(payload)
        case _ => None
  }

  /**
   * What `set_room_temperature` returns or raises, given the replies of the home
   * service and the outcome `post` that a post on the API client would have.
   * The homes data is not an argument: it only names the room in log messages.
   */
  function Outcome(roomId: string, corrected: real, homeId: Option<string>,
                   defaultHome: Result<string, Error>, status: Result<HomeStatus, Error>,
                   post: Result<JsonObject, ApiFailure>): Result<JsonObject, Error>
  {
    match InputError(roomId, corrected, homeId)
    case Some(e) => Err(e)
    case None =>
      match ResolveHome(homeId, defaultHome)
      case Err(e) => Err(e)
      case Ok(h) =>
        match Decide(roomId, corrected, h, status)
        case Fail(e) => Err(e)
        case Skip(answer) => Ok(answer)
        case Write(_) =>
          match post
          case Ok(response) => Ok(response)
          case Err(f) => Err(ApiError(f))
  }

  /** The home-service calls the operation makes, in order. */
  function HomeCalls(roomId: string, corrected: real, homeId: Option<string>,
                     defaultHome: Result<string, Error>): seq<HomeCall>
  {
    if InputError(roomId, corrected, homeId).Some? then []
    else
      (if homeId.None? then [DefaultHomeIdCall] else [])
      + match ResolveHome(homeId, defaultHome)
        case Err(_) => []
        case Ok(h) => [HomesDataCall, HomeStatusCall(h)]
  }

  /** The inputs pass validation and the operation acts on home `h`. */
  predicate Proceeds(roomId: string, corrected: real, homeId: Option<string>,
                     defaultHome: Result<string, Error>, h: string)
  {
    InputError(roomId, corrected, homeId).None? && ResolveHome(homeId, defaultHome) == Ok(h)
  }

  /**
   * A blank room id, a temperature outside [-50, 50], or a blank explicit home id
   * raises ValidationError before any home-service or API call.
   */
  lemma ValidationBeforeAnyCall(roomId: string, corrected: real, homeId: Option<string>,
                                defaultHome: Result<string, Error>, status: Result<HomeStatus, Error>,
                                post: Result<JsonObject, ApiFailure>)
    requires || Validators.IsBlank(roomId)
             || corrected < Validators.MinTemperature || corrected > Validators.MaxTemperature
             || (homeId.Some? && Validators.IsBlank(homeId.value))
    ensures Outcome(roomId, corrected, homeId, defaultHome, status, post).Err?
    ensures Outcome(roomId, corrected, homeId, defaultHome, status, post).error == ValidationError(
              if Validators.IsBlank(roomId) then "room_id"
              else if corrected < Validators.MinTemperature || corrected > Validators.MaxTemperature then "corrected_temperature"
              else "home_id")
    ensures HomeCalls(roomId, corrected, homeId, defaultHome) == []
    ensures PostedPayload(roomId, corrected, homeId, defaultHome, status) == None
  {
  }

  /** An explicit home id is used unchanged for the status query and in the posted payload. */
  lemma ExplicitHomeUsed(roomId: string, corrected: real, h: string,
                         defaultHome: Result<string, Error>, status: Result<HomeStatus, Error>)
    requires InputError(roomId, corrected, Some(h)).None?
    ensures HomeCalls(roomId, corrected, Some(h), defaultHome) == [HomesDataCall, HomeStatusCall(h)]
    ensures var p := PostedPayload(roomId, corrected, Some(h), defaultHome, status);
            p.Some? ==> p.value["home_id"] == Str(h) && p.value["room_id"] == Str(roomId)
  {
    assert ResolveHome(Some(h), defaultHome) == Ok(h);
    assert HomeCalls(roomId, corrected, Some(h), defaultHome) == [] + [HomesDataCall, HomeStatusCall(h)];
    var d := Decide(roomId, corrected, h, status);
    if d.Write? {
      var current := CurrentTemperature(status.value, roomId).value;
      assert d.payload == TrueTemperaturePayload(h, roomId, current, corrected);
    }
  }

  /** Without a home id the default home is fetched first and then used for the status query and the payload. */
  lemma DefaultHomeUsed(roomId: string, corrected: real, d: string, status: Result<HomeStatus, Error>)
    requires InputError(roomId, corrected, None).None?
    ensures HomeCalls(roomId, corrected, None, Ok(d)) == [DefaultHomeIdCall, HomesDataCall, HomeStatusCall(d)]
    ensures var p := PostedPayload(roomId, corrected, None, Ok(d), status);
            p.Some? ==> p.value["home_id"] == Str(d)
  {
  }

  /** When fetching the default home fails, its error is raised and nothing else is called. */
  lemma DefaultHomeFailure(roomId: string, corrected: real, e: Error, status: Result<HomeStatus, Error>,
                           post: Result<JsonObject, ApiFailure>)
    requires InputError(roomId, corrected, None).None?
    ensures Outcome(roomId, corrected, None, Err(e), status, post) == Err(e)
    ensures HomeCalls(roomId, corrected, None, Err(e)) == [DefaultHomeIdCall]
    ensures PostedPayload(roomId, corrected, None, Err(e), status) == None
  {
  }

  /** A status payload without body.home.rooms raises RoomNotFoundError and posts nothing. */
  lemma RoomNotFoundWithoutRooms(roomId: string, corrected: real, homeId: Option<string>,
                                 defaultHome: Result<string, Error>, timeServer: Scalar,
                                 post: Result<JsonObject, ApiFailure>)
    requires InputError(roomId, corrected, homeId).None? && ResolveHome(homeId, defaultHome).Ok?
    ensures var status := Ok(HomeStatus(None, timeServer));
            && Outcome(roomId, corrected, homeId, defaultHome, status, post) == Err(RoomNotFoundError(roomId))
            && PostedPayload(roomId, corrected, homeId, defaultHome, status) == None
  {
  }

  /** No status room has id `roomId`: RoomNotFoundError, and nothing is posted. */
  lemma RoomNotFoundWhenAbsent(roomId: string, corrected: real, homeId: Option<string>,
                               defaultHome: Result<string, Error>, rooms: seq<RoomStatus>, timeServer: Scalar,
                               post: Result<JsonObject, ApiFailure>)
    requires InputError(roomId, corrected, homeId).None? && ResolveHome(homeId, defaultHome).Ok?
    requires StatusRoomsPassed(rooms, roomId)
    ensures var status := Ok(HomeStatus(Some(rooms), timeServer));
            && Outcome(roomId, corrected, homeId, defaultHome, status, post) == Err(RoomNotFoundError(roomId))
            && PostedPayload(roomId, corrected, homeId, defaultHome, status) == None
  {
    MeasuredTemperatureAbsent(rooms, roomId);
  }

  /** The first room with id `roomId` has no measured temperature: RoomNotFoundError, and nothing is posted. */
  lemma RoomNotFoundWithoutReading(roomId: string, corrected: real, homeId: Option<string>,
                                   defaultHome: Result<string, Error>, rooms: seq<RoomStatus>, k: nat,
                                   timeServer: Scalar, post: Result<JsonObject, ApiFailure>)
    requires InputError(roomId, corrected, homeId).None? && ResolveHome(homeId, defaultHome).Ok?
    requires k < |rooms| && rooms[k] == RoomStatus(Some(roomId), None)
    requires StatusRoomsPassed(rooms[..k], roomId)
    ensures var status := Ok(HomeStatus(Some(rooms), timeServer));
            && Outcome(roomId, corrected, homeId, defaultHome, status, post) == Err(RoomNotFoundError(roomId))
            && PostedPayload(roomId, corrected, homeId, defaultHome, status) == None
  {
    MeasuredTemperatureFirstMatch(rooms, roomId, k);
  }

  /**
   * The room's first status entry reads `current`, within 0.1 of the corrected
   * temperature: no post is made and the answer is {"status": "ok", "time_server": ...}.
   */
  lemma SkipWithinTolerance(roomId: string, corrected: real, homeId: Option<string>,
                            defaultHome: Result<string, Error>, rooms: seq<RoomStatus>, k: nat,
                            current: real, timeServer: Scalar, post: Result<JsonObject, ApiFailure>)
    requires InputError(roomId, corrected, homeId).None? && ResolveHome(homeId, defaultHome).Ok?
    requires k < |rooms| && rooms[k] == RoomStatus(Some(roomId), Some(current))
    requires StatusRoomsPassed(rooms[..k], roomId)
    requires Abs(current - corrected) < Tolerance
    ensures var status := Ok(HomeStatus(Some(rooms), timeServer));
            && Outcome(roomId, corrected, homeId, defaultHome, status, post)
               == Ok(map["status" := Str("ok"), "time_server" := timeServer])
            && PostedPayload(roomId, corrected, homeId, defaultHome, status) == None
  {
    MeasuredTemperatureFirstMatch(rooms, roomId, k);
  }

  /**
   * Outside the tolerance exactly one true-temperature post is made, carrying the
   * home id, room id, current and corrected temperatures, and its response (or its
   * ApiError) is what the operation returns (or raises).
   */
  lemma PostOutsideTolerance(roomId: string, corrected: real, homeId: Option<string>,
                             defaultHome: Result<string, Error>, h: string, rooms: seq<RoomStatus>, k: nat,
                             current: real, timeServer: Scalar, post: Result<JsonObject, ApiFailure>)
    requires Proceeds(roomId, corrected, homeId, defaultHome, h)
    requires k < |rooms| && rooms[k] == RoomStatus(Some(roomId), Some(current))
    requires StatusRoomsPassed(rooms[..k], roomId)
    requires Abs(current - corrected) >= Tolerance
    ensures var status := Ok(HomeStatus(Some(rooms), timeServer));
            && PostedPayload(roomId, corrected, homeId, defaultHome, status)
               == Some(map["home_id" := Str(h), "room_id" := Str(roomId),
                           "current_temperature" := Num(current), "corrected_temperature" := Num(corrected)])
            && Outcome(roomId, corrected, homeId, defaultHome, status, post)
               == (if post.Ok? then Ok(post.value) else Err(ApiError(post.error)))
  {
    MeasuredTemperatureFirstMatch(rooms, roomId, k);
  }

  class ThermostatService {
    const apiClient: NetatmoApiClient
    const homeService: HomeService
    /** The name the last call used for the room in its log messages. */
    ghost var roomName: string

    constructor (apiClient: NetatmoApiClient, homeService: HomeService)
      ensures this.apiClient == apiClient && this.homeService == homeService
    {
      this.apiClient := apiClient;
      this.homeService := homeService;
      roomName := "";
    }

    /**
     * `set_room_temperature(room_id, corrected_temperature, home_id)`. The result
     * does not depend on the homes data: a failure there only changes the name
     * the room is logged under.
     */
    method SetRoomTemperature(roomId: string, corrected: real, homeId: Option<string>)
      returns (r: Result<JsonObject, Error>)
      modifies this, homeService, apiClient, apiClient.auth, apiClient.session
      ensures r == Outcome(roomId, corrected, homeId, homeService.defaultHomeReply, homeService.statusReply,
                           old(apiClient.NextOutcome()))
      ensures homeService.calls
           == old(homeService.calls) + HomeCalls(roomId, corrected, homeId, homeService.defaultHomeReply)
      ensures var posted := PostedPayload(roomId, corrected, homeId, homeService.defaultHomeReply,
                                          homeService.statusReply);
              if posted.Some? then
                && apiClient.calls == old(apiClient.calls) + [ApiCall(POST, TrueTemperaturePath, posted)]
                && apiClient.Performed(POST, TrueTemperaturePath, posted, old(apiClient.NextOutcome()))
              else
                unchanged(apiClient, apiClient.auth, apiClient.session)
      ensures InputError(roomId, corrected, homeId).None? && ResolveHome(homeId, homeService.defaultHomeReply).Ok? ==>
                roomName == RoomLabel(homeService.homesDataReply, ResolveHome(homeId, homeService.defaultHomeReply).value, roomId)
    {
      var err := Validators.ValidateRoomId(roomId);
      if err.Some? { return Err(err.value); }
      err := Validators.ValidateTemperature(corrected, "corrected_temperature");
      if err.Some? { return Err(err.value); }
      if homeId.Some? {
        err := Validators.ValidateHomeId(homeId.value);
        if err.Some? { return Err(err.value); }
      }

      var home: string;
      if homeId.None? {
        var defaultHome := homeService.GetDefaultHomeId();
        if defaultHome.Err? { return Err(defaultHome.error); }
        home := defaultHome.value;
      } else {
        home := homeId.value;
      }

      r := UpdateRoom(roomId, corrected, home);
    }

    /**
     * The part of `set_room_temperature` after validation, once the home is known:
     * name lookup, status lookup, and the tolerance check or the post.
     */
    method UpdateRoom(roomId: string, corrected: real, home: string) returns (r: Result<JsonObject, Error>)
      modifies this, homeService, apiClient, apiClient.auth, apiClient.session
      ensures var decision := Decide(roomId, corrected, home, homeService.statusReply);
              r == match decision
                   case Fail(e) => Err(e)
                   case Skip(answer) => Ok(answer)
                   case Write(_) => (match old(apiClient.NextOutcome())
                                     case Ok(response) => Ok(response)
                                     case Err(f) => Err(ApiError(f)))
      ensures homeService.calls == old(homeService.calls) + [HomesDataCall, HomeStatusCall(home)]
      ensures roomName == RoomLabel(homeService.homesDataReply, home, roomId)
      ensures var decision := Decide(roomId, corrected, home, homeService.statusReply);
              if decision.Write? then
                && apiClient.calls == old(apiClient.calls) + [ApiCall(POST, TrueTemperaturePath, Some(decision.payload))]
                && apiClient.Performed(POST, TrueTemperaturePath, Some(decision.payload), old(apiClient.NextOutcome()))
              else
                unchanged(apiClient, apiClient.auth, apiClient.session)
    {
      var homesData := homeService.GetHomesData();
      roomName := RoomLabel(homesData, home, roomId);

      var status := homeService.GetHomeStatus(home);
      if status.Err? { return Err(status.error); }
      if status.value.rooms.None? { return Err(RoomNotFoundError(roomId)); }
      var current := FindMeasuredTemperature(status.value.rooms.value, roomId);
      if current.None? { return Err(RoomNotFoundError(roomId)); }

      if Abs(current.value - corrected) < Tolerance {
        return Ok(AlreadyAtTarget(status.value.timeServer));
      }

      var payload := TrueTemperaturePayload(home, roomId, current.value, corrected);
      var response := apiClient.Post(TrueTemperaturePath, Some(payload));
      if response.Err? { return Err(ApiError(response.error)); }
      return Ok(response.value);
    }
  }

  /**
   * The loop of `set_room_temperature` over the status rooms (with `room_found`,
   * `current_temperature` and its `break`). `None` stands for each of the ways it
   * ends in `RoomNotFoundError`.
   */
  method FindMeasuredTemperature(rooms: seq<RoomStatus>, roomId: string) returns (current: Option<real>)
    ensures current == MeasuredTemperature(rooms, roomId)
  {
    current := None;
    var found := false;
    var i := 0;
    while i < |rooms|
      invariant 0 <= i <= |rooms|
      invariant MeasuredTemperature(rooms[i..], roomId) == MeasuredTemperature(rooms, roomId)
    {
      var id := rooms[i].id;
      if id.None? {
        return None;
      }
      if id.value == roomId {
        found := true;
        current := rooms[i].measured;
        break;
      }
      assert rooms[i..][1..] == rooms[i + 1..];
      i := i + 1;
    }
    if !found {
      return None;
    }
  }
}
