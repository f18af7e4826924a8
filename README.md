# py-netatmo-truetemp: thermostat override and retry-once API client, in Dafny

This project models two pieces of the py-netatmo-truetemp library, a client for the
Netatmo home-automation cloud API:

- **`ThermostatService.set_room_temperature`** and its helper `_get_room_name`
  (`src/py_netatmo_truetemp/thermostat_service.py`). The service validates its
  inputs, resolves the home (the given one or the account's default home), looks up
  the room's display name for its log messages, reads the room's measured
  temperature from the home status, and then does one of two things. If the room
  is already within 0.1 °C of the corrected temperature, it answers
  `{"status": "ok", "time_server": ...}` without a write. Otherwise it posts one
  true-temperature override to `/api/truetemperature`.
- **The request path of `NetatmoApiClient`** (`get`/`post`). Each attempt fetches
  auth headers and sends one request. A 403 whose body is not blank counts as a
  stale session: the client invalidates the credential once and retries once. Every
  other failure is raised at once as `ApiError`. The client's source is not part of
  this model, so the model follows what `tests/test_api_client.py` asserts.

Layout, one module per file:

- `wrappers.dfy` (`Wrappers`): `Option` and `Result`.
- `errors.dfy` (`Errors`): the exception kinds as one datatype.
- `validators.dfy` (`Validators`): Python's `str.strip()` and the validators the
  service calls.
- `api_client.dfy` (`ApiClient`): the client and its two collaborators.
  - `AuthManager` hands out headers and records every call made to it.
  - `Session` is the HTTP session together with a scripted server.
  - `NetatmoApiClient.Send` is the two-attempt loop. It is proved against
    `CallOutcome`, `SentRequests` and `AuthTrace`.
- `home_service.dfy` (`Homes`): the homes-data and home-status payloads.
  - A missing key is `None`.
  - `HomeService` answers every query from a fixed reply and records each call.
- `thermostat_service.dfy` (`Thermostat`): the service.
  - `RoomName` is `_get_room_name`.
  - `FindMeasuredTemperature` is the status loop.
  - `SetRoomTemperature` and `UpdateRoom` are the operation, proved against the
    pure specification `Outcome` / `HomeCalls` / `PostedPayload`.

Temperatures are exact `real`s. Ids are strings. A JSON object is a map from keys to
scalars (string, number, null).

Where the tests and the source disagree, the model follows the source:

- `tests/test_thermostat_service.py:167-216` expects `post_typed`. The source calls
  `post` (`thermostat_service.py:122`), and the model posts through `Post`.
- `list_rooms_with_thermostats` is tested, but the source does not define it.

## Model

| member | source | states |
|---|---|---|
| `Errors.StatusCode` | tests/test_exceptions.py:79-88 | an ApiError carries a status code exactly when it comes from an HTTP error status, and then it is that status |
| `Validators.Strip` | tests/test_validators.py:53-76 | `strip()` returns a middle slice with only whitespace cut on both sides; it is empty iff the string is all whitespace |
| `Validators.ValidateTemperature` | tests/test_validators.py:14-43 | accepted iff -50 ≤ t ≤ 50, both bounds included; otherwise ValidationError for the named field |
| `Validators.ValidateId` | tests/test_validators.py:53-76 | an id is accepted iff it holds a non-whitespace character; otherwise ValidationError for the named field |
| `ApiClient.Settle` | tests/test_api_client.py:49-116 | a non-retried reply gives the decoded JSON on success; HTTP error status s gives ApiError with status s; a timeout gives the timeout error; a connection failure or an empty/non-JSON body gives a network error |
| `ApiClient.AttemptCount` | tests/test_api_client.py:319-344 | a call sends one or two requests, two exactly when the first reply is a stale-session 403 |
| `ApiClient.SentRequests` | tests/test_api_client.py:560-578 | attempt k sends the call's verb, path and body with the headers of the k-th credential |
| `ApiClient.AuthTraceCounts` | tests/test_api_client.py:386-411 | n attempts call get_auth_headers n times and invalidate n-1 times; the k-th headers belong to the k-th credential |
| `ApiClient.AttemptsUseIssuedHeaders` | tests/test_api_client.py:152-170 | every request carries exactly the headers get_auth_headers returned for that attempt |
| `ApiClient.RetryEligibleIff` | tests/test_api_client.py:441-505 | retried iff status 403 and the body is unreadable, JSON, or holds a non-whitespace character; 401/404/500 never |
| `ApiClient.CallAuthEffects` | tests/test_api_client.py:118-141 | one call invalidates exactly once if the first reply was retried and never otherwise; get_auth_headers runs once per request |
| `ApiClient.RetryThenSuccess` | tests/test_api_client.py:386-411 | a stale 403 then a success returns the success payload after two requests, two header fetches and one invalidation |
| `ApiClient.RetryExhausted` | tests/test_api_client.py:319-344 | two stale 403s raise ApiError with status_code 403 after two requests and one invalidation; no third attempt |
| `ApiClient.BlankForbiddenNotRetried` | tests/test_api_client.py:346-364 | a 403 with a blank body raises ApiError 403 after one request, one header fetch and no invalidation |
| `ApiClient.OtherHttpErrorNotRetried` | tests/test_api_client.py:366-384 | any other HTTP error status raises ApiError with that status_code after one request and no invalidation |
| `ApiClient.TransportFailureSurfaces` | tests/test_api_client.py:413-435 | connection errors and timeouts raise ApiError, also on the retry attempt, and never lead to another attempt; a connection failure is the network error, with no status code |
| `ApiClient.UnparsableSuccessFails` | tests/test_api_client.py:511-536 | a success whose body is empty, not JSON or unreadable raises a network ApiError |
| `ApiClient.AuthManager.GetAuthHeaders` | tests/test_api_client.py:24-29 | returns the headers of the current credential and records the call |
| `ApiClient.AuthManager.Invalidate` | tests/test_api_client.py:340-343 | drops the credential, so the next headers carry a new one, and records the call |
| `ApiClient.Session.Send` | tests/test_api_client.py:124-133 | the k-th request gets the k-th scripted reply (a connection failure once the script is used up) and is logged |
| `ApiClient.NetatmoApiClient.Send` | tests/test_api_client.py:316-435 | the attempt loop: its result, the requests sent and the auth-manager calls equal CallOutcome, SentRequests and AuthTrace of the next two replies |
| `ApiClient.NetatmoApiClient.Get` | tests/test_api_client.py:172-183 | a GET through the attempt loop with no body, logged as one client call |
| `ApiClient.NetatmoApiClient.Post` | tests/test_api_client.py:185-207 | a POST through the attempt loop with the given JSON body, logged as one client call |
| `Homes.HomeService.GetDefaultHomeId` | src/py_netatmo_truetemp/thermostat_service.py:53-54 | answers the fixed default-home reply (an id or an error) and records the call |
| `Homes.HomeService.GetHomesData` | src/py_netatmo_truetemp/thermostat_service.py:28 | answers the fixed homes-data reply and records the call |
| `Homes.HomeService.GetHomeStatus` | src/py_netatmo_truetemp/thermostat_service.py:65 | answers the fixed status reply and records the call with the home id asked for |
| `Thermostat.SearchRooms` | src/py_netatmo_truetemp/thermostat_service.py:31-33 | the scan ends without a result iff every room has an id and none matches; a result is the name (else the room id) of a room with that id |
| `Thermostat.SearchHomes` | src/py_netatmo_truetemp/thermostat_service.py:29-34 | the scan ends without a result iff every home has an id and no matching home holds the room (all ids present); a result comes from a matching room of a matching home |
| `Thermostat.RoomName` | src/py_netatmo_truetemp/thermostat_service.py:26-36 | the answer is the room id or the name of a room with that id inside a home with the given id |
| `Thermostat.RoomNameFirstMatch` | src/py_netatmo_truetemp/thermostat_service.py:29-33 | the answer is the name (else the room id) of the first matching room of the first home holding one |
| `Thermostat.RoomNameMalformed` | src/py_netatmo_truetemp/thermostat_service.py:35-36 | a home or room without "id" met before any match gives the room id (the caught KeyError) |
| `Thermostat.MeasuredTemperature` | src/py_netatmo_truetemp/thermostat_service.py:72-93 | a temperature found is the reading of the first room with that id, all rooms before it having ids |
| `Thermostat.MeasuredTemperatureFirstMatch` | src/py_netatmo_truetemp/thermostat_service.py:75-85 | the first room with that id, reached without a missing id, supplies the reading (or none) |
| `Thermostat.MeasuredTemperatureAbsent` | src/py_netatmo_truetemp/thermostat_service.py:87-89 | no room with that id means no reading (RoomNotFoundError) |
| `Thermostat.FindMeasuredTemperature` | src/py_netatmo_truetemp/thermostat_service.py:72-93 | the loop with `room_found` and `break` computes exactly MeasuredTemperature |
| `Thermostat.InputError` | src/py_netatmo_truetemp/thermostat_service.py:48-51 | no error iff the room id is not blank, -50 ≤ t ≤ 50, and an explicit home id is not blank; the error is a ValidationError naming room_id, else corrected_temperature, else home_id, in the order the validators run |
| `Thermostat.ValidationBeforeAnyCall` | src/py_netatmo_truetemp/thermostat_service.py:48-51 | invalid input raises ValidationError naming the first invalid field (room_id, corrected_temperature, home_id) with no home-service call and no post |
| `Thermostat.ExplicitHomeUsed` | src/py_netatmo_truetemp/thermostat_service.py:115-120 | an explicit home id goes unchanged to get_home_status and into the payload; no default-home lookup |
| `Thermostat.DefaultHomeUsed` | src/py_netatmo_truetemp/thermostat_service.py:53-65 | without a home id the default home is fetched first and then used for the status query and the payload |
| `Thermostat.DefaultHomeFailure` | src/py_netatmo_truetemp/thermostat_service.py:53-54 | a failing default-home lookup raises its error and nothing else is called |
| `Thermostat.RoomNotFoundWithoutRooms` | src/py_netatmo_truetemp/thermostat_service.py:132-134 | a status payload without body/home/rooms raises RoomNotFoundError and posts nothing |
| `Thermostat.RoomNotFoundWhenAbsent` | src/py_netatmo_truetemp/thermostat_service.py:87-89 | no status room with the id raises RoomNotFoundError and posts nothing |
| `Thermostat.RoomNotFoundWithoutReading` | src/py_netatmo_truetemp/thermostat_service.py:91-93 | a first matching room without a measured temperature raises RoomNotFoundError and posts nothing |
| `Thermostat.SkipWithinTolerance` | src/py_netatmo_truetemp/thermostat_service.py:95-104 | with abs(current - corrected) < 0.1, nothing is posted and the answer is {"status": "ok", "time_server": the status's time_server} |
| `Thermostat.PostOutsideTolerance` | src/py_netatmo_truetemp/thermostat_service.py:114-130 | otherwise one post with {home_id, room_id, current_temperature, corrected_temperature} is made, and its response or ApiError is the result |
| `Thermostat.ThermostatService.SetRoomTemperature` | src/py_netatmo_truetemp/thermostat_service.py:38-134 | the result is Outcome of the service replies and the next post outcome, which does not depend on the homes data. The home-service calls are HomeCalls. Exactly one true-temperature post is made when PostedPayload is set; otherwise the client is untouched |
| `Thermostat.ThermostatService.UpdateRoom` | src/py_netatmo_truetemp/thermostat_service.py:56-130 | after validation: homes data then status are queried, the room name is logged from RoomLabel, and the result follows Decide |

## Left out

- The authentication manager's login handshake, its cookie store, and their locking.
  Their source is not part of this model. `AuthManager` stands in for them: its
  headers name a credential generation, and each invalidation moves to a new one.
  A failing login (AuthenticationError from `get_auth_headers`) is not modelled.
- HTTP plumbing: the base URL, query parameters, JSON encoding, session reuse, and
  the timeout setting. A request is modelled as verb, path, headers and JSON body.
- `get_typed`/`post_typed`: these are only typing casts over `get`/`post`.
- Logging: all messages, including the warning for differences above 10 °C. The
  room name is kept only as the ghost field `roomName`.
- Python float arithmetic: the 0.1 tolerance is compared exactly over `real`.
- JSON values of the wrong type, such as a list where an object is expected. The
  payload datatypes only express missing keys. In the homes-data lookup such a
  TypeError is caught by the `except Exception` around `_get_room_name`
  (thermostat_service.py:58-62) and only makes the name fall back to the room id;
  in the status part it escapes, since that handler catches only KeyError and
  IndexError (thermostat_service.py:67-134).
- JSON payloads are flat: an object maps keys to strings, numbers or null. Nested
  objects, such as a success payload's "body" or the 403 body
  `{"error": {"message": ...}}`, are not represented; such a body is carried as
  `Text` with non-blank content, which gives the same retry decision.
- A JSON `null` stored under "name" is treated like a missing name. Python would
  return `None` there.
- A success body that is valid JSON but not an object is treated as not JSON.
- `validate_room_id(None)` and numeric ids: ids are strings in this model.
- The exception class hierarchy: errors are constructors of one datatype.
- `HomeService` itself and `list_rooms_with_thermostats`: their source is not part
  of this model. `HomeService` answers from fixed replies.
- The CLI (`examples/cli.py`) and `logger.py`.
- An HTTP error means a status in [400, 600), the range for which
  `raise_for_status` raises. The client's source is not part of this model.
