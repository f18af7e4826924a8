/**
 * The payloads the thermostat service reads from the home service, and the home
 * service itself as a collaborator that answers from fixed replies and records
 * every call made to it.
 *
 * A key missing from a payload is `None`; the service reads such a key either with
 * a default (`dict.get`) or by indexing, which raises `KeyError`.
 */
module Homes {
  import opened Wrappers
  import opened Errors
  import opened ApiClient

  /** A room entry of the homes-data payload: "id" and "name", each possibly missing. */
  datatype RoomInfo = RoomInfo(id: Option<string>, name: Option<string>)

  /** A home entry: "id", possibly missing, and the list under "rooms" (empty when the key is missing). */
  datatype Home = Home(id: Option<string>, rooms: seq<RoomInfo>)

  /** `get_homes_data()`: the list at body.homes, `None` when "body" or "homes" is missing. */
  datatype HomesData = HomesData(homes: Option<seq<Home>>)

  /**
   * A room entry of the home-status payload: "id", possibly missing, and
   * "therm_measured_temperature", `None` when missing or null.
   */
  datatype RoomStatus = RoomStatus(id: Option<string>, measured: Option<real>)

  /**
   * `get_home_status(home_id)`: the list at body.home.rooms (`None` when any of the
   * three keys is missing) and the top-level "time_server" (`Null` when missing).
   */
  datatype HomeStatus = HomeStatus(rooms: Option<seq<RoomStatus>>, timeServer: Scalar)

  datatype HomeCall = DefaultHomeIdCall | HomesDataCall | HomeStatusCall(homeId: string)

  /** The home service: every query answers with its fixed reply, which may be a raised error. */
  class HomeService {
    const defaultHomeReply: Result<string, Error>
    const homesDataReply: Result<HomesData, Error>
    const statusReply: Result<HomeStatus, Error>
    /** Every call made on this service, in order. */
    ghost var calls: seq<HomeCall>

    constructor (defaultHomeReply: Result<string, Error>, homesDataReply: Result<HomesData, Error>,
                 statusReply: Result<HomeStatus, Error>)
      ensures this.defaultHomeReply == defaultHomeReply && this.homesDataReply == homesDataReply
      ensures this.statusReply == statusReply && calls == []
    {
      this.defaultHomeReply := defaultHomeReply;
      this.homesDataReply := homesDataReply;
      this.statusReply := statusReply;
      calls := [];
    }

    /** `get_default_home_id()` */
    method GetDefaultHomeId() returns (r: Result<string, Error>)
      modifies this
      ensures r == defaultHomeReply && calls == old(calls) + [DefaultHomeIdCall]
    {
      r := defaultHomeReply;
      calls := calls + [DefaultHomeIdCall];
    }

    /** `get_homes_data()` */
    method GetHomesData() returns (r: Result<HomesData, Error>)
      modifies this
      ensures r == homesDataReply && calls == old(calls) + [HomesDataCall]
    {
      r := homesDataReply;
      calls := calls + [HomesDataCall];
    }

    /** `get_home_status(home_id=homeId)` */
    method GetHomeStatus(homeId: string) returns (r: Result<HomeStatus, Error>)
      modifies this
      ensures r == statusReply && calls == old(calls) + [HomeStatusCall(homeId)]
    {
      r := statusReply;
      calls := calls + [HomeStatusCall(homeId)];
    }
  }
}
