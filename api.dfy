/**
 * The HTTP requests the screens send to the hotel backend and the outcomes
 * they react to. A call's outcome is an input of the handler that makes it:
 * either the server answered with a status and a body, or the HTTP client
 * threw, possibly carrying the server's body along.
 */
module Api {
  import opened Js
  import opened Session

  /** A room as the backend lists it (display-only fields are not modelled). */
  datatype Room = Room(id: JsValue, name: JsValue, roomType: JsValue, capacity: JsValue, price: JsValue, status: JsValue)

  datatype User = User(userId: JsValue, email: JsValue)

  /**
   * The response body fields the screens read. `user` is None when the field
   * is missing or null; `rooms` is None when it is missing or falsy.
   */
  datatype Data = Data(message: JsValue, token: JsValue, user: Option<User>, rooms: Option<seq<Room>>)

  datatype Outcome =
    | Responded(status: int, data: Data)
    | Threw(response: Option<Data>)

  datatype Verb = GET | POST | PUT | DELETE

  /** The backend endpoint, with the room id for the two per-room calls. */
  datatype Endpoint = Login | Register | ListRooms | AddRooms | UpdateRoom(roomId: JsValue) | DeleteRoom(roomId: JsValue)

  /** One part of a multipart form: a plain field or an image file. */
  datatype Part = Field(name: string, value: JsValue) | File(name: string, uri: JsValue, fileName: string, mimeType: string)

  datatype Body = NoBody | Json(fields: seq<(string, JsValue)>) | Multipart(parts: seq<Part>)

  /** `bearer` is the value interpolated into `Authorization: Bearer ...`, absent when no such header is sent. */
  datatype Request = Request(verb: Verb, endpoint: Endpoint, bearer: Option<JsValue>, body: Body)

  /** The names of a form's parts, in the order they were appended. */
  function PartNames(parts: seq<Part>): (names: seq<string>)
    ensures |names| == |parts|
    ensures forall i :: 0 <= i < |parts| ==> names[i] == parts[i].name
  {
    if parts == [] then [] else [parts[0].name] + PartNames(parts[1..])
  }

  /** The image part both room screens append: field `room_image`, file `room.jpg`, type `image/jpeg`. */
  function RoomImage(uri: JsValue): (p: Part) {
    File("room_image", uri, "room.jpg", "image/jpeg")
  }

  /** `error.response?.data?.message`: undefined when the error carries no response. */
  function ThrownMessage(response: Option<Data>): (m: JsValue)
    ensures response.None? ==> m == Undefined
    ensures response.Some? ==> m == response.value.message
  {
    match response
    case None => Undefined
    case Some(d) => d.message
  }

  /** The room list a list call delivers: only a status-200 answer whose body holds `rooms`. */
  function ListedRooms(o: Outcome): (r: Option<seq<Room>>)
    ensures r.Some? <==> o.Responded? && o.status == 200 && o.data.rooms.Some?
    ensures r.Some? ==> r.value == o.data.rooms.value
  {
    if o.Responded? && o.status == 200 then o.data.rooms else None
  }

  /** How the login and registration screens read their response. */
  datatype SessionReply =
    | Granted(info: UserInfo)   // a truthy token and a user object: store the session
    | Refused                   // the answer has no truthy token
    | Broken                    // the call threw, or the body had a token but no user

  /**
   * Login and registration look only at `data.token` (never at the status).
   * With a truthy token they build `{ token, userId: user.user_id, email:
   * user.email }`; reading `user.user_id` with no user throws.
   */
  function SessionReplyOf(o: Outcome): (r: SessionReply)
    ensures r.Granted? <==> o.Responded? && Truthy(o.data.token) && o.data.user.Some?
    ensures r.Granted? ==> r.info == UserInfo(o.data.token, o.data.user.value.userId, o.data.user.value.email)
    ensures r.Refused? <==> o.Responded? && !Truthy(o.data.token)
  {
    match o
    case Threw(_) => Broken
    case Responded(_, d) =>
      if !Truthy(d.token) then Refused
      else if d.user.None? then Broken
      else Granted(UserInfo(d.token, d.user.value.userId, d.user.value.email))
  }
}
