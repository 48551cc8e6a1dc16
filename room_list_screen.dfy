/**
 * The room list screen: fetches the rooms with the stored token when it
 * mounts and on pull-to-refresh, deletes a room and refetches, and opens the
 * edit screen for a room. `isFetching` is true while a list request is out.
 */
module RoomList {
  import opened Js
  import opened Session
  import opened Api
  import opened Platform
  import Rooms

  /** The events `fetchRooms` produces once the list request has been sent. */
  function ListOutcomeEvents(o: Outcome): (es: seq<Event>)
    ensures ListedRooms(o).Some? <==> es == []
    ensures o.Responded? && ListedRooms(o).None? ==>
      es == [Alerted("No Rooms Found", Or(o.data.message, Str("Could not fetch room data.")))]
    ensures o.Threw? ==> es == [Alerted("Error", Str("An error occurred while fetching rooms."))]
  {
    match o
    case Responded(_, data) =>
      if ListedRooms(o).Some? then [] else [Alerted("No Rooms Found", Or(data.message, Str("Could not fetch room data.")))]
    case Threw(_) => [Alerted("Error", Str("An error occurred while fetching rooms."))]
  }

  /**
   * The two screens that list rooms treat a thrown request differently: this
   * one always shows its fixed text, the room management screen shows the
   * server's message when the error carries a truthy one.
   */
  lemma ThrownFetchMessagesDiffer(token: JsValue, response: Option<Data>)
    requires Truthy(token)
    ensures ListOutcomeEvents(Threw(response)) == [Alerted("Error", Str("An error occurred while fetching rooms."))]
    ensures response.Some? && Truthy(response.value.message) ==>
      Rooms.FetchEvents(token, Threw(response))[1..] == [Alerted("Error", response.value.message)]
  {
  }

  class RoomListScreen {
    var rooms: seq<Room>
    var token: JsValue
    var isFetching: bool

    constructor ()
      ensures rooms == [] && token == Null && !isFetching
    {
      rooms := [];
      token := Null;
      isFetching := false;
    }

    /** fetchRooms, up to its `await`: raise `isFetching` and send the list request. */
    method StartFetch(dev: Device, authToken: JsValue)
      modifies this, dev
      ensures isFetching
      ensures rooms == old(rooms) && token == old(token)
      ensures dev.storage == old(dev.storage)
      ensures dev.trace == old(dev.trace) + [Sent(Request(GET, ListRooms, Some(authToken), NoBody))]
    {
      isFetching := true;
      dev.Send(Request(GET, ListRooms, Some(authToken), NoBody));
    }

    /** fetchRooms, after its `await`: replace `rooms` only on a status-200 answer with rooms; always lower `isFetching`. */
    method FinishFetch(dev: Device, o: Outcome)
      modifies this, dev
      ensures !isFetching
      ensures rooms == (if ListedRooms(o).Some? then ListedRooms(o).value else old(rooms))
      ensures token == old(token)
      ensures dev.storage == old(dev.storage)
      ensures dev.trace == old(dev.trace) + ListOutcomeEvents(o)
    {
      match o {
        case Responded(_, data) =>
          if ListedRooms(o).Some? {
            rooms := ListedRooms(o).value;
          } else {
            dev.Alert("No Rooms Found", Or(data.message, Str("Could not fetch room data.")));
          }
        case Threw(_) =>
          dev.Alert("Error", Str("An error occurred while fetching rooms."));
      }
      isFetching := false;
    }

    /** fetchRooms(authToken) as a whole. */
    method FetchRooms(dev: Device, authToken: JsValue, o: Outcome)
      modifies this, dev
      ensures !isFetching
      ensures rooms == (if ListedRooms(o).Some? then ListedRooms(o).value else old(rooms))
      ensures token == old(token)
      ensures dev.storage == old(dev.storage)
      ensures dev.trace == old(dev.trace) + [Sent(Request(GET, ListRooms, Some(authToken), NoBody))] + ListOutcomeEvents(o)
    {
      StartFetch(dev, authToken);
      FinishFetch(dev, o);
    }

    /**
     * The mount effect (loadToken): with a stored session record, keep its
     * token and fetch the rooms with it; with none, do nothing; with an
     * unreadable one, alert.
     */
    method Mount(dev: Device, o: Outcome)
      modifies this, dev
      ensures dev.storage == old(dev.storage)
      ensures LoadUserInfo(old(dev.storage)).Loaded? ==>
        var t := LoadUserInfo(old(dev.storage)).info.token;
        && token == t && !isFetching
        && rooms == (if ListedRooms(o).Some? then ListedRooms(o).value else old(rooms))
        && dev.trace == old(dev.trace) + [Sent(Request(GET, ListRooms, Some(t), NoBody))] + ListOutcomeEvents(o)
      ensures LoadUserInfo(old(dev.storage)).NoUserInfo? ==>
        token == old(token) && rooms == old(rooms) && isFetching == old(isFetching) && dev.trace == old(dev.trace)
      ensures LoadUserInfo(old(dev.storage)).Unreadable? ==>
        && token == old(token) && rooms == old(rooms) && isFetching == old(isFetching)
        && dev.trace == old(dev.trace) + [Alerted("Error", Str("Failed to load authentication token."))]
    {
      match LoadUserInfo(dev.storage)
      case Loaded(info) =>
        token := info.token;
        FetchRooms(dev, info.token, o);
      case NoUserInfo =>
      case Unreadable =>
        dev.Alert("Error", Str("Failed to load authentication token."));
    }

    /** Pull-to-refresh: fetchRooms with the token the screen holds. */
    method Refresh(dev: Device, o: Outcome)
      modifies this, dev
      ensures !isFetching && token == old(token)
      ensures rooms == (if ListedRooms(o).Some? then ListedRooms(o).value else old(rooms))
      ensures dev.storage == old(dev.storage)
      ensures dev.trace == old(dev.trace) + [Sent(Request(GET, ListRooms, Some(token), NoBody))] + ListOutcomeEvents(o)
    {
      FetchRooms(dev, token, o);
    }

    /**
     * handleDelete: delete the room with the screen's token; on status 200
     * refetch the list with the same token (outcome `refetch`); otherwise
     * alert and leave `rooms` as it is.
     */
    method HandleDelete(dev: Device, roomId: JsValue, o: Outcome, refetch: Outcome)
      modifies this, dev
      ensures token == old(token) && dev.storage == old(dev.storage)
      ensures |dev.trace| > |old(dev.trace)| && dev.trace[|old(dev.trace)|] == Sent(Request(DELETE, DeleteRoom(roomId), Some(token), NoBody))
      ensures o.Responded? && o.status == 200 ==>
        && !isFetching
        && rooms == (if ListedRooms(refetch).Some? then ListedRooms(refetch).value else old(rooms))
        && dev.trace == old(dev.trace) + [Sent(Request(DELETE, DeleteRoom(roomId), Some(token), NoBody)),
             Alerted("Success", Str("Room deleted successfully.")),
             Sent(Request(GET, ListRooms, Some(token), NoBody))] + ListOutcomeEvents(refetch)
      ensures o.Responded? && o.status != 200 ==>
        && rooms == old(rooms) && isFetching == old(isFetching)
        && dev.trace == old(dev.trace) + [Sent(Request(DELETE, DeleteRoom(roomId), Some(token), NoBody)),
             Alerted("Failed to Delete", Or(o.data.message, Str("Please try again.")))]
      ensures o.Threw? ==>
        && rooms == old(rooms) && isFetching == old(isFetching)
        && dev.trace == old(dev.trace) + [Sent(Request(DELETE, DeleteRoom(roomId), Some(token), NoBody)),
             Alerted("Error", Str("An error occurred while deleting the room."))]
    {
      dev.Send(Request(DELETE, DeleteRoom(roomId), Some(token), NoBody));
      match o
      case Responded(code, data) =>
        if code == 200 {
          dev.Alert("Success", Str("Room deleted successfully."));
          FetchRooms(dev, token, refetch);
        } else {
          dev.Alert("Failed to Delete", Or(data.message, Str("Please try again.")));
        }
      case Threw(_) =>
        dev.Alert("Error", Str("An error occurred while deleting the room."));
    }

    /** handleEdit: open the edit screen with the selected room, unchanged. */
    method HandleEdit(dev: Device, room: Room)
      modifies dev
      ensures dev.storage == old(dev.storage)
      ensures dev.trace == old(dev.trace) + [Navigated(Navigate("EditRoomScreen", Some(room)))]
    {
      dev.Navigate(Navigate("EditRoomScreen", Some(room)));
    }
  }
}
