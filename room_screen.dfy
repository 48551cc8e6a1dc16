/**
 * The room management screen: a room list fetched from the backend and a
 * form that creates a room (name, price and an image are required).
 */
module Rooms {
  import opened Js
  import opened Session
  import opened Api
  import opened Platform

  /** `addRoom`'s check: name, price and a picked image must be present; type and capacity may be empty. */
  predicate CanAddRoom(name: string, price: string, imageUri: JsValue): (ok: bool)
    ensures ok <==> Truthy(Str(name)) && Truthy(Str(price)) && Truthy(imageUri)
  {
    name != "" && price != "" && Truthy(imageUri)
  }

  /** The multipart form `addRoom` posts. */
  function AddRoomParts(name: string, roomType: string, capacity: string, price: string, status: string, imageUri: JsValue): (parts: seq<Part>)
    ensures PartNames(parts) == ["name", "type", "capacity", "price", "status", "room_image"]
    ensures forall i :: 0 <= i < 5 ==> parts[i].Field?
    ensures parts[0].value == Str(name) && parts[1].value == Str(roomType) && parts[2].value == Str(capacity)
    ensures parts[3].value == Str(price) && parts[4].value == Str(status)
    ensures parts[5] == File("room_image", imageUri, "room.jpg", "image/jpeg")
  {
    [ Field("name", Str(name)), Field("type", Str(roomType)), Field("capacity", Str(capacity)),
      Field("price", Str(price)), Field("status", Str(status)), RoomImage(imageUri) ]
  }

  /** The events of this screen's `fetchRooms` for a given token and list outcome. */
  function FetchEvents(token: JsValue, o: Outcome): (es: seq<Event>)
    ensures !Truthy(token) ==> es == [Alerted("Authentication Error", Str("Please log in again to fetch room data."))]
    ensures Truthy(token) ==> |es| >= 1 && es[0] == Sent(Request(GET, ListRooms, Some(token), NoBody))
    ensures Truthy(token) && ListedRooms(o).Some? ==> |es| == 1
    ensures Truthy(token) && o.Responded? && ListedRooms(o).None? ==>
      es[1..] == [Alerted("No Rooms Found", Or(o.data.message, Str("Could not fetch room data.")))]
    ensures Truthy(token) && o.Threw? ==>
      es[1..] == [Alerted("Error", Or(ThrownMessage(o.response), Str("An error occurred while fetching rooms.")))]
  {
    if !Truthy(token) then [Alerted("Authentication Error", Str("Please log in again to fetch room data."))]
    else
      [Sent(Request(GET, ListRooms, Some(token), NoBody))] +
      match o
      case Responded(_, data) =>
        if ListedRooms(o).Some? then []
        else [Alerted("No Rooms Found", Or(data.message, Str("Could not fetch room data.")))]
      case Threw(response) =>
        [Alerted("Error", Or(ThrownMessage(response), Str("An error occurred while fetching rooms.")))]
  }

  /** What `addRoom` does once the create request has been answered (or has thrown). */
  function AddReplyEvents(token: JsValue, o: Outcome, refetch: Outcome): (es: seq<Event>)
    ensures o.Responded? && o.status == 200 ==>
      es == [Alerted("Success", Str("Room added successfully."))] + FetchEvents(token, refetch)
    ensures o.Responded? && o.status != 200 ==>
      es == [Alerted("Failed to Add Room", Or(o.data.message, Str("Please try again.")))]
    ensures o.Threw? ==> es == [Alerted("Error", Str("An error occurred while adding the room."))]
  {
    match o
    case Responded(code, data) =>
      if code == 200 then [Alerted("Success", Str("Room added successfully."))] + FetchEvents(token, refetch)
      else [Alerted("Failed to Add Room", Or(data.message, Str("Please try again.")))]
    case Threw(_) => [Alerted("Error", Str("An error occurred while adding the room."))]
  }

  /** Without a token, `fetchRooms` sends nothing. */
  lemma NoTokenNoFetch(token: JsValue, o: Outcome)
    requires !Truthy(token)
    ensures Requests(FetchEvents(token, o)) == []
  {
    assert FetchEvents(token, o)[1..] == [];
  }

  /** A failed list fetch shows the server's message when it has one, a fixed text otherwise. */
  lemma FetchFailureMessage(token: JsValue, o: Outcome)
    requires Truthy(token) && o.Responded? && ListedRooms(o).None?
    ensures Truthy(o.data.message) ==> FetchEvents(token, o)[1] == Alerted("No Rooms Found", o.data.message)
    ensures !Truthy(o.data.message) ==> FetchEvents(token, o)[1] == Alerted("No Rooms Found", Str("Could not fetch room data."))
  {
  }

  /**
   * The mount fetch sees the first render's null token: even with a session
   * record holding a truthy token in the store, it sends nothing, while a
   * fetch with the loaded token would send the list request.
   */
  lemma StoredTokenIgnoredAtMount(o: Outcome)
    ensures var s := map[UserInfoKey := Record(UserInfo(Str("t"), Num(1), Str("a@b.c")))];
      && LoadUserInfo(s).Loaded? && Truthy(LoadUserInfo(s).info.token)
      && Requests(FetchEvents(Null, o)) == []
      && Requests(FetchEvents(LoadUserInfo(s).info.token, o))[0] == Request(GET, ListRooms, Some(Str("t")), NoBody)
  {
    var s := map[UserInfoKey := Record(UserInfo(Str("t"), Num(1), Str("a@b.c")))];
    assert LoadUserInfo(s) == Loaded(UserInfo(Str("t"), Num(1), Str("a@b.c")));
    NoTokenNoFetch(Null, o);
    var es := FetchEvents(Str("t"), o);
    assert es == [es[0]] + es[1..];
    assert Requests(es) == [Request(GET, ListRooms, Some(Str("t")), NoBody)] + Requests(es[1..]);
  }

  class RoomScreen {
    var rooms: seq<Room>
    var name: string
    var roomType: string
    var capacity: string
    var price: string
    var status: string
    var imageUri: JsValue
    var token: JsValue

    /** The form is empty, the status is `'available'` and no image is picked. */
    ghost predicate FormCleared()
      reads this
    {
      name == "" && roomType == "" && capacity == "" && price == "" && status == "available" && imageUri == Null
    }

    constructor ()
      ensures rooms == [] && FormCleared() && token == Null
    {
      rooms := [];
      name, roomType, capacity, price, status := "", "", "", "", "available";
      imageUri := Null;
      token := Null;
    }

    /** loadToken: take the token from a stored session record; a record that cannot be read is only logged. */
    method LoadToken(dev: Device)
      modifies this
      ensures LoadUserInfo(dev.storage).Loaded? ==> token == LoadUserInfo(dev.storage).info.token
      ensures !LoadUserInfo(dev.storage).Loaded? ==> token == old(token)
      ensures rooms == old(rooms) && name == old(name) && roomType == old(roomType) && capacity == old(capacity)
      ensures price == old(price) && status == old(status) && imageUri == old(imageUri)
    {
      match LoadUserInfo(dev.storage)
      case Loaded(info) => token := info.token;
      case NoUserInfo =>
      case Unreadable =>
    }

    /** pickImage: a picked image replaces the current one; a cancelled picker changes nothing. */
    method PickImage(picked: Option<string>)
      modifies this
      ensures imageUri == (if picked.Some? then Str(picked.value) else old(imageUri))
      ensures rooms == old(rooms) && name == old(name) && roomType == old(roomType) && capacity == old(capacity)
      ensures price == old(price) && status == old(status) && token == old(token)
    {
      if picked.Some? {
        imageUri := Str(picked.value);
      }
    }

    /**
     * fetchRooms: with no token, alert and send nothing; otherwise list the
     * rooms and replace `rooms` only on a status-200 answer that has them.
     */
    method FetchRooms(dev: Device, o: Outcome)
      modifies this, dev
      ensures rooms == (if Truthy(token) && ListedRooms(o).Some? then ListedRooms(o).value else old(rooms))
      ensures name == old(name) && roomType == old(roomType) && capacity == old(capacity) && price == old(price)
      ensures status == old(status) && imageUri == old(imageUri) && token == old(token)
      ensures dev.storage == old(dev.storage)
      ensures dev.trace == old(dev.trace) + FetchEvents(token, o)
    {
      if !Truthy(token) {
        dev.Alert("Authentication Error", Str("Please log in again to fetch room data."));
        return;
      }
      dev.Send(Request(GET, ListRooms, Some(token), NoBody));
      match o
      case Responded(_, data) =>
        if ListedRooms(o).Some? {
          rooms := ListedRooms(o).value;
        } else {
          dev.Alert("No Rooms Found", Or(data.message, Str("Could not fetch room data.")));
        }
      case Threw(response) =>
        dev.Alert("Error", Or(ThrownMessage(response), Str("An error occurred while fetching rooms.")));
    }

    /**
     * The mount effect as written: the effect's `fetchRooms` is the closure
     * of the first render, so it reads that render's `token`, which is null,
     * however soon `setToken` runs. The initial fetch therefore always ends
     * in the authentication alert and sends nothing; the loaded token is only
     * seen by later renders.
     */
    method MountAsWritten(dev: Device, o: Outcome)
      requires token == Null
      modifies this, dev
      ensures dev.storage == old(dev.storage)
      ensures dev.trace == old(dev.trace) + [Alerted("Authentication Error", Str("Please log in again to fetch room data."))]
      ensures rooms == old(rooms)
      ensures token == (if LoadUserInfo(dev.storage).Loaded? then LoadUserInfo(dev.storage).info.token else Null)
      ensures name == old(name) && roomType == old(roomType) && capacity == old(capacity) && price == old(price)
      ensures status == old(status) && imageUri == old(imageUri)
    {
      FetchRooms(dev, o);
      LoadToken(dev);
    }

    /**
     * The mount effect as intended: fetch with the token just loaded, as the
     * room list screen does. A stored record with a truthy token leads to a
     * list request carrying that token.
     */
    method Mount(dev: Device, o: Outcome)
      modifies this, dev
      ensures token == (if LoadUserInfo(dev.storage).Loaded? then LoadUserInfo(dev.storage).info.token else old(token))
      ensures dev.storage == old(dev.storage)
      ensures dev.trace == old(dev.trace) + FetchEvents(token, o)
      ensures rooms == (if Truthy(token) && ListedRooms(o).Some? then ListedRooms(o).value else old(rooms))
      ensures LoadUserInfo(dev.storage).Loaded? && Truthy(LoadUserInfo(dev.storage).info.token) ==>
        dev.trace[|old(dev.trace)|] == Sent(Request(GET, ListRooms, Some(LoadUserInfo(dev.storage).info.token), NoBody))
      ensures name == old(name) && roomType == old(roomType) && capacity == old(capacity) && price == old(price)
      ensures status == old(status) && imageUri == old(imageUri)
    {
      LoadToken(dev);
      FetchRooms(dev, o);
    }

    /** clearForm: reset the six form fields; the room list and token stay. */
    method ClearForm()
      modifies this
      ensures FormCleared()
      ensures rooms == old(rooms) && token == old(token)
    {
      name := "";
      roomType := "";
      capacity := "";
      price := "";
      status := "available";
      imageUri := Null;
    }

    /**
     * addRoom: validate, post the form, and on status 200 refetch the list
     * (with outcome `refetch`) and clear the form; any other answer or an
     * exception keeps the form as it was.
     */
    method AddRoom(dev: Device, o: Outcome, refetch: Outcome)
      modifies this, dev
      ensures token == old(token) && dev.storage == old(dev.storage)
      ensures !CanAddRoom(old(name), old(price), old(imageUri)) ==>
        && rooms == old(rooms) && name == old(name) && roomType == old(roomType) && capacity == old(capacity)
        && price == old(price) && status == old(status) && imageUri == old(imageUri)
        && dev.trace == old(dev.trace) + [Alerted("Validation Error", Str("Room name, price, and image are required."))]
      ensures CanAddRoom(old(name), old(price), old(imageUri)) ==>
        dev.trace == old(dev.trace)
          + [Sent(Request(POST, AddRooms, Some(token),
               Multipart(AddRoomParts(old(name), old(roomType), old(capacity), old(price), old(status), old(imageUri)))))]
          + AddReplyEvents(token, o, refetch)
      ensures CanAddRoom(old(name), old(price), old(imageUri)) && o.Responded? && o.status == 200 ==>
        FormCleared() && rooms == (if Truthy(token) && ListedRooms(refetch).Some? then ListedRooms(refetch).value else old(rooms))
      ensures CanAddRoom(old(name), old(price), old(imageUri)) && !(o.Responded? && o.status == 200) ==>
        && rooms == old(rooms) && name == old(name) && roomType == old(roomType) && capacity == old(capacity)
        && price == old(price) && status == old(status) && imageUri == old(imageUri)
    {
      if name == "" || price == "" || !Truthy(imageUri) {
        dev.Alert("Validation Error", Str("Room name, price, and image are required."));
        return;
      }
      dev.Send(Request(POST, AddRooms, Some(token), Multipart(AddRoomParts(name, roomType, capacity, price, status, imageUri))));
      HandleAddReply(dev, o, refetch);
    }

    /** The part of `addRoom` after the `await`. */
    method HandleAddReply(dev: Device, o: Outcome, refetch: Outcome)
      modifies this, dev
      ensures token == old(token) && dev.storage == old(dev.storage)
      ensures dev.trace == old(dev.trace) + AddReplyEvents(token, o, refetch)
      ensures o.Responded? && o.status == 200 ==>
        FormCleared() && rooms == (if Truthy(token) && ListedRooms(refetch).Some? then ListedRooms(refetch).value else old(rooms))
      ensures !(o.Responded? && o.status == 200) ==>
        && rooms == old(rooms) && name == old(name) && roomType == old(roomType) && capacity == old(capacity)
        && price == old(price) && status == old(status) && imageUri == old(imageUri)
    {
      match o
      case Responded(code, data) =>
        if code == 200 {
          dev.Alert("Success", Str("Room added successfully."));
          FetchRooms(dev, refetch);
          ClearForm();
        } else {
          dev.Alert("Failed to Add Room", Or(data.message, Str("Please try again.")));
        }
      case Threw(_) =>
        dev.Alert("Error", Str("An error occurred while adding the room."));
    }
  }
}
