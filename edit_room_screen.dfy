/**
 * The room edit screen: a form pre-filled from the room it was opened with,
 * and an update that checks name and price, then the token, before it puts
 * the form to `updateRoom/<id>`.
 */
module EditRoom {
  import opened Js
  import opened Session
  import opened Api
  import opened Platform

  /** `handleUpdate`'s field check: name and price must be truthy; the token is checked after it. */
  predicate FieldsValid(name: JsValue, price: JsValue): (ok: bool)
    ensures ok <==> name !in FalsyValues && price !in FalsyValues
  {
    Truthy(name) && Truthy(price)
  }

  /**
   * The multipart form `handleUpdate` puts: capacity and price default to 0
   * when falsy, and `room_image` is added only when a new image was picked.
   */
  function UpdateParts(name: JsValue, roomType: JsValue, capacity: JsValue, price: JsValue, status: JsValue, imageUri: JsValue): (parts: seq<Part>)
    ensures |parts| >= 5 && PartNames(parts[..5]) == ["name", "type", "capacity", "price", "status"]
    ensures forall i :: 0 <= i < 5 ==> parts[i].Field?
    ensures parts[0].value == name && parts[1].value == roomType && parts[4].value == status
    ensures parts[2].value == (if Truthy(capacity) then capacity else Num(0))
    ensures parts[3].value == (if Truthy(price) then price else Num(0))
    ensures |parts| == 6 <==> Truthy(imageUri)
    ensures |parts| == 5 <==> !Truthy(imageUri)
    ensures |parts| == 6 ==> parts[5] == File("room_image", imageUri, "room.jpg", "image/jpeg")
  {
    [ Field("name", name), Field("type", roomType), Field("capacity", Or(capacity, Num(0))),
      Field("price", Or(price, Num(0))), Field("status", status) ]
    + (if Truthy(imageUri) then [RoomImage(imageUri)] else [])
  }

  /** Once the fields are valid, price is sent exactly as entered: its `|| 0` never applies. */
  lemma ValidPriceSentAsEntered(name: JsValue, roomType: JsValue, capacity: JsValue, price: JsValue, status: JsValue, imageUri: JsValue)
    requires FieldsValid(name, price)
    ensures UpdateParts(name, roomType, capacity, price, status, imageUri)[3].value == price
  {
  }

  /** Exactly one part carries an image, when and only when a new image was picked. */
  lemma {:induction false} ImagePartIffPicked(name: JsValue, roomType: JsValue, capacity: JsValue, price: JsValue, status: JsValue, imageUri: JsValue)
    ensures var parts := UpdateParts(name, roomType, capacity, price, status, imageUri);
      ("room_image" in PartNames(parts)) <==> Truthy(imageUri)
  {
    var parts := UpdateParts(name, roomType, capacity, price, status, imageUri);
    var names := PartNames(parts);
    assert forall i :: 0 <= i < 5 ==> names[i] != "room_image";
    if Truthy(imageUri) {
      assert names[5] == "room_image";
    }
  }

  /** What `handleUpdate` does once the update request has been answered (or has thrown). */
  function UpdateReplyEvents(o: Outcome): (es: seq<Event>)
    ensures o.Responded? && o.status == 200 ==> es == [Alerted("Success", Str("Room updated successfully.")), Navigated(GoBack)]
    ensures o.Responded? && o.status != 200 ==> es == [Alerted("Failed to Update Room", Or(o.data.message, Str("Please try again.")))]
    ensures o.Threw? ==> es == [Alerted("Error", Or(ThrownMessage(o.response), Str("An error occurred while updating the room.")))]
  {
    match o
    case Responded(code, data) =>
      if code == 200 then [Alerted("Success", Str("Room updated successfully.")), Navigated(GoBack)]
      else [Alerted("Failed to Update Room", Or(data.message, Str("Please try again.")))]
    case Threw(response) =>
      [Alerted("Error", Or(ThrownMessage(response), Str("An error occurred while updating the room.")))]
  }

  /** Only a status-200 answer leaves the screen; every other outcome stays on it with one alert. */
  lemma {:induction false} OnlySuccessGoesBack(o: Outcome)
    ensures (exists i :: 0 <= i < |UpdateReplyEvents(o)| && UpdateReplyEvents(o)[i].Navigated?) <==> o.Responded? && o.status == 200
  {
    var es := UpdateReplyEvents(o);
    if o.Responded? && o.status == 200 {
      assert es[1].Navigated?;
    } else {
      assert |es| == 1 && es[0].Alerted?;
    }
  }

  /** The part of `handleUpdate` after the `await`. */
  method HandleUpdateReply(dev: Device, o: Outcome)
    modifies dev
    ensures dev.storage == old(dev.storage)
    ensures dev.trace == old(dev.trace) + UpdateReplyEvents(o)
  {
    match o
    case Responded(code, data) =>
      if code == 200 {
        dev.Alert("Success", Str("Room updated successfully."));
        dev.Navigate(GoBack);
      } else {
        dev.Alert("Failed to Update Room", Or(data.message, Str("Please try again.")));
      }
    case Threw(response) =>
      dev.Alert("Error", Or(ThrownMessage(response), Str("An error occurred while updating the room.")));
  }

  class EditRoomScreen {
    const room: Room
    var name: JsValue
    var roomType: JsValue
    var capacity: JsValue
    var price: JsValue
    var status: JsValue
    var imageUri: JsValue
    var token: JsValue

    /** The fields start as the room's, with `''` and `'available'` for falsy ones and no new image. */
    constructor (room: Room)
      ensures this.room == room
      ensures name == room.name
      ensures roomType == (if Truthy(room.roomType) then room.roomType else Str(""))
      ensures capacity == (if Truthy(room.capacity) then room.capacity else Str(""))
      ensures price == (if Truthy(room.price) then room.price else Str(""))
      ensures status == (if Truthy(room.status) then room.status else Str("available"))
      ensures Truthy(status)
      ensures imageUri == Null && token == Null
    {
      this.room := room;
      name := room.name;
      roomType := Or(room.roomType, Str(""));
      capacity := Or(room.capacity, Str(""));
      price := Or(room.price, Str(""));
      status := Or(room.status, Str("available"));
      imageUri := Null;
      token := Null;
    }

    /** loadToken: take the token from a stored session record; an unreadable one raises an alert. */
    method LoadToken(dev: Device)
      modifies this, dev
      ensures LoadUserInfo(old(dev.storage)).Loaded? ==> token == LoadUserInfo(old(dev.storage)).info.token
      ensures !LoadUserInfo(old(dev.storage)).Loaded? ==> token == old(token)
      ensures dev.storage == old(dev.storage)
      ensures dev.trace == old(dev.trace) +
        (if LoadUserInfo(old(dev.storage)).Unreadable? then [Alerted("Error", Str("Failed to load authentication token."))] else [])
      ensures name == old(name) && roomType == old(roomType) && capacity == old(capacity) && price == old(price)
      ensures status == old(status) && imageUri == old(imageUri)
    {
      match LoadUserInfo(dev.storage)
      case Loaded(info) => token := info.token;
      case NoUserInfo =>
      case Unreadable => dev.Alert("Error", Str("Failed to load authentication token."));
    }

    /** pickImage: a picked image becomes the new image; a cancelled picker changes nothing. */
    method PickImage(picked: Option<string>)
      modifies this
      ensures imageUri == (if picked.Some? then Str(picked.value) else old(imageUri))
      ensures name == old(name) && roomType == old(roomType) && capacity == old(capacity) && price == old(price)
      ensures status == old(status) && token == old(token)
    {
      if picked.Some? {
        imageUri := Str(picked.value);
      }
    }

    /**
     * handleUpdate: reject missing name or price, then a missing token, each
     * with an alert and no request; otherwise put the form to
     * `updateRoom/<room.id>` with the bearer token, go back on status 200 and
     * show the server's message (or a fixed text) otherwise.
     */
    method HandleUpdate(dev: Device, o: Outcome)
      modifies dev
      ensures dev.storage == old(dev.storage)
      ensures !FieldsValid(name, price) ==>
        dev.trace == old(dev.trace) + [Alerted("Validation Error", Str("Room name and price are required."))]
      ensures FieldsValid(name, price) && !Truthy(token) ==>
        dev.trace == old(dev.trace) + [Alerted("Error", Str("Authentication token is missing. Please try again."))]
      ensures FieldsValid(name, price) && Truthy(token) ==>
        dev.trace == old(dev.trace)
          + [Sent(Request(PUT, UpdateRoom(room.id), Some(token), Multipart(UpdateParts(name, roomType, capacity, price, status, imageUri))))]
          + UpdateReplyEvents(o)
    {
      if !Truthy(name) || !Truthy(price) {
        dev.Alert("Validation Error", Str("Room name and price are required."));
        return;
      }
      if !Truthy(token) {
        dev.Alert("Error", Str("Authentication token is missing. Please try again."));
        return;
      }
      var parts := UpdateParts(name, roomType, capacity, price, status, imageUri);
      dev.Send(Request(PUT, UpdateRoom(room.id), Some(token), Multipart(parts)));
      HandleUpdateReply(dev, o);
    }
  }
}
