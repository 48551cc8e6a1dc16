/**
 * The booking screen: an in-memory list of bookings, an add form and a
 * delete action. A new booking's id is the last entry's id plus one, so the
 * ids stay strictly increasing, and therefore unique, under both operations.
 */
module Bookings {
  import opened Js
  import opened Platform

  /** Where a booking's picture comes from. */
  datatype ImageSource =
    | SeedPictureUrl(k: nat)      // the remote picture URL of the k-th initial booking
    | PickedUri(uri: JsValue)     // `{ uri: imageUri }` for a picked image
    | BundledRoomPicture          // the app's own `assets/picture/room1.jpg`

  datatype Booking = Booking(bookingId: int, roomId: JsValue, customerName: string, bookingDate: string, imageUrl: ImageSource)

  /** The add form; `imageUri` starts as null. */
  datatype BookingForm = BookingForm(roomId: string, customerName: string, bookingDate: string, imageUri: JsValue)

  const EmptyForm := BookingForm("", "", "", Null)

  /**
   * The three bookings the screen starts with: ids 1 to 3 for rooms 101 to
   * 103, each with the remote picture of its position.
   */
  function SeedBookings(): (bs: seq<Booking>)
    ensures |bs| == 3
    ensures forall i :: 0 <= i < 3 ==> bs[i].bookingId == i + 1 && bs[i].roomId == Num(101 + i) && bs[i].imageUrl == SeedPictureUrl(i + 1)
    ensures bs[0].customerName == "John Doe" && bs[1].customerName == "Jane Smith" && bs[2].customerName == "Alice Johnson"
    ensures bs[0].bookingDate == "2024-12-20" && bs[1].bookingDate == "2024-12-21" && bs[2].bookingDate == "2024-12-22"
  {
    [ Booking(1, Num(101), "John Doe", "2024-12-20", SeedPictureUrl(1)),
      Booking(2, Num(102), "Jane Smith", "2024-12-21", SeedPictureUrl(2)),
      Booking(3, Num(103), "Alice Johnson", "2024-12-22", SeedPictureUrl(3)) ]
  }

  function Ids(bs: seq<Booking>): (ids: seq<int>)
    ensures |ids| == |bs|
    ensures forall i :: 0 <= i < |bs| ==> ids[i] == bs[i].bookingId
  {
    if bs == [] then [] else [bs[0].bookingId] + Ids(bs[1..])
  }

  ghost predicate StrictlyIncreasing(bs: seq<Booking>) {
    forall i, j :: 0 <= i < j < |bs| ==> bs[i].bookingId < bs[j].bookingId
  }

  ghost predicate UniqueIds(bs: seq<Booking>) {
    forall i, j :: 0 <= i < |bs| && 0 <= j < |bs| && i != j ==> bs[i].bookingId != bs[j].bookingId
  }

  /** Strictly increasing ids are pairwise distinct. */
  lemma IncreasingIdsAreUnique(bs: seq<Booking>)
    requires StrictlyIncreasing(bs)
    ensures UniqueIds(bs)
  {
    forall i, j | 0 <= i < |bs| && 0 <= j < |bs| && i != j
      ensures bs[i].bookingId != bs[j].bookingId
    {
      if i < j { assert bs[i].bookingId < bs[j].bookingId; }
      else { assert bs[j].bookingId < bs[i].bookingId; }
    }
  }

  /** The add handler's `!roomId || !customerName || !bookingDate` check fails: all three fields are truthy. */
  predicate FormComplete(f: BookingForm): (ok: bool)
    ensures ok <==> Truthy(Str(f.roomId)) && Truthy(Str(f.customerName)) && Truthy(Str(f.bookingDate))
  {
    f.roomId != "" && f.customerName != "" && f.bookingDate != ""
  }

  /**
   * The id of the next booking: the last entry's id plus one, or 1 for an
   * empty list. On increasing ids it exceeds every id present.
   */
  function NextId(bs: seq<Booking>): (id: int)
    ensures bs == [] ==> id == 1
    ensures bs != [] ==> id == bs[|bs| - 1].bookingId + 1
    ensures StrictlyIncreasing(bs) ==> forall i :: 0 <= i < |bs| ==> bs[i].bookingId < id
  {
    if |bs| > 0 then bs[|bs| - 1].bookingId + 1 else 1
  }

  /** `{ uri: imageUri }` when an image was picked, the bundled picture otherwise. */
  function ImageFor(imageUri: JsValue): (src: ImageSource)
    ensures src.PickedUri? <==> Truthy(imageUri)
    ensures src.PickedUri? ==> src.uri == imageUri
    ensures !src.PickedUri? ==> src == BundledRoomPicture
  {
    if Truthy(imageUri) then PickedUri(imageUri) else BundledRoomPicture
  }

  /** The entry the add handler appends for form `f` to list `bs`. */
  function NewEntry(bs: seq<Booking>, f: BookingForm): (b: Booking)
    ensures b.bookingId == NextId(bs)
    ensures b.roomId == ParseInt10(f.roomId)
    ensures b.customerName == f.customerName && b.bookingDate == f.bookingDate
    ensures !Truthy(f.imageUri) ==> b.imageUrl == BundledRoomPicture
    ensures Truthy(f.imageUri) ==> b.imageUrl == PickedUri(f.imageUri)
  {
    Booking(NextId(bs), ParseInt10(f.roomId), f.customerName, f.bookingDate, ImageFor(f.imageUri))
  }

  /** Appending the new entry keeps the ids strictly increasing. */
  lemma AddKeepsIncreasing(bs: seq<Booking>, f: BookingForm)
    requires StrictlyIncreasing(bs)
    ensures StrictlyIncreasing(bs + [NewEntry(bs, f)])
    ensures UniqueIds(bs + [NewEntry(bs, f)])
  {
    var r := bs + [NewEntry(bs, f)];
    forall i, j | 0 <= i < j < |r| ensures r[i].bookingId < r[j].bookingId {
      if j < |bs| {
        assert r[i] == bs[i] && r[j] == bs[j];
      } else {
        assert r[i] == bs[i];
      }
    }
    IncreasingIdsAreUnique(r);
  }

  /** `bookings.filter(b => b.booking_id !== id)` */
  function WithoutId(bs: seq<Booking>, id: int): (r: seq<Booking>)
    ensures |r| <= |bs|
    ensures forall b :: b in r <==> b in bs && b.bookingId != id
  {
    if bs == [] then []
    else if bs[0].bookingId == id then WithoutId(bs[1..], id)
    else [bs[0]] + WithoutId(bs[1..], id)
  }

  /** Filtering distributes over concatenation: the kept entries stay in their order. */
  lemma {:induction false} WithoutIdConcat(a: seq<Booking>, b: seq<Booking>, id: int)
    ensures WithoutId(a + b, id) == WithoutId(a, id) + WithoutId(b, id)
  {
    if a == [] {
      assert a + b == b;
    } else {
      assert (a + b)[0] == a[0];
      assert (a + b)[1..] == a[1..] + b;
      WithoutIdConcat(a[1..], b, id);
    }
  }

  /** Deleting an id no entry has leaves the list as it is. */
  lemma {:induction false} WithoutAbsentId(bs: seq<Booking>, id: int)
    requires forall i :: 0 <= i < |bs| ==> bs[i].bookingId != id
    ensures WithoutId(bs, id) == bs
  {
    if bs != [] {
      WithoutAbsentId(bs[1..], id);
      assert [bs[0]] + bs[1..] == bs;
    }
  }

  /** Every id of a strictly increasing list after its head is above the head's. */
  lemma {:induction false} TailAboveHead(bs: seq<Booking>)
    requires bs != [] && StrictlyIncreasing(bs)
    ensures StrictlyIncreasing(bs[1..])
    ensures forall b :: b in bs[1..] ==> bs[0].bookingId < b.bookingId
  {
    var rest := bs[1..];
    forall i, j | 0 <= i < j < |rest| ensures rest[i].bookingId < rest[j].bookingId {
      assert rest[i] == bs[i + 1] && rest[j] == bs[j + 1];
    }
    forall b | b in rest ensures bs[0].bookingId < b.bookingId {
      var k :| 0 <= k < |rest| && rest[k] == b;
      assert rest[k] == bs[k + 1];
    }
  }

  /** A head below every id of an increasing list extends it. */
  lemma ConsKeepsIncreasing(h: Booking, w: seq<Booking>)
    requires StrictlyIncreasing(w)
    requires forall b :: b in w ==> h.bookingId < b.bookingId
    ensures StrictlyIncreasing([h] + w)
  {
    var r := [h] + w;
    forall i, j | 0 <= i < j < |r| ensures r[i].bookingId < r[j].bookingId {
      assert r[j] == w[j - 1] && w[j - 1] in w;
      if i > 0 {
        assert r[i] == w[i - 1];
      }
    }
  }

  /** Deleting keeps the ids strictly increasing. */
  lemma {:induction false} WithoutIdKeepsIncreasing(bs: seq<Booking>, id: int)
    requires StrictlyIncreasing(bs)
    ensures StrictlyIncreasing(WithoutId(bs, id))
  {
    if bs != [] {
      TailAboveHead(bs);
      WithoutIdKeepsIncreasing(bs[1..], id);
      if bs[0].bookingId != id {
        ConsKeepsIncreasing(bs[0], WithoutId(bs[1..], id));
      }
    }
  }

  /** The initial list has strictly increasing ids 1, 2, 3. */
  lemma SeedIsIncreasing()
    ensures Ids(SeedBookings()) == [1, 2, 3]
    ensures StrictlyIncreasing(SeedBookings())
  {
    var s := SeedBookings();
    assert |s| == 3 && s[0].bookingId == 1 && s[1].bookingId == 2 && s[2].bookingId == 3;
    var ids := Ids(s);
    assert ids[0] == 1 && ids[1] == 2 && ids[2] == 3;
  }

  /** Deleting booking 2 from the initial list leaves ids 1 and 3, and the next add gets id 4. */
  lemma DeleteTwoThenAdd()
    ensures Ids(WithoutId(SeedBookings(), 2)) == [1, 3]
    ensures NextId(WithoutId(SeedBookings(), 2)) == 4
  {
    var s := SeedBookings();
    assert |s| == 3 && s[0].bookingId == 1 && s[1].bookingId == 2 && s[2].bookingId == 3;
    assert s == [s[0]] + [s[1]] + [s[2]];
    WithoutIdConcat([s[0]] + [s[1]], [s[2]], 2);
    WithoutIdConcat([s[0]], [s[1]], 2);
    var w := WithoutId(s, 2);
    assert w == [s[0], s[2]];
    var ids := Ids(w);
    assert ids[0] == 1 && ids[1] == 3;
  }

  class BookingScreen {
    var bookings: seq<Booking>
    var newBooking: BookingForm

    /** The ids of the list are strictly increasing. */
    ghost predicate Valid()
      reads this
    {
      StrictlyIncreasing(bookings)
    }

    constructor ()
      ensures Valid()
      ensures bookings == SeedBookings() && newBooking == EmptyForm
    {
      bookings := SeedBookings();
      newBooking := EmptyForm;
      SeedIsIncreasing();
    }

    /**
     * handleAddBooking: with a complete form, append one entry with the next
     * id and reset the form; otherwise change nothing and show a validation
     * alert.
     */
    method HandleAddBooking(dev: Device)
      requires Valid()
      modifies this, dev
      ensures Valid() && UniqueIds(bookings)
      ensures dev.storage == old(dev.storage)
      ensures FormComplete(old(newBooking)) ==>
        && bookings == old(bookings) + [NewEntry(old(bookings), old(newBooking))]
        && newBooking == EmptyForm
        && dev.trace == old(dev.trace) + [Alerted("Success", Str("Booking added successfully!"))]
      ensures !FormComplete(old(newBooking)) ==>
        && bookings == old(bookings)
        && newBooking == old(newBooking)
        && dev.trace == old(dev.trace) + [Alerted("Validation Error", Str("Please fill all fields."))]
    {
      var form := newBooking;
      if form.roomId == "" || form.customerName == "" || form.bookingDate == "" {
        dev.Alert("Validation Error", Str("Please fill all fields."));
        IncreasingIdsAreUnique(bookings);
        return;
      }
      var entry := NewEntry(bookings, form);
      AddKeepsIncreasing(bookings, form);
      bookings := bookings + [entry];
      newBooking := EmptyForm;
      dev.Alert("Success", Str("Booking added successfully!"));
    }

    /** handleDeleteBooking: drop every entry with the given id, keep the rest in order. */
    method HandleDeleteBooking(bookingId: int, dev: Device)
      requires Valid()
      modifies this, dev
      ensures Valid() && UniqueIds(bookings)
      ensures bookings == WithoutId(old(bookings), bookingId)
      ensures newBooking == old(newBooking)
      ensures dev.storage == old(dev.storage)
      ensures dev.trace == old(dev.trace) + [Alerted("Success", Str("Booking deleted successfully!"))]
    {
      WithoutIdKeepsIncreasing(bookings, bookingId);
      bookings := WithoutId(bookings, bookingId);
      IncreasingIdsAreUnique(bookings);
      dev.Alert("Success", Str("Booking deleted successfully!"));
    }
  }
}
