/**
 * The `hotel_management` database and the route handlers that change it:
 * app/api/bookings/route.ts, app/api/payments/route.ts and
 * app/api/hotels/route.ts. Each handler is a sequence of independent,
 * unguarded store calls; the model keeps their order and their partial
 * effects. `new ObjectId(s)` is not modelled: a handler receives its outcome,
 * `None` when the conversion throws. Generated ids come from a counter.
 */
module Database {
  import opened Optional
  import opened Records
  import opened BookingsRoute
  import opened PaymentsRoute
  import opened HotelsRoute

  /** A handler's JSON response: the value, or an error status with its message. */
  datatype Response<T> = Ok(value: T) | Error(status: int, message: string)

  class Db {
    var hotels: seq<Hotel>
    var bookings: seq<Booking>
    var payments: seq<Payment>
    var nextId: Id

    /** Ids are unique within each collection and below the next id to be handed out. */
    ghost predicate Valid()
      reads this
    {
      && (forall i :: 0 <= i < |hotels| ==> hotels[i].id < nextId)
      && (forall i :: 0 <= i < |bookings| ==> bookings[i].id < nextId)
      && (forall i :: 0 <= i < |payments| ==> payments[i].id < nextId)
      && (forall i, j :: 0 <= i < j < |hotels| ==> hotels[i].id != hotels[j].id)
      && (forall i, j :: 0 <= i < j < |bookings| ==> bookings[i].id != bookings[j].id)
      && (forall i, j :: 0 <= i < j < |payments| ==> payments[i].id != payments[j].id)
    }

    constructor ()
      ensures Valid()
      ensures hotels == [] && bookings == [] && payments == []
    {
      hotels, bookings, payments, nextId := [], [], [], 0;
    }

    /** `GET /api/hotels` (route.ts): every hotel, unfiltered, in collection order. */
    method GetHotels() returns (r: seq<Hotel>)
      ensures r == hotels
    {
      r := hotels;
    }

    /**
     * `POST /api/hotels` (route.ts): stores the body with server timestamps and
     * returns the new id. No validation; a body that is not JSON fails with 500.
     */
    method PostHotel(body: Option<HotelBody>, now: Timestamp) returns (r: Response<Id>)
      requires Valid()
      modifies this
      ensures Valid()
      ensures bookings == old(bookings) && payments == old(payments)
      ensures nextId == if body.Some? then old(nextId) + 1 else old(nextId)
      ensures body.None? ==> r == Error(500, "Failed to create hotel") && hotels == old(hotels)
      ensures body.Some? ==> r == Ok(old(nextId)) && old(nextId) !in IdsOf(old(hotels))
      ensures body.Some? ==> hotels == old(hotels) + [NewHotel(old(nextId), body.value, now)]
    {
      if body.None? {
        return Error(500, "Failed to create hotel");
      }
      var id := nextId;
      hotels := hotels + [NewHotel(id, body.value, now)];
      nextId := nextId + 1;
      r := Ok(id);
    }

    /**
     * `POST /api/bookings`: inserts the booking as pending/pending, then applies
     * `$inc: { 'rooms.0.available': -guests }` to the hotel named by the body's
     * `hotelId`. There is no availability check and no rollback: when the id
     * conversion of the second step throws, the booking stays stored and the
     * response is a 500.
     */
    method PostBooking(body: Option<BookingBody>, hotelOid: Option<Id>, now: Timestamp) returns (r: Response<Id>)
      requires Valid() && HaveRooms(hotels)
      modifies this
      ensures Valid() && HaveRooms(hotels)
      ensures payments == old(payments)
      ensures nextId == if body.Some? then old(nextId) + 1 else old(nextId)
      ensures body.None? ==> r == Error(500, "Failed to create booking")
      ensures body.None? ==> bookings == old(bookings) && hotels == old(hotels)
      ensures body.Some? ==> bookings == old(bookings) + [NewBooking(old(nextId), body.value, now)]
      ensures body.Some? ==> old(nextId) !in BookingIds(old(bookings))
      ensures body.Some? && hotelOid.None? ==> r == Error(500, "Failed to create booking") && hotels == old(hotels)
      ensures body.Some? && hotelOid.Some? ==> r == Ok(old(nextId))
      ensures body.Some? && hotelOid.Some? ==>
                hotels == AvailabilityUpdate(old(hotels), hotelOid.value, -body.value.guests)
    {
      if body.None? {
        return Error(500, "Failed to create booking");
      }
      var id := nextId;
      bookings := bookings + [NewBooking(id, body.value, now)];
      nextId := nextId + 1;
      if hotelOid.None? {
        return Error(500, "Failed to create booking");
      }
      hotels := AvailabilityUpdate(hotels, hotelOid.value, -body.value.guests);
      r := Ok(id);
    }

    /**
     * `GET /api/bookings?userId=`: the bookings whose `userId` equals the
     * converted query value, in collection order; a failed conversion is a 500.
     */
    method GetBookings(userOid: Option<Id>) returns (r: Response<seq<Booking>>)
      ensures userOid.None? ==> r == Error(500, "Failed to fetch bookings")
      ensures userOid.Some? ==> r == Ok(BookingsOfUser(bookings, userOid.value))
    {
      if userOid.None? {
        return Error(500, "Failed to fetch bookings");
      }
      r := Ok(BookingsOfUser(bookings, userOid.value));
    }

    /**
     * `POST /api/payments`: the id conversion comes first, so when it throws
     * nothing is stored. Otherwise a completed payment is inserted, whatever the
     * amount and whatever the booking's state, and then the booking named by
     * `bookingId` (if any) is set to confirmed/completed.
     */
    method PostPayment(body: Option<PaymentRequest>, bookingOid: Option<Id>, now: Timestamp) returns (r: Response<Id>)
      requires Valid()
      modifies this
      ensures Valid()
      ensures hotels == old(hotels)
      ensures nextId == if body.Some? && bookingOid.Some? then old(nextId) + 1 else old(nextId)
      ensures body.None? || bookingOid.None? ==> r == Error(500, "Payment failed")
      ensures body.None? || bookingOid.None? ==> bookings == old(bookings) && payments == old(payments)
      ensures body.Some? && bookingOid.Some? ==> r == Ok(old(nextId))
      ensures body.Some? && bookingOid.Some? ==>
                payments == old(payments) + [NewPayment(old(nextId), bookingOid.value, body.value, now)]
      ensures body.Some? && bookingOid.Some? ==> bookings == ConfirmFirst(old(bookings), bookingOid.value)
    {
      if body.None? || bookingOid.None? {
        return Error(500, "Payment failed");
      }
      var id := nextId;
      payments := payments + [NewPayment(id, bookingOid.value, body.value, now)];
      nextId := nextId + 1;
      bookings := ConfirmFirst(bookings, bookingOid.value);
      r := Ok(id);
    }
  }

  function IdsOf(hotels: seq<Hotel>): set<Id> {
    set i | 0 <= i < |hotels| :: hotels[i].id
  }

  function BookingIds(bookings: seq<Booking>): set<Id> {
    set i | 0 <= i < |bookings| :: bookings[i].id
  }

  /** The hex text of the stored hotel's ObjectId, as a client sends it. */
  const StoredHotelIdText: string := "665f1c2ab3d4e5f601234567"

  /**
   * The first half of the scenario below, on a hotel whose first room has two
   * places: two bookings for two guests each both succeed, stay pending and
   * leave the counter at -2.
   */
  method BookTwice() returns (db: Db, first: Id)
    ensures fresh(db) && db.Valid()
    ensures |db.hotels| == 1 && db.hotels[0].rooms != [] && db.hotels[0].rooms[0].available == -2
    ensures |db.bookings| == 2 && db.bookings[0].id == first && db.bookings[1].id != first
    ensures db.bookings[0].status == Pending && db.bookings[1].status == Pending
    ensures db.payments == []
  {
    db := new Db();
    var room := Room("Deluxe King Room", 199, 2, 2, []);
    var hotelBody: HotelBody := HotelRequest([room], map[]);
    var created := db.PostHotel(Some(hotelBody), 0);
    var hotelId := created.value;
    assert |db.hotels| == 1 && db.hotels[0].id == hotelId && db.hotels[0].rooms[0].available == 2;
    // The conversion of the body's `hotelId` is passed as succeeding with the stored hotel's id.
    var request: BookingBody := BookingRequest(2, map["hotelId" := Str(StoredHotelIdText)]);
    var booked := db.PostBooking(Some(request), Some(hotelId), 1);
    assert |db.hotels| == 1 && db.hotels[0].id == hotelId && db.hotels[0].rooms[0].available == 0;
    assert booked.Ok? && |db.bookings| == 1 && db.bookings[0].id == booked.value;
    first := booked.value;
    var second := db.PostBooking(Some(request), Some(hotelId), 2);
    assert db.bookings[1].id != first;
  }

  /**
   * A sequence of calls the handlers accept: after the two bookings of
   * `BookTwice`, paying the first booking twice confirms it and records two
   * payments.
   */
  method BookTwiceAndPayTwice() returns (db: Db)
    ensures db.Valid()
    ensures |db.hotels| == 1 && db.hotels[0].rooms != [] && db.hotels[0].rooms[0].available == -2
    ensures |db.bookings| == 2 && db.bookings[0].status == Confirmed && db.bookings[1].status == Pending
    ensures |db.payments| == 2 && db.payments[0].bookingId == db.payments[1].bookingId
  {
    var first;
    db, first := BookTwice();
    var payment := PaymentRequest(Num(398), Str("credit-card"));
    var paid := db.PostPayment(Some(payment), Some(first), 3);
    assert db.bookings[0].status == Confirmed && db.bookings[1].status == Pending;
    assert db.bookings[0].id == first && db.bookings[1].id != first;
    var paidAgain := db.PostPayment(Some(payment), Some(first), 4);
  }
}
