/**
 * What `POST /api/bookings` and `GET /api/bookings` (app/api/bookings/route.ts)
 * do to the collections, as functions: the booking document that is inserted,
 * the `$inc` on the first room of the referenced hotel, and the query by user.
 */
module BookingsRoute {
  import opened Optional
  import opened Records
  import Seqs

  /** Keys the handler writes itself after the spread; a value the body gives for one of them is overridden. */
  const ServerSetKeys: set<string> := {"status", "paymentStatus", "createdAt"}

  /**
   * The document id key. The handler leaves a client `_id` in place; the model
   * stores the counter's id instead and drops it.
   */
  const IdKey := "_id"

  /** The body keys that do not reach the stored `fields`. */
  const DroppedKeys: set<string> := ServerSetKeys + {IdKey}

  /** The JSON body of `POST /api/bookings`: `guests`, and every other key in `fields`. */
  datatype BookingRequest = BookingRequest(guests: int, fields: map<string, Value>)

  /** The body key read into `BookingRequest.guests`. */
  const GuestsKey := "guests"

  /** A parsed body: `guests` has its own field, so `fields` never holds that key as well. */
  type BookingBody = req: BookingRequest | GuestsKey !in req.fields
    witness BookingRequest(0, map[])

  /**
   * The document `insertOne({...booking, status: 'pending', paymentStatus: 'pending',
   * createdAt})` stores: the spread comes first, so the server's values win.
   */
  function NewBooking(id: Id, req: BookingBody, now: Timestamp): (b: Booking)
    ensures b.id == id && b.createdAt == now && b.guests == req.guests
    ensures b.status == Pending && b.paymentStatus == PaymentPending
    ensures forall k :: k in req.fields && k !in DroppedKeys ==> k in b.fields && b.fields[k] == req.fields[k]
    ensures forall k :: k in b.fields ==> k in req.fields && k !in DroppedKeys
    ensures GuestsKey !in b.fields
  {
    Booking(id, req.guests, req.fields - DroppedKeys, Pending, PaymentPending, now)
  }

  /**
   * Two requests that differ only in `status`, `paymentStatus` or `createdAt`
   * store the same booking: the server's values win over the client's.
   */
  lemma ClientStatusIgnored(id: Id, req: BookingBody, other: BookingBody, now: Timestamp)
    requires req.guests == other.guests
    requires forall k :: k !in ServerSetKeys ==> (k in req.fields <==> k in other.fields)
    requires forall k :: k !in ServerSetKeys && k in req.fields ==> req.fields[k] == other.fields[k]
    ensures NewBooking(id, req, now) == NewBooking(id, other, now)
  {
    assert req.fields - DroppedKeys == other.fields - DroppedKeys;
  }

  /** Every hotel has a first room for `rooms.0.available` to name. */
  predicate HaveRooms(hotels: seq<Hotel>) {
    forall i :: 0 <= i < |hotels| ==> hotels[i].rooms != []
  }

  function HotelHasId(id: Id): Hotel -> bool {
    (h: Hotel) => h.id == id
  }

  /** `$inc: { 'rooms.0.available': delta }` applied to one hotel. */
  function WithFirstRoomIncremented(h: Hotel, delta: int): (r: Hotel)
    requires h.rooms != []
    ensures |r.rooms| == |h.rooms|
    ensures r.rooms[0].available == h.rooms[0].available + delta
    ensures r.rooms[0].(available := h.rooms[0].available) == h.rooms[0]
    ensures forall i :: 1 <= i < |h.rooms| ==> r.rooms[i] == h.rooms[i]
    ensures r.(rooms := h.rooms) == h
  {
    h.(rooms := h.rooms[0 := h.rooms[0].(available := h.rooms[0].available + delta)])
  }

  /**
   * `updateOne({ _id: oid }, { $inc: ... })`: the first hotel whose id is `oid`
   * gets the increment; when none matches, nothing changes.
   */
  function AvailabilityUpdate(hotels: seq<Hotel>, oid: Id, delta: int): (r: seq<Hotel>)
    requires HaveRooms(hotels)
    ensures |r| == |hotels| && HaveRooms(r)
    ensures forall i :: 0 <= i < |hotels| ==> r[i].id == hotels[i].id
    ensures (forall i :: 0 <= i < |hotels| ==> hotels[i].id != oid) ==> r == hotels
    ensures forall i :: 0 <= i < |hotels| && hotels[i].id != oid ==> r[i] == hotels[i]
    ensures forall i :: 0 <= i < |hotels| && hotels[i].id == oid ==>
              (forall j :: 0 <= j < i ==> hotels[j].id != oid) ==>
                r[i] == WithFirstRoomIncremented(hotels[i], delta)
  {
    match Seqs.FirstIndex(hotels, HotelHasId(oid))
    case None => hotels
    case Some(k) => hotels[k := WithFirstRoomIncremented(hotels[k], delta)]
  }

  /**
   * With distinct ids the update touches exactly the hotel named `oid`: only
   * its first room's `available`, by exactly `delta`.
   */
  lemma AvailabilityUpdateOnly(hotels: seq<Hotel>, oid: Id, delta: int, i: nat)
    requires HaveRooms(hotels)
    requires forall a, b :: 0 <= a < b < |hotels| ==> hotels[a].id != hotels[b].id
    requires i < |hotels| && hotels[i].id == oid
    ensures AvailabilityUpdate(hotels, oid, delta)[i] == WithFirstRoomIncremented(hotels[i], delta)
    ensures forall j :: 0 <= j < |hotels| && j != i ==> AvailabilityUpdate(hotels, oid, delta)[j] == hotels[j]
  {
  }

  /** No availability check is made: a booking for more guests than are free drives the counter below zero. */
  lemma OverbookingGoesNegative(hotels: seq<Hotel>, oid: Id, guests: int, i: nat)
    requires HaveRooms(hotels)
    requires i < |hotels| && hotels[i].id == oid
    requires forall j :: 0 <= j < i ==> hotels[j].id != oid
    requires hotels[i].rooms[0].available < guests
    ensures AvailabilityUpdate(hotels, oid, -guests)[i].rooms[0].available < 0
  {
  }

  /** The query `{ userId: new ObjectId(userId) }` matches a stored ObjectId only. */
  function UserIs(uid: Id): Booking -> bool {
    (b: Booking) => "userId" in b.fields && b.fields["userId"] == Oid(uid)
  }

  /** `find({ userId: ... }).toArray()`: the matching bookings in collection order. */
  function BookingsOfUser(bookings: seq<Booking>, uid: Id): seq<Booking> {
    Seqs.Filter(bookings, UserIs(uid))
  }

  /** The query returns exactly the bookings of that user, in collection order, unsorted. */
  lemma BookingsOfUserExact(bookings: seq<Booking>, uid: Id, b: Booking)
    ensures b in BookingsOfUser(bookings, uid) <==>
              b in bookings && "userId" in b.fields && b.fields["userId"] == Oid(uid)
    ensures Seqs.IsSubsequence(BookingsOfUser(bookings, uid), bookings)
    ensures |BookingsOfUser(bookings, uid)| <= |bookings|
  {
    Seqs.FilterMembership(bookings, UserIs(uid), b);
    Seqs.FilterIsSubsequence(bookings, UserIs(uid));
  }

  /** A booking appended to the collection is listed last, and only if it matches. */
  lemma BookingsOfUserAfterInsert(bookings: seq<Booking>, b: Booking, uid: Id)
    ensures BookingsOfUser(bookings + [b], uid) ==
              BookingsOfUser(bookings, uid) + (if UserIs(uid)(b) then [b] else [])
  {
    Seqs.FilterAppend(bookings, [b], UserIs(uid));
  }

  /**
   * The POST stores the body's `userId` as it came from JSON, a string, while
   * the GET compares with an ObjectId: no booking created through the POST is
   * ever listed by the GET.
   */
  lemma PostedBookingNeverListed(bookings: seq<Booking>, id: Id, req: BookingBody, now: Timestamp, uid: Id)
    requires FromJson(req.fields)
    ensures BookingsOfUser(bookings + [NewBooking(id, req, now)], uid) == BookingsOfUser(bookings, uid)
  {
    var b := NewBooking(id, req, now);
    BookingsOfUserAfterInsert(bookings, b, uid);
    assert !UserIs(uid)(b);
  }
}
