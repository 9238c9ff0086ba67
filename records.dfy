/**
 * The documents of the `hotel_management` database: hotels with their
 * rooms (models/Hotel.ts), bookings with their two status fields
 * (models/User.ts) and payments. An identifier stands for a MongoDB
 * ObjectId; a document's free-form part is a map from field names to
 * JSON-like values, because the handlers store request bodies by spreading
 * them into the document.
 */
module Records {

  /** An ObjectId, abstractly: identifiers are compared, never inspected. */
  type Id = nat

  /** The value `new Date()` gave when a document was written. */
  type Timestamp = int

  /**
   * A field value. `Oid` is an ObjectId stored by the server; a body
   * parsed from JSON never holds one. `Compound` is a nested object or
   * array that no handler looks inside.
   */
  datatype Value =
    | Null
    | Bool(b: bool)
    | Num(n: int)
    | Str(s: string)
    | Oid(id: Id)
    | Compound(encoded: string)

  datatype BookingStatus = Pending | Confirmed | Cancelled

  datatype PaymentStatus = PaymentPending | PaymentCompleted | PaymentFailed

  datatype Room = Room(roomType: string, price: int, capacity: int, available: int, amenities: seq<string>)

  /** A hotel document: its `rooms` array is typed, every other field is kept as stored. */
  datatype Hotel = Hotel(id: Id, fields: map<string, Value>, rooms: seq<Room>, createdAt: Timestamp, updatedAt: Timestamp)

  /** A booking document: `guests` and the server-set fields are typed, the rest is kept as sent. */
  datatype Booking = Booking(
    id: Id,
    guests: int,
    fields: map<string, Value>,
    status: BookingStatus,
    paymentStatus: PaymentStatus,
    createdAt: Timestamp)

  datatype Payment = Payment(
    id: Id,
    bookingId: Id,
    amount: Value,
    paymentMethod: Value,
    status: PaymentStatus,
    createdAt: Timestamp)

  /** Whether a request body could have come from `request.json()`: no ObjectIds in it. */
  predicate FromJson(fields: map<string, Value>) {
    forall k :: k in fields ==> !fields[k].Oid?
  }
}
