/**
 * What `POST /api/payments` (app/api/payments/route.ts) does to the
 * collections, as functions: the payment document that is inserted and the
 * `$set` of the two status fields of the referenced booking.
 */
module PaymentsRoute {
  import opened Optional
  import opened Records
  import Seqs

  /** The destructured body `{ bookingId, amount, paymentMethod }`; `Null` stands for a missing key. */
  datatype PaymentRequest = PaymentRequest(amount: Value, paymentMethod: Value)

  /** The payment document: always `completed`, whatever the amount. */
  function NewPayment(id: Id, bookingId: Id, req: PaymentRequest, now: Timestamp): (p: Payment)
    ensures p.id == id && p.bookingId == bookingId && p.createdAt == now
    ensures p.status == PaymentCompleted
    ensures p.amount == req.amount && p.paymentMethod == req.paymentMethod
  {
    Payment(id, bookingId, req.amount, req.paymentMethod, PaymentCompleted, now)
  }

  /** `$set: { paymentStatus: 'completed', status: 'confirmed' }` on one booking, whatever its state. */
  function Confirm(b: Booking): (r: Booking)
    ensures r.status == Confirmed && r.paymentStatus == PaymentCompleted
    ensures r.(status := b.status, paymentStatus := b.paymentStatus) == b
  {
    b.(status := Confirmed, paymentStatus := PaymentCompleted)
  }

  function BookingHasId(id: Id): Booking -> bool {
    (b: Booking) => b.id == id
  }

  /** `updateOne({ _id: oid }, { $set: ... })`: the first booking whose id is `oid` is confirmed. */
  function ConfirmFirst(bookings: seq<Booking>, oid: Id): (r: seq<Booking>)
    ensures |r| == |bookings|
    ensures forall i :: 0 <= i < |bookings| ==> r[i].id == bookings[i].id
    ensures (forall i :: 0 <= i < |bookings| ==> bookings[i].id != oid) ==> r == bookings
    ensures forall i :: 0 <= i < |bookings| && bookings[i].id != oid ==> r[i] == bookings[i]
    ensures forall i :: 0 <= i < |bookings| && bookings[i].id == oid ==>
              (forall j :: 0 <= j < i ==> bookings[j].id != oid) ==>
                r[i] == Confirm(bookings[i])
  {
    match Seqs.FirstIndex(bookings, BookingHasId(oid))
    case None => bookings
    case Some(k) => bookings[k := Confirm(bookings[k])]
  }

  /**
   * No guard on the prior state: a cancelled or already confirmed booking
   * comes out confirmed and paid, and every other field is kept.
   */
  lemma ConfirmFromAnyState(b: Booking)
    ensures Confirm(b).status == Confirmed && Confirm(b).paymentStatus == PaymentCompleted
    ensures Confirm(b).id == b.id && Confirm(b).fields == b.fields && Confirm(b).guests == b.guests
    ensures Confirm(b).createdAt == b.createdAt
  {
  }

  /** Applying the booking update a second time changes nothing more. */
  lemma ConfirmFirstIdempotent(bookings: seq<Booking>, oid: Id)
    ensures ConfirmFirst(ConfirmFirst(bookings, oid), oid) == ConfirmFirst(bookings, oid)
  {
    var once := ConfirmFirst(bookings, oid);
    Seqs.FirstIndexSamePattern(bookings, once, BookingHasId(oid));
  }
}
