/**
 * What `POST /api/hotels` (app/api/hotels/route.ts) stores: the body as
 * sent, with `createdAt` and `updatedAt` stamped by the server.
 */
module HotelsRoute {
  import opened Records

  /** Keys the handler writes itself after the spread; a value the body gives for one of them is overridden. */
  const ServerSetKeys: set<string> := {"createdAt", "updatedAt"}

  /**
   * The document id key. The handler leaves a client `_id` in place; the model
   * stores the counter's id instead and drops it.
   */
  const IdKey := "_id"

  /** The body keys that do not reach the stored `fields`. */
  const DroppedKeys: set<string> := ServerSetKeys + {IdKey}

  /** The JSON body: its `rooms` array, and every other key in `fields`. */
  datatype HotelRequest = HotelRequest(rooms: seq<Room>, fields: map<string, Value>)

  /** The body key read into `HotelRequest.rooms`. */
  const RoomsKey := "rooms"

  /** A parsed body: `rooms` has its own field, so `fields` never holds that key as well. */
  type HotelBody = req: HotelRequest | RoomsKey !in req.fields
    witness HotelRequest([], map[])

  /** The document `insertOne({...hotel, createdAt: new Date(), updatedAt: new Date()})` stores. */
  function NewHotel(id: Id, req: HotelBody, now: Timestamp): (h: Hotel)
    ensures h.id == id && h.rooms == req.rooms
    ensures h.createdAt == now && h.updatedAt == now
    ensures forall k :: k in req.fields && k !in DroppedKeys ==> k in h.fields && h.fields[k] == req.fields[k]
    ensures forall k :: k in h.fields ==> k in req.fields && k !in DroppedKeys
    ensures RoomsKey !in h.fields
  {
    Hotel(id, req.fields - DroppedKeys, req.rooms, now, now)
  }
}
