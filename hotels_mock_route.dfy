/**
 * app/api/hotels/route.js: a stand-in for the hotels API that stores
 * nothing. `GET` returns a fixed list of four hotels; `POST` checks that
 * `name`, `location` and `price` are truthy and otherwise reports success.
 */
module HotelsMockRoute {
  import opened Optional
  import opened Records

  datatype MockHotel = MockHotel(
    id: nat,
    name: string,
    location: string,
    price: int,
    rating: real,
    image: string,
    tags: seq<string>)

  /** The four hotels `GET` always returns, in this order. */
  function Catalog(): (r: seq<MockHotel>)
    ensures |r| == 4
    ensures forall i :: 0 <= i < |r| ==> r[i].id == i + 1
    ensures forall i :: 0 <= i < |r| ==> r[i].price > 0 && 0.0 <= r[i].rating <= 5.0
  {
    [
      MockHotel(1, "Grand Plaza Hotel", "New York City, USA", 199, 4.8,
                "/images/hotels/grand-plaza.jpg", ["Luxury", "City View"]),
      MockHotel(2, "Seaside Resort & Spa", "Miami Beach, USA", 249, 4.7,
                "/images/hotels/seaside-resort.jpg", ["Beach Front", "Spa"]),
      MockHotel(3, "Mountain View Lodge", "Aspen, USA", 179, 4.6,
                "/images/hotels/mountain-lodge.jpg", ["Mountain View", "Ski Access"]),
      MockHotel(4, "Urban Boutique Hotel", "San Francisco, USA", 159, 4.5,
                "/images/hotels/urban-boutique.jpg", ["Boutique", "City Center"])
    ]
  }

  /** A body field as JavaScript reads it: `None` is `undefined`. */
  function Field(body: map<string, Value>, key: string): Option<Value> {
    if key in body then Some(body[key]) else None
  }

  /** JavaScript falsiness: `undefined`, `null`, `false`, `0` and `""`. */
  predicate Falsy(v: Option<Value>) {
    match v
    case None => true
    case Some(x) =>
      match x
      case Null => true
      case Bool(b) => !b
      case Num(n) => n == 0
      case Str(s) => s == ""
      case Oid(_) => false
      case Compound(_) => false
  }

  datatype PostResponse =
    | Added(success: bool, message: string)
    | Rejected(status: int, error: string)

  /**
   * `POST`: a body that is not JSON fails with 500; a falsy `name`, `location`
   * or `price` is a 400; anything else reports success without an id.
   */
  function Post(body: Option<map<string, Value>>): (r: PostResponse)
    ensures body.None? ==> r == Rejected(500, "Failed to add hotel")
    ensures body.Some? ==>
              (r.Rejected? <==>
                 Falsy(Field(body.value, "name")) || Falsy(Field(body.value, "location"))
                 || Falsy(Field(body.value, "price")))
    ensures body.Some? && r.Rejected? ==> r == Rejected(400, "Missing required hotel information")
    ensures r.Added? ==> r == Added(true, "Hotel added successfully")
  {
    match body
    case None => Rejected(500, "Failed to add hotel")
    case Some(b) =>
      if Falsy(Field(b, "name")) || Falsy(Field(b, "location")) || Falsy(Field(b, "price")) then
        Rejected(400, "Missing required hotel information")
      else
        Added(true, "Hotel added successfully")
  }

  /** Only `name`, `location` and `price` decide the outcome: rating, image and tags never do. */
  lemma PostReadsOnlyRequired(a: map<string, Value>, b: map<string, Value>)
    requires forall k :: k in {"name", "location", "price"} ==> Field(a, k) == Field(b, k)
    ensures Post(Some(a)) == Post(Some(b))
  {
    assert Field(a, "name") == Field(b, "name");
    assert Field(a, "location") == Field(b, "location");
    assert Field(a, "price") == Field(b, "price");
  }

  /** A price of 0 is falsy, so it is rejected like a missing one. */
  lemma ZeroPriceRejected(body: map<string, Value>)
    requires "price" in body && body["price"] == Num(0)
    ensures Post(Some(body)) == Rejected(400, "Missing required hotel information")
  {
  }
}
