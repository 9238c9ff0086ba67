/**
 * components/room-list.tsx: the rooms of one hotel, each with a "Book Now"
 * link carrying the stay in its query string, or a disabled "Sold Out" button.
 */
module RoomList {
  import opened Text
  import opened Icons
  import Seqs

  datatype ListedRoom = ListedRoom(
    id: nat,
    hotelId: nat,
    name: string,
    description: string,
    price: int,
    capacity: int,
    size: string,
    bedType: string,
    image: string,
    amenities: seq<string>,
    available: bool)

  /** The rooms the component knows, all of hotel 101; the last one is sold out. */
  const MockRooms: seq<ListedRoom> := [
    ListedRoom(1, 101, "Deluxe King Room",
               "Spacious room with a king-sized bed, city view, and modern amenities.",
               199, 2, "35 m\U{00B2}", "1 King Bed", "/placeholder.svg?height=300&width=500",
               ["Free WiFi", "Breakfast Included", "Air Conditioning", "Flat-screen TV", "Minibar"], true),
    ListedRoom(2, 101, "Premium Double Room",
               "Comfortable room with two double beds, perfect for families or groups.",
               249, 4, "40 m\U{00B2}", "2 Double Beds", "/placeholder.svg?height=300&width=500",
               ["Free WiFi", "Breakfast Included", "Air Conditioning", "Flat-screen TV", "Minibar"], true),
    ListedRoom(3, 101, "Executive Suite",
               "Luxury suite with separate living area, premium amenities, and panoramic city views.",
               349, 2, "55 m\U{00B2}", "1 King Bed", "/placeholder.svg?height=300&width=500",
               ["Free WiFi", "Breakfast Included", "Air Conditioning", "Flat-screen TV", "Minibar",
                "Bathtub", "Lounge Access"], true),
    ListedRoom(4, 101, "Family Suite",
               "Spacious suite with two bedrooms, perfect for families with children.",
               399, 6, "70 m\U{00B2}", "1 King Bed + 2 Twin Beds", "/placeholder.svg?height=300&width=500",
               ["Free WiFi", "Breakfast Included", "Air Conditioning", "Flat-screen TV", "Minibar",
                "Kitchenette"], false)
  ]

  function OfHotel(hotelId: nat): ListedRoom -> bool {
    (r: ListedRoom) => r.hotelId == hotelId
  }

  /** `rooms.filter((room) => room.hotelId === hotelId)`. */
  function HotelRooms(rooms: seq<ListedRoom>, hotelId: nat): seq<ListedRoom> {
    Seqs.Filter(rooms, OfHotel(hotelId))
  }

  /**
   * The rooms shown are exactly the hotel's rooms, in their original order;
   * availability plays no part, so sold-out rooms are listed too.
   */
  lemma HotelRoomsExact(rooms: seq<ListedRoom>, hotelId: nat, r: ListedRoom)
    ensures r in HotelRooms(rooms, hotelId) <==> r in rooms && r.hotelId == hotelId
    ensures Seqs.IsSubsequence(HotelRooms(rooms, hotelId), rooms)
  {
    Seqs.FilterMembership(rooms, OfHotel(hotelId), r);
    Seqs.FilterIsSubsequence(rooms, OfHotel(hotelId));
  }

  /** Hotel 101 gets all four rooms, the sold-out one included; any other hotel gets none. */
  lemma MockRoomsOfHotel(hotelId: nat)
    ensures hotelId == 101 ==> HotelRooms(MockRooms, hotelId) == MockRooms
    ensures hotelId != 101 ==> HotelRooms(MockRooms, hotelId) == []
  {
    if hotelId == 101 {
      Seqs.FilterAll(MockRooms, OfHotel(hotelId));
    } else {
      Seqs.FilterEmpty(MockRooms, OfHotel(hotelId));
    }
  }

  /** `/booking/{hotelId}`: the path of the booking page. */
  function BookingPath(hotelId: nat): string {
    "/booking/" + Decimal(hotelId)
  }

  /** The booking link, built as the template string builds it; the values are not URL-encoded. */
  function BookingLink(hotelId: nat, roomId: nat, checkIn: string, checkOut: string, guests: string): string {
    BookingPath(hotelId) + "?roomId=" + Decimal(roomId) + "&checkIn=" + checkIn
    + "&checkOut=" + checkOut + "&guests=" + guests
  }

  /** The four `key=value` pieces of the link's query, in their fixed order. */
  function QueryPieces(roomId: nat, checkIn: string, checkOut: string, guests: string): seq<string> {
    ["roomId=" + Decimal(roomId), "checkIn=" + checkIn, "checkOut=" + checkOut, "guests=" + guests]
  }

  /** Joining four pieces puts the separator between each neighbouring pair. */
  lemma JoinFour(a: string, b: string, c: string, d: string, sep: char)
    ensures Join([a, b, c, d], sep) == a + [sep] + b + [sep] + c + [sep] + d
  {
    assert Join([d], sep) == d;
    assert [c, d][1..] == [d];
    assert Join([c, d], sep) == c + [sep] + d;
    assert [b, c, d][1..] == [c, d];
    assert Join([b, c, d], sep) == b + [sep] + (c + [sep] + d);
    assert [a, b, c, d][1..] == [b, c, d];
    assert Join([a, b, c, d], sep) == a + [sep] + (b + [sep] + (c + [sep] + d));
  }

  /** Regrouping the template's concatenation into the path, "?" and the four joined pieces. */
  lemma TemplateRegrouped(path: string, id: string, checkIn: string, checkOut: string, guests: string)
    ensures path + "?roomId=" + id + "&checkIn=" + checkIn + "&checkOut=" + checkOut + "&guests=" + guests
            == path + "?" + (("roomId=" + id) + ['&'] + ("checkIn=" + checkIn) + ['&']
                             + ("checkOut=" + checkOut) + ['&'] + ("guests=" + guests))
  {
    assert "?roomId=" == "?" + "roomId=";
    assert "&checkIn=" == ['&'] + "checkIn=";
    assert "&checkOut=" == ['&'] + "checkOut=";
    assert "&guests=" == ['&'] + "guests=";
  }

  /** The link is the path, "?" and the four pieces joined by "&". */
  lemma BookingLinkIsJoin(hotelId: nat, roomId: nat, checkIn: string, checkOut: string, guests: string)
    ensures BookingLink(hotelId, roomId, checkIn, checkOut, guests) ==
              BookingPath(hotelId) + "?" + Join(QueryPieces(roomId, checkIn, checkOut, guests), '&')
  {
    var id := Decimal(roomId);
    JoinFour("roomId=" + id, "checkIn=" + checkIn, "checkOut=" + checkOut, "guests=" + guests, '&');
    TemplateRegrouped(BookingPath(hotelId), id, checkIn, checkOut, guests);
  }

  /**
   * When no value contains "&", splitting the query at "&" gives back exactly
   * the four pieces, and the room id reads back from its digits.
   */
  lemma BookingLinkParses(roomId: nat, checkIn: string, checkOut: string, guests: string)
    requires '&' !in checkIn && '&' !in checkOut && '&' !in guests
    ensures Split(Join(QueryPieces(roomId, checkIn, checkOut, guests), '&'), '&') ==
              QueryPieces(roomId, checkIn, checkOut, guests)
    ensures DigitsValue(QueryPieces(roomId, checkIn, checkOut, guests)[0][|"roomId="|..]) == roomId
  {
    var pieces := QueryPieces(roomId, checkIn, checkOut, guests);
    assert pieces[0][|"roomId="|..] == Decimal(roomId);
    DecimalRoundTrip(roomId);
    forall k | 0 <= k < |pieces|
      ensures '&' !in pieces[k]
    {
      if k == 0 {
        assert forall j :: 0 <= j < |Decimal(roomId)| ==> Decimal(roomId)[j] != '&';
      }
    }
    SplitJoin(pieces, '&');
  }

  datatype RoomAction = BookNow(href: string) | SoldOut

  /** The room's button: a booking link exactly for an available room. */
  function Action(room: ListedRoom, hotelId: nat, checkIn: string, checkOut: string, guests: string): (a: RoomAction)
    ensures a.BookNow? <==> room.available
    ensures a.BookNow? ==> a.href == BookingLink(hotelId, room.id, checkIn, checkOut, guests)
  {
    if room.available then BookNow(BookingLink(hotelId, room.id, checkIn, checkOut, guests)) else SoldOut
  }

  /** The link's path names the hotel of the page, not the room's own `hotelId`. */
  lemma LinkUsesPageHotel(room: ListedRoom, hotelId: nat, checkIn: string, checkOut: string, guests: string)
    requires room.available
    ensures StartsWith(Action(room, hotelId, checkIn, checkOut, guests).href, BookingPath(hotelId) + "?roomId=")
  {
    var link := Action(room, hotelId, checkIn, checkOut, guests).href;
    var prefix := BookingPath(hotelId) + "?roomId=";
    assert link == prefix + (Decimal(room.id) + "&checkIn=" + checkIn + "&checkOut=" + checkOut + "&guests=" + guests);
    assert link[..|prefix|] == prefix;
  }

  /** The badge icon of a room amenity. */
  function AmenityIcon(amenity: string): (icon: Icon)
    ensures icon == Wifi <==> amenity == "Free WiFi"
    ensures icon == Coffee <==> amenity == "Breakfast Included"
    ensures icon == Check <==> amenity != "Free WiFi" && amenity != "Breakfast Included"
  {
    if amenity == "Free WiFi" then Wifi
    else if amenity == "Breakfast Included" then Coffee
    else Check
  }

  /** `room.image || "/placeholder.svg"`. */
  function ImageSource(room: ListedRoom): (src: string)
    ensures src != ""
    ensures room.image != "" ==> src == room.image
    ensures room.image == "" ==> src == "/placeholder.svg"
  {
    if room.image != "" then room.image else "/placeholder.svg"
  }
}
