/**
 * components/hotel-list.tsx: the search results list. The hotels are a fixed
 * list; the search location filters them by case-insensitive substring match
 * on their location. The loading timer and the `error` state, which nothing
 * ever sets, are not modelled.
 */
module HotelList {
  import opened Optional
  import opened Text
  import opened Icons
  import Seqs

  datatype ListedHotel = ListedHotel(
    id: nat,
    name: string,
    location: string,
    price: int,
    originalPrice: int,
    rating: real,
    reviewCount: nat,
    image: string,
    amenities: seq<string>,
    distance: real)

  /** The hotels the component lists, in this order. */
  const MockHotels: seq<ListedHotel> := [
    ListedHotel(101, "Grand Plaza Hotel", "Downtown, New York City", 199, 249, 4.8, 1243,
                "/images/hotels/grand-plaza.jpg",
                ["Free WiFi", "Breakfast", "Restaurant", "Parking"], 0.5),
    ListedHotel(102, "Riverside Suites", "Upper East Side, New York City", 179, 199, 4.6, 867,
                "/images/hotels/riverside-suites.jpg",
                ["Free WiFi", "Kitchen", "Gym", "Laundry"], 1.2),
    ListedHotel(103, "Metropolitan Boutique Hotel", "Chelsea, New York City", 229, 259, 4.9, 532,
                "/placeholder.svg?height=300&width=500",
                ["Free WiFi", "Breakfast", "Spa", "Bar"], 0.8),
    ListedHotel(104, "Central Park Inn", "Midtown, New York City", 159, 189, 4.5, 976,
                "/placeholder.svg?height=300&width=500",
                ["Free WiFi", "Restaurant", "Gym", "Parking"], 0.3),
    ListedHotel(105, "Skyline Hotel & Suites", "Financial District, New York City", 209, 239, 4.7, 1102,
                "/placeholder.svg?height=300&width=500",
                ["Free WiFi", "Breakfast", "Pool", "Spa"], 1.5)
  ]

  /** The lowercased location contains the lowercased query. */
  function LocationMatches(query: string): ListedHotel -> bool {
    (h: ListedHotel) => Contains(ToLower(h.location), ToLower(query))
  }

  /** `filteredHotels`. */
  function FilteredHotels(hotels: seq<ListedHotel>, query: string): seq<ListedHotel> {
    Seqs.Filter(hotels, LocationMatches(query))
  }

  /** The hotels kept are exactly the matching ones, in their original order. */
  lemma FilteredHotelsExact(hotels: seq<ListedHotel>, query: string, h: ListedHotel)
    ensures h in FilteredHotels(hotels, query) <==>
              h in hotels && Contains(ToLower(h.location), ToLower(query))
    ensures Seqs.IsSubsequence(FilteredHotels(hotels, query), hotels)
  {
    Seqs.FilterMembership(hotels, LocationMatches(query), h);
    Seqs.FilterIsSubsequence(hotels, LocationMatches(query));
  }

  /** An empty search keeps every hotel. */
  lemma EmptyQueryKeepsAll(hotels: seq<ListedHotel>)
    ensures FilteredHotels(hotels, "") == hotels
  {
    forall i | 0 <= i < |hotels|
      ensures LocationMatches("")(hotels[i])
    {
      assert StartsWith(ToLower(hotels[i].location), ToLower(""));
    }
    Seqs.FilterAll(hotels, LocationMatches(""));
  }

  /** Queries that differ only in letter case select the same hotels. */
  lemma FilterIgnoresCase(hotels: seq<ListedHotel>, query: string, other: string)
    requires ToLower(query) == ToLower(other)
    ensures FilteredHotels(hotels, query) == FilteredHotels(hotels, other)
  {
    Seqs.FilterCongruent(hotels, LocationMatches(query), LocationMatches(other));
  }

  /** Filtering the results again with the same query changes nothing. */
  lemma FilterTwice(hotels: seq<ListedHotel>, query: string)
    ensures FilteredHotels(FilteredHotels(hotels, query), query) == FilteredHotels(hotels, query)
  {
    Seqs.FilterIdempotent(hotels, LocationMatches(query));
  }

  /** `getAmenityIcon`: four amenity names, matched after lowercasing; no icon for any other. */
  function AmenityIcon(amenity: string): (icon: Option<Icon>)
    ensures icon == Some(Wifi) <==> ToLower(amenity) == "free wifi"
    ensures icon == Some(Coffee) <==> ToLower(amenity) == "breakfast"
    ensures icon == Some(Utensils) <==> ToLower(amenity) == "restaurant"
    ensures icon == Some(Car) <==> ToLower(amenity) == "parking"
    ensures icon.None? <==> ToLower(amenity) !in {"free wifi", "breakfast", "restaurant", "parking"}
  {
    var key := ToLower(amenity);
    if key == "free wifi" then Some(Wifi)
    else if key == "breakfast" then Some(Coffee)
    else if key == "restaurant" then Some(Utensils)
    else if key == "parking" then Some(Car)
    else None
  }

  /** Names that differ only in letter case get the same icon. */
  lemma AmenityIconIgnoresCase(amenity: string, other: string)
    requires ToLower(amenity) == ToLower(other)
    ensures AmenityIcon(amenity) == AmenityIcon(other)
  {
  }

  /** The savings badge: shown exactly when the original price is higher, for the difference. */
  function Savings(h: ListedHotel): (saved: Option<int>)
    ensures saved.Some? <==> h.originalPrice > h.price
    ensures saved.Some? ==> saved.value > 0 && h.price + saved.value == h.originalPrice
  {
    if h.originalPrice > h.price then Some(h.originalPrice - h.price) else None
  }

  /** Every hotel of the list is shown with a savings badge. */
  lemma MockHotelsAllDiscounted()
    ensures forall i :: 0 <= i < |MockHotels| ==> Savings(MockHotels[i]).Some?
  {
  }

  datatype ListView =
    | NoHotelsFound(query: string)
    | HotelsFound(count: nat, hotels: seq<ListedHotel>)

  /** What is rendered once loading is over: the empty message, or the count and the cards. */
  function View(hotels: seq<ListedHotel>, query: string): (v: ListView)
    ensures v.NoHotelsFound? <==> FilteredHotels(hotels, query) == []
    ensures v.NoHotelsFound? ==> v.query == query
    ensures v.HotelsFound? ==> v.hotels == FilteredHotels(hotels, query) && v.count == |v.hotels| > 0
  {
    var found := FilteredHotels(hotels, query);
    if |found| == 0 then NoHotelsFound(query) else HotelsFound(|found|, found)
  }

  /** "No hotels found" is shown exactly when no hotel's location contains the query. */
  lemma NoHotelsFoundExactly(hotels: seq<ListedHotel>, query: string)
    ensures View(hotels, query).NoHotelsFound? <==>
              forall i :: 0 <= i < |hotels| ==> !Contains(ToLower(hotels[i].location), ToLower(query))
  {
    Seqs.FilterEmpty(hotels, LocationMatches(query));
  }
}
