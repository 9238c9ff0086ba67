/**
 * app/search/page.jsx: the search page reads four values from the URL's
 * query parameters, titles the page after the location and hands the values
 * to the hotel list.
 */
module SearchPage {
  import HotelList

  /** A query parameter as Next.js gives it: one string, or an array when it is repeated. */
  datatype Param = Single(value: string) | Repeated(values: seq<string>)

  /** The parameter's value when it is a single string, `default` when it is missing or repeated. */
  function StringParam(params: map<string, Param>, key: string, default: string): (r: string)
    ensures key in params && params[key].Single? ==> r == params[key].value
    ensures key !in params || params[key].Repeated? ==> r == default
  {
    if key in params && params[key].Single? then params[key].value else default
  }

  /** The props the page passes to `HotelList`. */
  datatype Search = Search(location: string, checkIn: string, checkOut: string, guests: string)

  /** The four values, each defaulting to "" except `guests`, which defaults to "2". */
  function ReadSearch(params: map<string, Param>): (s: Search)
    ensures s.location == StringParam(params, "location", "")
    ensures s.checkIn == StringParam(params, "checkIn", "")
    ensures s.checkOut == StringParam(params, "checkOut", "")
    ensures s.guests == StringParam(params, "guests", "2")
  {
    Search(StringParam(params, "location", ""), StringParam(params, "checkIn", ""),
           StringParam(params, "checkOut", ""), StringParam(params, "guests", "2"))
  }

  /** A page opened without parameters searches every location for two guests. */
  lemma NoParamsDefaults()
    ensures ReadSearch(map[]) == Search("", "", "", "2")
  {
  }

  /** A repeated parameter counts as absent, even when one of its values is a string. */
  lemma RepeatedIsAbsent(params: map<string, Param>, key: string, values: seq<string>)
    requires key in {"location", "checkIn", "checkOut", "guests"}
    ensures ReadSearch(params[key := Repeated(values)]) == ReadSearch(params - {key})
  {
  }

  /** `location ? "Hotels in {location}" : "Search Results"`. */
  function Title(location: string): (t: string)
    ensures location != "" ==> t == "Hotels in " + location
    ensures location == "" <==> t == "Search Results"
  {
    if location != "" then
      assert ("Hotels in " + location)[0] == 'H';
      "Hotels in " + location
    else "Search Results"
  }

  datatype Page = Page(title: string, search: Search, results: HotelList.ListView)

  /** The page: its title, and the hotel list for the values read, passed on unchanged. */
  function Render(params: map<string, Param>): (p: Page)
    ensures p.search == ReadSearch(params)
    ensures p.title == Title(ReadSearch(params).location)
    ensures p.results == HotelList.View(HotelList.MockHotels, ReadSearch(params).location)
  {
    var search := ReadSearch(params);
    Page(Title(search.location), search, HotelList.View(HotelList.MockHotels, search.location))
  }

  /** Without a location the page lists every hotel under the title "Search Results". */
  lemma NoLocationListsAll(params: map<string, Param>)
    requires "location" !in params
    ensures Render(params).title == "Search Results"
    ensures Render(params).results == HotelList.HotelsFound(|HotelList.MockHotels|, HotelList.MockHotels)
  {
    HotelList.EmptyQueryKeepsAll(HotelList.MockHotels);
  }
}
