/**
 * components/filter-sidebar.tsx: the ids of the filter checkboxes, the star
 * labels and the bounds of the price slider. Each checkbox and its label are
 * given the same id by the same expression, modelled once here.
 */
module FilterSidebar {
  import opened Text

  /** The slider's bounds and step, and the range it starts with. */
  const PriceMin := 0
  const PriceMax := 1000
  const PriceStep := 10
  const InitialPriceRange: (int, int) := (50, 500)

  /** The initial range is on the slider: inside the bounds, ordered, and on the step grid. */
  lemma InitialRangeOnSlider()
    ensures PriceMin <= InitialPriceRange.0 <= InitialPriceRange.1 <= PriceMax
    ensures InitialPriceRange.0 % PriceStep == 0 && InitialPriceRange.1 % PriceStep == 0
  {
  }

  /** The star ratings offered, highest first. */
  const Ratings: seq<nat> := [5, 4, 3, 2, 1]

  /** `rating === 1 ? "Star" : "Stars"`. */
  function RatingUnit(rating: nat): (unit: string)
    ensures unit == "Star" <==> rating == 1
    ensures unit != "Star" ==> unit == "Stars"
  {
    if rating == 1 then "Star" else "Stars"
  }

  /** `rating-{n}`. */
  function RatingId(rating: nat): string {
    "rating-" + Decimal(rating)
  }

  /** The rating reads back from its checkbox id, so different ratings get different ids. */
  lemma RatingIdInjective(a: nat, b: nat)
    requires RatingId(a) == RatingId(b)
    ensures a == b
  {
    assert Decimal(a) == RatingId(a)[|"rating-"|..];
    assert Decimal(b) == RatingId(b)[|"rating-"|..];
    DecimalRoundTrip(a);
    DecimalRoundTrip(b);
  }

  /** The five rating checkboxes have pairwise different ids. */
  lemma RatingIdsDistinct()
    ensures forall i, j :: 0 <= i < j < |Ratings| ==> RatingId(Ratings[i]) != RatingId(Ratings[j])
  {
    forall i, j | 0 <= i < j < |Ratings|
      ensures RatingId(Ratings[i]) != RatingId(Ratings[j])
    {
      if RatingId(Ratings[i]) == RatingId(Ratings[j]) {
        RatingIdInjective(Ratings[i], Ratings[j]);
      }
    }
  }

  const Amenities: seq<string> := [
    "Free WiFi", "Breakfast Included", "Swimming Pool", "Parking", "Fitness Center",
    "Restaurant", "Spa", "Pet Friendly"
  ]

  const PropertyTypes: seq<string> := ["Hotel", "Resort", "Apartment", "Villa", "Hostel", "Guest House"]

  /** `s.replace(/\s+/g, "-")`: every maximal run of whitespace becomes one "-". */
  function Dashed(s: string): (r: string)
    ensures NoSpace(r)
    decreases |s|
  {
    if s == [] then []
    else if IsSpace(s[0]) then "-" + Dashed(TrimStart(s[1..]))
    else [s[0]] + Dashed(s[1..])
  }

  /** The slug part of an amenity id: dashed, then lowercased. */
  function AmenitySlug(amenity: string): (slug: string)
    ensures NoSpace(slug) && NoUpper(slug)
  {
    ToLowerKeepsNoSpace(Dashed(amenity));
    ToLowerNoUpper(Dashed(amenity));
    ToLower(Dashed(amenity))
  }

  /** `amenity-{slug}`: the id of an amenity's checkbox and of its label. */
  function AmenityId(amenity: string): string {
    "amenity-" + AmenitySlug(amenity)
  }

  /** A string without whitespace is left as it is. */
  lemma {:induction false} DashedOfNoSpace(s: string)
    requires NoSpace(s)
    ensures Dashed(s) == s
  {
    if s != [] {
      DashedOfNoSpace(s[1..]);
      assert [s[0]] + s[1..] == s;
    }
  }

  /** Skipping leading whitespace stops at the first other character. */
  lemma {:induction false} TrimStartOfRun(run: string, rest: string)
    requires forall i :: 0 <= i < |run| ==> IsSpace(run[i])
    requires rest == [] || !IsSpace(rest[0])
    ensures TrimStart(run + rest) == rest
  {
    if run != [] {
      TrimStartOfRun(run[1..], rest);
      assert (run + rest)[1..] == run[1..] + rest;
    } else {
      assert run + rest == rest;
    }
  }

  /**
   * A word, a run of whitespace and the text after the run: the word is kept,
   * the whole run becomes a single "-", and the rest is dashed in turn.
   */
  lemma {:induction false} DashedWordThenRun(word: string, run: string, rest: string)
    requires NoSpace(word)
    requires run != [] && forall i :: 0 <= i < |run| ==> IsSpace(run[i])
    requires rest == [] || !IsSpace(rest[0])
    ensures Dashed(word + run + rest) == word + "-" + Dashed(rest)
  {
    if word == [] {
      assert word + run + rest == run + rest;
      assert (run + rest)[1..] == run[1..] + rest;
      TrimStartOfRun(run[1..], rest);
    } else {
      var s := word + run + rest;
      assert s[0] == word[0] && s[1..] == word[1..] + run + rest;
      DashedWordThenRun(word[1..], run, rest);
      assert [word[0]] + word[1..] == word;
    }
  }

  /** Slugging a slug changes nothing. */
  lemma AmenitySlugIdempotent(amenity: string)
    ensures AmenitySlug(AmenitySlug(amenity)) == AmenitySlug(amenity)
  {
    var slug := AmenitySlug(amenity);
    DashedOfNoSpace(slug);
    ToLowerOfLower(slug);
  }

  /** The two-word amenity "Free WiFi" gets the id "amenity-free-wifi". */
  lemma FreeWifiId()
    ensures AmenityId("Free WiFi") == "amenity-free-wifi"
  {
    calc {
      AmenityId("Free WiFi");
      "amenity-" + ToLower(Dashed("Free WiFi"));
      { FreeWifiDashed(); }
      "amenity-" + ToLower("Free-WiFi");
      { FreeWifiLowered(); }
      "amenity-" + "free-wifi";
      "amenity-free-wifi";
    }
  }

  lemma FreeWifiDashed()
    ensures Dashed("Free WiFi") == "Free-WiFi"
  {
    var free, wifi := "Free", "WiFi";
    DashedTwoWords(free, wifi);
    assert free + " " + wifi == "Free WiFi";
    assert free + "-" + wifi == "Free-WiFi";
  }

  /** Two words separated by one space are joined by a dash. */
  lemma DashedTwoWords(first: string, second: string)
    requires NoSpace(first) && NoSpace(second) && second != []
    ensures Dashed(first + " " + second) == first + "-" + second
  {
    DashedWordThenRun(first, " ", second);
    DashedOfNoSpace(second);
  }

  lemma FreeWifiLowered()
    ensures ToLower("Free-WiFi") == "free-wifi"
  {
    var s := "Free-WiFi";
    forall i | 0 <= i < |s|
      ensures ToLower(s)[i] == "free-wifi"[i]
    {
    }
  }

  /** `type-{type.toLowerCase()}`: the property type lowercased, with its spaces kept. */
  function TypeId(propertyType: string): (id: string)
    ensures |id| == |"type-"| + |propertyType|
    ensures id[..|"type-"|] == "type-"
    ensures forall i :: 0 <= i < |propertyType| ==>
              id[|"type-"| + i] == LowerChar(propertyType[i])
  {
    "type-" + ToLower(propertyType)
  }

  /** "Guest House" keeps its space: the id is "type-guest house". */
  lemma GuestHouseId()
    ensures TypeId("Guest House") == "type-guest house"
  {
    assert ToLower("Guest House") == "guest house";
  }

  /** A slug starts with the name's first two characters lowercased when neither is whitespace. */
  lemma SlugStart(name: string)
    requires |name| >= 2 && !IsSpace(name[0]) && !IsSpace(name[1])
    ensures |AmenitySlug(name)| >= 2
    ensures AmenitySlug(name)[0] == LowerChar(name[0]) && AmenitySlug(name)[1] == LowerChar(name[1])
  {
    var rest := name[1..];
    assert rest[0] == name[1] && rest[1..] == name[2..];
    assert Dashed(name) == [name[0]] + Dashed(rest);
    assert Dashed(rest) == [name[1]] + Dashed(name[2..]);
  }

  /** The first two characters of a name, lowercased. */
  function Initials(name: string): string
    requires |name| >= 2
  {
    [LowerChar(name[0]), LowerChar(name[1])]
  }

  /** Names whose lowercased initials differ get different amenity ids. */
  lemma IdsDistinctByInitials(names: seq<string>)
    requires forall i :: 0 <= i < |names| ==> |names[i]| >= 2 && !IsSpace(names[i][0]) && !IsSpace(names[i][1])
    requires forall i, j :: 0 <= i < j < |names| ==> Initials(names[i]) != Initials(names[j])
    ensures forall i, j :: 0 <= i < j < |names| ==> AmenityId(names[i]) != AmenityId(names[j])
  {
    forall i, j | 0 <= i < j < |names|
      ensures AmenityId(names[i]) != AmenityId(names[j])
    {
      var a, b := names[i], names[j];
      SlugStart(a);
      SlugStart(b);
      var n := |"amenity-"|;
      assert AmenityId(a)[n] == LowerChar(a[0]) && AmenityId(a)[n + 1] == LowerChar(a[1]);
      assert AmenityId(b)[n] == LowerChar(b[0]) && AmenityId(b)[n + 1] == LowerChar(b[1]);
      assert Initials(a)[0] != Initials(b)[0] || Initials(a)[1] != Initials(b)[1];
    }
  }

  /** The eight amenity checkboxes have pairwise different ids. */
  lemma AmenityIdsDistinct()
    ensures forall i, j :: 0 <= i < j < |Amenities| ==> AmenityId(Amenities[i]) != AmenityId(Amenities[j])
  {
    IdsDistinctByInitials(Amenities);
  }

  /** The six property-type checkboxes have pairwise different ids. */
  lemma TypeIdsDistinct()
    ensures forall i, j :: 0 <= i < j < |PropertyTypes| ==> TypeId(PropertyTypes[i]) != TypeId(PropertyTypes[j])
  {
    forall i, j | 0 <= i < j < |PropertyTypes|
      ensures TypeId(PropertyTypes[i]) != TypeId(PropertyTypes[j])
    {
      var a, b := PropertyTypes[i], PropertyTypes[j];
      if |a| == |b| {
        assert TypeId(a)[|"type-"|] == LowerChar(a[0]);
        assert TypeId(b)[|"type-"|] == LowerChar(b[0]);
        assert LowerChar(a[0]) != LowerChar(b[0]);
      }
    }
  }
}
