/**
 * components/hotel-amenities.tsx: a hotel's amenities grouped under six fixed
 * categories. A category shows its own list, in its own order, restricted to
 * the names the hotel has; a category left empty is not shown.
 */
module HotelAmenities {
  import opened Icons
  import Seqs

  datatype Category = Category(name: string, amenities: seq<string>)

  /** One rendered category: its heading and the amenities listed under it. */
  datatype Group = Group(category: string, shown: seq<string>)

  /** The categories in declaration order; "Minibar" and "Airport Shuttle" are listed twice. */
  const Categories: seq<Category> := [
    Category("Internet & Entertainment", ["Free WiFi", "Flat-screen TV"]),
    Category("Food & Drink", ["Breakfast Included", "Restaurant", "Bar", "Minibar", "Room Service"]),
    Category("Wellness & Recreation", ["Fitness Center", "Spa", "Swimming Pool"]),
    Category("Services", ["Concierge Service", "24-hour Front Desk", "Airport Shuttle", "Laundry",
                          "Business Center"]),
    Category("Parking & Transportation", ["Parking", "Airport Shuttle"]),
    Category("Room Features", ["Air Conditioning", "Minibar", "Safe", "Bathtub"])
  ]

  /** `amenitySet.has(amenity)`. */
  function InSet(have: set<string>): string -> bool {
    (a: string) => a in have
  }

  /** `categoryAmenities.filter((amenity) => amenitySet.has(amenity))`. */
  function Available(c: Category, have: set<string>): seq<string> {
    Seqs.Filter(c.amenities, InSet(have))
  }

  /** Every category with its available amenities, before empty ones are dropped. */
  function AllGroups(have: set<string>): (r: seq<Group>)
    ensures |r| == |Categories|
    ensures forall i :: 0 <= i < |Categories| ==>
              r[i] == Group(Categories[i].name, Available(Categories[i], have))
  {
    seq(|Categories|, i requires 0 <= i < |Categories| =>
          Group(Categories[i].name, Available(Categories[i], have)))
  }

  predicate NonEmptyGroup(g: Group) {
    g.shown != []
  }

  /** The categories rendered for a hotel's amenity list. */
  function Grouped(amenities: seq<string>): seq<Group> {
    Seqs.Filter(AllGroups(set a | a in amenities), NonEmptyGroup)
  }

  /**
   * A group is rendered exactly when it is some category with its available
   * amenities and that list is not empty; groups come in declaration order.
   */
  lemma GroupedExact(amenities: seq<string>, g: Group)
    ensures g in Grouped(amenities) <==>
              g.shown != [] &&
              exists i :: 0 <= i < |Categories| &&
                g == Group(Categories[i].name, Available(Categories[i], set a | a in amenities))
    ensures Seqs.IsSubsequence(Grouped(amenities), AllGroups(set a | a in amenities))
  {
    var all := AllGroups(set a | a in amenities);
    Seqs.FilterMembership(all, NonEmptyGroup, g);
    Seqs.FilterIsSubsequence(all, NonEmptyGroup);
    if g in all {
      var i :| 0 <= i < |all| && all[i] == g;
      assert g == Group(Categories[i].name, Available(Categories[i], set a | a in amenities));
    }
  }

  /** A category lists exactly its own amenities that the hotel has, in its own order. */
  lemma AvailableExact(c: Category, amenities: seq<string>, a: string)
    ensures a in Available(c, set x | x in amenities) <==> a in c.amenities && a in amenities
    ensures Seqs.IsSubsequence(Available(c, set x | x in amenities), c.amenities)
  {
    Seqs.FilterMembership(c.amenities, InSet(set x | x in amenities), a);
    Seqs.FilterIsSubsequence(c.amenities, InSet(set x | x in amenities));
  }

  /** An amenity the hotel has is shown under every category that lists it. */
  lemma ShownUnderEveryCategory(amenities: seq<string>, a: string, i: nat)
    requires i < |Categories| && a in Categories[i].amenities && a in amenities
    ensures Group(Categories[i].name, Available(Categories[i], set x | x in amenities)) in Grouped(amenities)
    ensures a in Available(Categories[i], set x | x in amenities)
  {
    var have := set x | x in amenities;
    AvailableExact(Categories[i], amenities, a);
    var g := Group(Categories[i].name, Available(Categories[i], have));
    assert g == AllGroups(have)[i];
    Seqs.FilterMembership(AllGroups(have), NonEmptyGroup, g);
  }

  /** "Minibar" appears under both "Food & Drink" and "Room Features". */
  lemma MinibarShownTwice(amenities: seq<string>)
    requires "Minibar" in amenities
    ensures exists g :: g in Grouped(amenities) && g.category == "Food & Drink" && "Minibar" in g.shown
    ensures exists g :: g in Grouped(amenities) && g.category == "Room Features" && "Minibar" in g.shown
  {
    var have := set x | x in amenities;
    assert "Minibar" == Categories[1].amenities[3];
    ShownUnderEveryCategory(amenities, "Minibar", 1);
    assert "Minibar" == Categories[5].amenities[1];
    ShownUnderEveryCategory(amenities, "Minibar", 5);
  }

  /** An amenity that no category lists is never shown. */
  lemma UncategorisedNeverShown(amenities: seq<string>, a: string)
    requires forall i :: 0 <= i < |Categories| ==> a !in Categories[i].amenities
    ensures forall g :: g in Grouped(amenities) ==> a !in g.shown
  {
    forall g | g in Grouped(amenities)
      ensures a !in g.shown
    {
      GroupedExact(amenities, g);
      var i :| 0 <= i < |Categories| &&
               g == Group(Categories[i].name, Available(Categories[i], set x | x in amenities));
      AvailableExact(Categories[i], amenities, a);
    }
  }

  /** No category lists a name twice. */
  lemma CategoriesWithoutRepeats()
    ensures forall i :: 0 <= i < |Categories| ==> Seqs.NoDuplicates(Categories[i].amenities)
  {
  }

  /** However often the hotel lists an amenity, no group shows it twice. */
  lemma GroupsWithoutRepeats(amenities: seq<string>)
    ensures forall g :: g in Grouped(amenities) ==> Seqs.NoDuplicates(g.shown)
  {
    CategoriesWithoutRepeats();
    forall g | g in Grouped(amenities)
      ensures Seqs.NoDuplicates(g.shown)
    {
      GroupedExact(amenities, g);
      var i :| 0 <= i < |Categories| &&
               g == Group(Categories[i].name, Available(Categories[i], set x | x in amenities));
      Seqs.FilterNoDuplicates(Categories[i].amenities, InSet(set x | x in amenities));
    }
  }

  /** Only which names the hotel has matters, not how often or in which order it lists them. */
  lemma GroupedDependsOnSet(amenities: seq<string>, other: seq<string>)
    requires forall a :: a in amenities <==> a in other
    ensures Grouped(amenities) == Grouped(other)
  {
    assert (set a | a in amenities) == (set a | a in other);
  }

  /** The names with an icon of their own. */
  const IconNames: set<string> := {
    "Free WiFi", "Breakfast", "Breakfast Included", "Restaurant", "Parking", "Fitness Center",
    "Swimming Pool", "Business Center", "24-hour Front Desk", "Airport Shuttle", "Laundry",
    "Concierge Service"
  }

  /** `getAmenityIcon`: an exact, case-sensitive match; every other name gets `Ban`. */
  function AmenityIcon(amenity: string): (icon: Icon)
    ensures icon == Ban <==> amenity !in IconNames
    ensures icon == Coffee <==> amenity == "Breakfast" || amenity == "Breakfast Included"
  {
    if amenity == "Free WiFi" then Wifi
    else if amenity == "Breakfast" || amenity == "Breakfast Included" then Coffee
    else if amenity == "Restaurant" then Utensils
    else if amenity == "Parking" then Car
    else if amenity == "Fitness Center" then Dumbbell
    else if amenity == "Swimming Pool" then Waves
    else if amenity == "Business Center" then Briefcase
    else if amenity == "24-hour Front Desk" then Clock
    else if amenity == "Airport Shuttle" then Plane
    else if amenity == "Laundry" then Shirt
    else if amenity == "Concierge Service" then Users
    else Ban
  }

  /** Listed amenities without an icon of their own, and a name in the wrong case, get `Ban`. */
  lemma UnlistedIconIsBan()
    ensures AmenityIcon("Spa") == Ban && AmenityIcon("Bar") == Ban && AmenityIcon("Safe") == Ban
    ensures AmenityIcon("free wifi") == Ban
  {
  }
}
