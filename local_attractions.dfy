/** src/pages/LocalAttractions.tsx: the distance and category filters over
    the list of attractions. A distance is the number `parseFloat` reads from
    the front of the distance text (`"1.5 km"` gives 1.5), given here as an
    exact real. */
module LocalAttractions {
  import opened Common

  datatype Attraction = Attraction(id: string, title: string, distance: real, category: string)

  const AllFilter: string := "all"
  const Nearby: string := "nearby"
  const MidRange: string := "5-10 km"
  const Farther: string := "10+ km"

  /** The three attractions the page lists, with their distances read off. */
  const Attractions: seq<Attraction> := [
    Attraction("city-museum", "City Museum", 1.5, "museums"),
    Attraction("central-park", "Central Park", 0.8, "parks"),
    Attraction("luxury-mall", "Luxury Mall", 2.3, "shopping")
  ]

  /** The distance test: each named filter clears the flag when its bound is
      broken; `"all"` and any other text keep the attraction. */
  predicate DistanceMatch(distanceFilter: string, distance: real)
  {
    distanceFilter == AllFilter
    || !((distanceFilter == Nearby && distance > 1.0)
         || (distanceFilter == MidRange && (distance < 5.0 || distance > 10.0))
         || (distanceFilter == Farther && distance < 10.0))
  }

  /** The category test: `"all"` keeps everything, otherwise the categories
      must be equal. */
  predicate CategoryMatch(categoryFilter: string, category: string)
  {
    categoryFilter == AllFilter || category == categoryFilter
  }

  /** The callback given to `attractions.filter`. */
  predicate Keep(distanceFilter: string, categoryFilter: string, a: Attraction)
  {
    DistanceMatch(distanceFilter, a.distance) && CategoryMatch(categoryFilter, a.category)
  }

  /** `filteredAttractions` */
  function FilteredAttractions(distanceFilter: string, categoryFilter: string, attractions: seq<Attraction>): seq<Attraction>
  {
    Filter((a: Attraction) => Keep(distanceFilter, categoryFilter, a), attractions)
  }

  /** Each distance filter in terms of the distance: `"nearby"` is at most 1,
      `"5-10 km"` is 5 to 10, `"10+ km"` is at least 10 (so 10 passes both
      range filters), and any other text, `"all"` included, keeps everything. */
  lemma DistanceFilters(distance: real)
    ensures DistanceMatch(Nearby, distance) <==> distance <= 1.0
    ensures DistanceMatch(MidRange, distance) <==> 5.0 <= distance <= 10.0
    ensures DistanceMatch(Farther, distance) <==> distance >= 10.0
    ensures DistanceMatch(MidRange, 10.0) && DistanceMatch(Farther, 10.0)
    ensures forall f :: f !in {Nearby, MidRange, Farther} ==> DistanceMatch(f, distance)
  {
  }

  /** The filtered list keeps the order of the attractions and holds exactly
      those that pass both tests, each as often as the list holds it. */
  lemma {:induction false} FilteredIsOrderedSelection(distanceFilter: string, categoryFilter: string, attractions: seq<Attraction>)
    ensures IsSubsequence(FilteredAttractions(distanceFilter, categoryFilter, attractions), attractions)
    ensures forall a :: a in FilteredAttractions(distanceFilter, categoryFilter, attractions)
              <==> a in attractions && DistanceMatch(distanceFilter, a.distance) && CategoryMatch(categoryFilter, a.category)
    ensures forall a :: multiset(FilteredAttractions(distanceFilter, categoryFilter, attractions))[a]
              == if Keep(distanceFilter, categoryFilter, a) then multiset(attractions)[a] else 0
  {
    var keep := (a: Attraction) => Keep(distanceFilter, categoryFilter, a);
    FilterIsSubsequence(keep, attractions);
    FilterKeepsMultiplicity(keep, attractions);
    var r := FilteredAttractions(distanceFilter, categoryFilter, attractions);
    forall a
      ensures multiset(r)[a] == if Keep(distanceFilter, categoryFilter, a) then multiset(attractions)[a] else 0
      ensures a in r <==> a in attractions && Keep(distanceFilter, categoryFilter, a)
    {
      assert keep(a) == Keep(distanceFilter, categoryFilter, a);
      assert (a in r) == (multiset(r)[a] > 0);
      assert (a in attractions) == (multiset(attractions)[a] > 0);
    }
  }

  /** With both filters on `"all"` nothing is dropped. */
  lemma {:induction false} AllFiltersKeepEverything(attractions: seq<Attraction>)
    ensures FilteredAttractions(AllFilter, AllFilter, attractions) == attractions
    decreases |attractions|
  {
    if attractions != [] {
      AllFiltersKeepEverything(attractions[..|attractions| - 1]);
    }
  }

  /** On the page's own list: nearby parks give Central Park alone, and
      nothing is 5 to 10 km away. */
  lemma FiltersOnThePageList()
    ensures FilteredAttractions(Nearby, "parks", Attractions) == [Attractions[1]]
    ensures FilteredAttractions(MidRange, AllFilter, Attractions) == []
  {
    var a0, a1, a2 := Attractions[0], Attractions[1], Attractions[2];
    assert Attractions[..2] == [a0, a1];
    assert [a0, a1][..1] == [a0];
    assert [a0][..0] == [];
    var nearbyParks := (a: Attraction) => Keep(Nearby, "parks", a);
    assert Filter(nearbyParks, [a0]) == [];
    assert Filter(nearbyParks, [a0, a1]) == [a1];
    var midRange := (a: Attraction) => Keep(MidRange, AllFilter, a);
    assert Filter(midRange, [a0]) == [];
    assert Filter(midRange, [a0, a1]) == [];
  }

  /** `type: 'distance' | 'category'` */
  datatype FilterType = DistanceType | CategoryType

  /** The page's two filter fields, both starting at `"all"`. */
  class AttractionFilters {
    var distanceFilter: string
    var categoryFilter: string

    constructor ()
      ensures distanceFilter == AllFilter && categoryFilter == AllFilter
    {
      distanceFilter, categoryFilter := AllFilter, AllFilter;
    }

    /** The attractions shown under the current filters. */
    function Shown(attractions: seq<Attraction>): seq<Attraction>
      reads this
    {
      FilteredAttractions(distanceFilter, categoryFilter, attractions)
    }

    /** `handleFilterChange`: only the named filter takes the value. */
    method HandleFilterChange(filterType: FilterType, value: string)
      modifies this
      ensures filterType == DistanceType ==> distanceFilter == value && categoryFilter == old(categoryFilter)
      ensures filterType == CategoryType ==> categoryFilter == value && distanceFilter == old(distanceFilter)
    {
      if filterType == DistanceType {
        distanceFilter := value;
      } else {
        categoryFilter := value;
      }
    }
  }
}
