/** The `useNearbySpots` hook: the current location's spots ranked by
    distance, a case-sensitive name filter over them, and the combined
    loading and error flags of the location and spot sources.

    The location source and the spot source are inputs (their values,
    loading flags and errors); the hook takes the spots of `useSpots` in mode
    `All`, which are its `allSpots`. The `searchQuery` cell, replaced
    wholesale by its setter, is an input too. */
module NearbySpots {
  import opened Domain
  import opened Seqs
  import opened Geo
  import opened Ranking

  /** `nearbySpots`: nothing without a location or without spots; otherwise
      every spot with its distance, nearest first. */
  function Nearby(location: Option<Coordinate>, spots: seq<Spot>, dist: DistanceFn): (r: seq<SpotWithDistance>)
    ensures location.None? || spots == [] ==> r == []
    ensures location.Some? ==> |r| == |spots|
    ensures location.Some? ==> multiset(r) == multiset(WithDistances(spots, location.value, dist))
    ensures Ascending(r)
  {
    if location.None? || |spots| == 0 then [] else Rank(spots, location.value, dist)
  }

  /** Three spots at 5.0, 0.5 and 1.5 km, in that input order, come out
      nearest first. */
  lemma RankingExample(location: Coordinate, a: Spot, b: Spot, c: Spot, dist: DistanceFn)
    requires dist(location.latitude, location.longitude, a.lat, a.lng) == 5.0
    requires dist(location.latitude, location.longitude, b.lat, b.lng) == 0.5
    requires dist(location.latitude, location.longitude, c.lat, c.lng) == 1.5
    ensures Nearby(Some(location), [a, b, c], dist) ==
      [SpotWithDistance(b, 0.5), SpotWithDistance(c, 1.5), SpotWithDistance(a, 5.0)]
  {
    var sa, sb, sc := SpotWithDistance(a, 5.0), SpotWithDistance(b, 0.5), SpotWithDistance(c, 1.5);
    assert WithDistances([a, b, c], location, dist) == [sa, sb, sc];
    SortsThree(sa, sb, sc);
  }

  lemma SortsThree(sa: SpotWithDistance, sb: SpotWithDistance, sc: SpotWithDistance)
    requires sa.distanceKm == 5.0 && sb.distanceKm == 0.5 && sc.distanceKm == 1.5
    ensures SortByDistance([sa, sb, sc]) == [sb, sc, sa]
  {
    assert [sa, sb, sc][1..] == [sb, sc] && [sb, sc][1..] == [sc] && [sc][1..] == [];
    assert SortByDistance([sc]) == [sc];
    assert SortByDistance([sb, sc]) == [sb, sc];
    assert Insert(sa, [sc]) == [sc, sa];
    assert Insert(sa, [sb, sc]) == [sb, sc, sa];
  }

  function NameIncludes(query: string): SpotWithDistance -> bool
  {
    (x: SpotWithDistance) => Contains(x.spot.name, query)
  }

  /** `filteredSpots`: an empty query filters nothing; otherwise the entries
      whose name contains the query exactly (case-sensitively), in order. */
  function Filtered(nearby: seq<SpotWithDistance>, searchQuery: string): (r: seq<SpotWithDistance>)
    ensures searchQuery == [] ==> r == nearby
    ensures forall x :: x in r <==> x in nearby && Contains(x.spot.name, searchQuery)
  {
    if searchQuery == [] then
      ContainsEmpty();
      nearby
    else Filter(nearby, NameIncludes(searchQuery))
  }

  /** The filtered list is an order-preserving part of the ranking, and so
      still nearest first; a matching entry keeps all its copies. */
  lemma FilteredIsOrderedSubsequence(nearby: seq<SpotWithDistance>, searchQuery: string)
    requires Ascending(nearby)
    ensures IsSubsequence(Filtered(nearby, searchQuery), nearby)
    ensures Ascending(Filtered(nearby, searchQuery))
    ensures forall x :: multiset(Filtered(nearby, searchQuery))[x] ==
                        (if Contains(x.spot.name, searchQuery) then multiset(nearby)[x] else 0)
  {
    if searchQuery == [] {
      SubsequenceOfItself(nearby);
    } else {
      FilterIsSubsequence(nearby, NameIncludes(searchQuery));
      FilterKeepsAscending(nearby, NameIncludes(searchQuery));
      FilterMultiplicity(nearby, NameIncludes(searchQuery));
    }
  }

  /** JavaScript `a || b` on two nullable strings: `a` unless it is null or empty. */
  function OrElse(a: Option<string>, b: Option<string>): (r: Option<string>)
    ensures r == a || r == b
    ensures a.Some? && a.value != [] ==> r == a
    ensures a.None? || a.value == [] ==> r == b
  {
    if a.Some? && a.value != [] then a else b
  }

  /** Everything the hook returns. */
  datatype NearbyView = NearbyView(
    nearbySpots: seq<SpotWithDistance>,
    isLoading: bool,
    error: Option<string>,
    searchQuery: string,
    filteredSpots: seq<SpotWithDistance>)

  function UseNearbySpots(
    location: Option<Coordinate>, locationLoading: bool, locationError: Option<string>,
    spots: seq<Spot>, spotsLoading: bool, spotsError: Option<string>,
    searchQuery: string, dist: DistanceFn): (v: NearbyView)
    ensures v.isLoading <==> locationLoading || spotsLoading
    ensures v.error == OrElse(locationError, spotsError)
    ensures v.searchQuery == searchQuery
    ensures v.nearbySpots == Nearby(location, spots, dist)
    ensures v.filteredSpots == Filtered(v.nearbySpots, searchQuery)
  {
    var nearby := Nearby(location, spots, dist);
    NearbyView(nearby, locationLoading || spotsLoading, OrElse(locationError, spotsError),
               searchQuery, Filtered(nearby, searchQuery))
  }
}
