/** Pairing spots with their distance from an origin and ordering them
    nearest first. Both search hooks do this with `map` followed by
    `Array.prototype.sort((a, b) => a.distance - b.distance)`, which is a
    stable sort; the model sorts by insertion, which is stable too, and proves
    the output sorted, a permutation of the input, and stable. */
module Ranking {
  import opened Domain
  import opened Seqs
  import opened Geo

  datatype SpotWithDistance = SpotWithDistance(spot: Spot, distanceKm: real)

  /** Each spot paired with its distance from `origin`, in input order. */
  function WithDistances(spots: seq<Spot>, origin: Coordinate, dist: DistanceFn): (r: seq<SpotWithDistance>)
    ensures |r| == |spots|
    ensures forall i :: 0 <= i < |r| ==> r[i].spot == spots[i]
    ensures forall i :: 0 <= i < |r| ==> r[i].distanceKm == dist(origin.latitude, origin.longitude, spots[i].lat, spots[i].lng)
  {
    seq(|spots|, i requires 0 <= i < |spots| =>
      SpotWithDistance(spots[i], dist(origin.latitude, origin.longitude, spots[i].lat, spots[i].lng)))
  }

  /** Nearest first. */
  predicate Ascending(s: seq<SpotWithDistance>)
  {
    forall i, j :: 0 <= i < j < |s| ==> s[i].distanceKm <= s[j].distanceKm
  }

  /** The entries at exactly distance `d`; stability is stated with it. */
  function AtDistance(d: real): SpotWithDistance -> bool
  {
    (x: SpotWithDistance) => x.distanceKm == d
  }

  /** Places `x` before the first entry that is not nearer than it. */
  function Insert(x: SpotWithDistance, s: seq<SpotWithDistance>): (r: seq<SpotWithDistance>)
    requires Ascending(s)
    ensures |r| == |s| + 1
    ensures multiset(r) == multiset{x} + multiset(s)
    ensures Ascending(r)
    decreases |s|
  {
    if s == [] || x.distanceKm <= s[0].distanceKm then [x] + s
    else
      assert s == [s[0]] + s[1..];
      var rest := Insert(x, s[1..]);
      assert forall k :: 0 <= k < |rest| ==> rest[k] in multiset(rest);
      [s[0]] + rest
  }

  /** Stable insertion sort by distance. */
  function SortByDistance(s: seq<SpotWithDistance>): (r: seq<SpotWithDistance>)
    ensures |r| == |s|
    ensures multiset(r) == multiset(s)
    ensures Ascending(r)
    decreases |s|
  {
    if s == [] then []
    else
      assert s == [s[0]] + s[1..];
      Insert(s[0], SortByDistance(s[1..]))
  }

  /** Inserting `x` keeps, among entries at each distance, `x` ahead of the
      entries already there. */
  lemma {:induction false} InsertStable(x: SpotWithDistance, s: seq<SpotWithDistance>, d: real)
    requires Ascending(s)
    ensures Filter(Insert(x, s), AtDistance(d)) == Filter([x] + s, AtDistance(d))
    decreases |s|
  {
    var p := AtDistance(d);
    if s != [] && x.distanceKm > s[0].distanceKm {
      var rest := s[1..];
      assert s == [s[0]] + rest;
      var hx := if p(x) then [x] else [];
      var h0 := if p(s[0]) then [s[0]] else [];
      // s[0] and x are at different distances, so at most one of them is kept
      assert h0 + hx == hx + h0 by {
        assert !(p(x) && p(s[0]));
      }
      calc {
        Filter(Insert(x, s), p);
        { FilterCons(s[0], Insert(x, rest), p); }
        h0 + Filter(Insert(x, rest), p);
        { InsertStable(x, rest, d); }
        h0 + Filter([x] + rest, p);
        { FilterCons(x, rest, p); }
        h0 + (hx + Filter(rest, p));
        hx + (h0 + Filter(rest, p));
        { FilterCons(s[0], rest, p); }
        hx + Filter(s, p);
        { FilterCons(x, s, p); }
        Filter([x] + s, p);
      }
    }
  }

  /** The sort is stable: the entries at each distance keep their input order. */
  lemma {:induction false} SortStable(s: seq<SpotWithDistance>, d: real)
    ensures Filter(SortByDistance(s), AtDistance(d)) == Filter(s, AtDistance(d))
    decreases |s|
  {
    if s != [] {
      var p := AtDistance(d);
      SortStable(s[1..], d);
      InsertStable(s[0], SortByDistance(s[1..]), d);
      FilterCons(s[0], SortByDistance(s[1..]), p);
      FilterCons(s[0], s[1..], p);
      assert s == [s[0]] + s[1..];
    }
  }

  /** `spots.map(...).sort(...)`: the spots paired with their distances from
      `origin`, nearest first, nothing dropped. */
  function Rank(spots: seq<Spot>, origin: Coordinate, dist: DistanceFn): (r: seq<SpotWithDistance>)
    ensures |r| == |spots|
    ensures multiset(r) == multiset(WithDistances(spots, origin, dist))
    ensures Ascending(r)
  {
    SortByDistance(WithDistances(spots, origin, dist))
  }

  /** Every ranked entry carries its own spot's distance from `origin`, and
      every input spot appears. */
  lemma RankedEntries(spots: seq<Spot>, origin: Coordinate, dist: DistanceFn)
    ensures forall x :: x in Rank(spots, origin, dist) ==>
      x.spot in spots && x.distanceKm == dist(origin.latitude, origin.longitude, x.spot.lat, x.spot.lng)
    ensures forall s :: s in spots ==> exists x :: x in Rank(spots, origin, dist) && x.spot == s
  {
    var w := WithDistances(spots, origin, dist);
    var r := Rank(spots, origin, dist);
    forall x | x in r
      ensures x.spot in spots && x.distanceKm == dist(origin.latitude, origin.longitude, x.spot.lat, x.spot.lng)
    {
      assert x in multiset(w);
      var i :| 0 <= i < |w| && w[i] == x;
    }
    forall s | s in spots
      ensures exists x :: x in r && x.spot == s
    {
      var i :| 0 <= i < |spots| && spots[i] == s;
      assert w[i] in multiset(r);
    }
  }

  /** Sorting a sorted list changes nothing: a filtered ranking is still a ranking. */
  lemma {:induction false} FilterKeepsAscending(s: seq<SpotWithDistance>, p: SpotWithDistance -> bool)
    requires Ascending(s)
    ensures Ascending(Filter(s, p))
    decreases |s|
  {
    if s != [] {
      FilterKeepsAscending(s[1..], p);
      var tail := Filter(s[1..], p);
      assert forall k :: 0 <= k < |tail| ==> tail[k] in s[1..];
      assert forall k :: 0 <= k < |tail| ==> s[0].distanceKm <= tail[k].distanceKm;
    }
  }
}
