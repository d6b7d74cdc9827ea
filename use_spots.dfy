/** The `useSpots` hook: fetch the active spots around a location, widening
    the search radius step by step until enough come back, and optionally
    keep only the spots the user has visited.

    The remote query `fetchSpotsByBounds` is an oracle: `responses[i]` is how
    the i-th fetch settles. The effect's `cancelled` flag is a generation
    counter: the effect remembers the generation it started in, the cleanup
    (run when the location changes or the component unmounts) bumps it, and
    the effect is cancelled once the two differ. `supersededAt` says during
    which fetch the cleanup runs (a value at or past the number of fetches
    means it does not run before the effect ends). */
module SpotsHook {
  import opened Domain
  import opened Seqs
  import opened Geo

  const UNKNOWN_ERROR: string := "Unknown error"

  /** A fetch result that ends the escalation: a failure, or enough spots. */
  predicate Stops(r: Outcome<seq<Spot>>)
  {
    r.Rejected? || |r.value| >= MIN_SPOTS_THRESHOLD
  }

  /** The index of the fetch at which the escalation ends, searching from `from`. */
  function StopIndex(responses: seq<Outcome<seq<Spot>>>, from: nat): (k: nat)
    requires from < |responses|
    ensures from <= k < |responses|
    ensures k == |responses| - 1 || Stops(responses[k])
    ensures forall j :: from <= j < k ==> !Stops(responses[j])
    decreases |responses| - from
  {
    if from == |responses| - 1 || Stops(responses[from]) then from
    else StopIndex(responses, from + 1)
  }

  /** How many fetches one uncancelled run issues. */
  function FetchCount(responses: seq<Outcome<seq<Spot>>>): (n: nat)
    requires |responses| == |RADIUS_STEPS|
    ensures 1 <= n <= |RADIUS_STEPS|
  {
    StopIndex(responses, 0) + 1
  }

  /** What an uncancelled run leaves behind. */
  datatype Settlement = Loaded(spots: seq<Spot>) | Failed(message: string)

  function Settle(responses: seq<Outcome<seq<Spot>>>): (r: Settlement)
    requires |responses| == |RADIUS_STEPS|
    // the last fetch made decides: its spots, or its error's message
    ensures r.Loaded? <==> responses[FetchCount(responses) - 1].Resolved?
    ensures r.Loaded? ==> r.spots == responses[FetchCount(responses) - 1].value
    ensures r.Failed? ==>
      r.message == MessageOr(responses[FetchCount(responses) - 1].thrown, UNKNOWN_ERROR)
    // every earlier fetch returned too few spots
    ensures forall j :: 0 <= j < FetchCount(responses) - 1 ==>
      responses[j].Resolved? && |responses[j].value| < MIN_SPOTS_THRESHOLD
  {
    match responses[FetchCount(responses) - 1]
    case Resolved(spots) => Loaded(spots)
    case Rejected(thrown) => Failed(MessageOr(thrown, UNKNOWN_ERROR))
  }

  /** The bounding boxes of the first `n` radius steps, in step order. */
  function Requests(c: Coordinate, cosLat: real, n: nat): (boxes: seq<BoundingBox>)
    requires cosLat > 0.0 && n <= |RADIUS_STEPS|
    ensures |boxes| == n
  {
    seq(n, i requires 0 <= i < n => GetBoundingBox(c.latitude, c.longitude, RADIUS_STEPS[i], cosLat))
  }

  /** The loop stops at the first step that qualifies (a failure, or at least
      `MIN_SPOTS_THRESHOLD` spots), so the fetch count is that step's index
      plus one, and the settled spots are that fetch's. */
  lemma {:induction false} FirstQualifyingStep(responses: seq<Outcome<seq<Spot>>>, k: nat)
    requires |responses| == |RADIUS_STEPS| && k < |responses|
    requires responses[k].Resolved? && |responses[k].value| >= MIN_SPOTS_THRESHOLD
    requires forall j :: 0 <= j < k ==> responses[j].Resolved? && |responses[j].value| < MIN_SPOTS_THRESHOLD
    ensures FetchCount(responses) == k + 1
    ensures Settle(responses) == Loaded(responses[k].value)
  {
  }

  /** When no step qualifies, all four fetches are made and the last one's
      spots are kept. */
  lemma {:induction false} NoStepQualifies(responses: seq<Outcome<seq<Spot>>>)
    requires |responses| == |RADIUS_STEPS|
    requires forall j :: 0 <= j < |responses| ==> responses[j].Resolved? && |responses[j].value| < MIN_SPOTS_THRESHOLD
    ensures FetchCount(responses) == |RADIUS_STEPS|
    ensures Settle(responses) == Loaded(responses[|RADIUS_STEPS| - 1].value)
  {
  }

  /** A failed fetch ends the run with its message and no further fetch. */
  lemma {:induction false} FirstFailure(responses: seq<Outcome<seq<Spot>>>, k: nat)
    requires |responses| == |RADIUS_STEPS| && k < |responses|
    requires responses[k].Rejected?
    requires forall j :: 0 <= j < k ==> responses[j].Resolved? && |responses[j].value| < MIN_SPOTS_THRESHOLD
    ensures FetchCount(responses) == k + 1
    ensures Settle(responses) == Failed(MessageOr(responses[k].thrown, UNKNOWN_ERROR))
  {
  }

  /** A run that loads spots loads either enough of them or the last step's. */
  lemma SettledSpotsMeetThresholdOrExhaustSteps(responses: seq<Outcome<seq<Spot>>>)
    requires |responses| == |RADIUS_STEPS|
    ensures Settle(responses).Loaded? ==>
      |Settle(responses).spots| >= MIN_SPOTS_THRESHOLD || FetchCount(responses) == |RADIUS_STEPS|
  {
  }

  datatype FilterMode = All | Visited

  function HasIdIn(ids: set<string>): Spot -> bool
  {
    (s: Spot) => s.id in ids
  }

  /** `spots`: with mode `Visited` and a visited-id set, the spots whose ids
      are in the set, in their order; otherwise every spot. */
  function VisibleSpots(allSpots: seq<Spot>, mode: FilterMode, visitedSpotIds: Option<set<string>>): (r: seq<Spot>)
    ensures !(mode.Visited? && visitedSpotIds.Some?) ==> r == allSpots
    ensures mode.Visited? && visitedSpotIds.Some? ==>
      forall s :: s in r <==> s in allSpots && s.id in visitedSpotIds.value
  {
    if mode.Visited? && visitedSpotIds.Some? then Filter(allSpots, HasIdIn(visitedSpotIds.value))
    else allSpots
  }

  /** The visited view keeps the order of the fetched list and each spot's
      multiplicity. */
  lemma VisibleSpotsIsSubsequence(allSpots: seq<Spot>, mode: FilterMode, visitedSpotIds: Option<set<string>>)
    ensures IsSubsequence(VisibleSpots(allSpots, mode, visitedSpotIds), allSpots)
    ensures forall s ::
      multiset(VisibleSpots(allSpots, mode, visitedSpotIds))[s] ==
      (if mode.Visited? && visitedSpotIds.Some? && s.id !in visitedSpotIds.value then 0 else multiset(allSpots)[s])
  {
    if mode.Visited? && visitedSpotIds.Some? {
      FilterIsSubsequence(allSpots, HasIdIn(visitedSpotIds.value));
      FilterMultiplicity(allSpots, HasIdIn(visitedSpotIds.value));
    } else {
      SubsequenceOfItself(allSpots);
    }
  }

  /** The state cells of one `useSpots` instance. */
  class SpotsLoader {
    var allSpots: seq<Spot>
    var isLoading: bool
    var error: Option<string>
    /** Bumped by each effect cleanup; an effect is cancelled once it moves. */
    var generation: nat

    constructor ()
      ensures allSpots == [] && isLoading && error == None && generation == 0
    {
      allSpots, isLoading, error, generation := [], true, None, 0;
    }

    /** The spots the hook returns for the current `allSpots`. */
    function Spots(mode: FilterMode, visitedSpotIds: Option<set<string>>): seq<Spot>
      reads this
    {
      VisibleSpots(allSpots, mode, visitedSpotIds)
    }

    /** One run of the effect for `location`. Returns the bounding boxes it
        passed to the fetch, in order. */
    method RunEffect(location: Option<Coordinate>, cosLat: real,
                     responses: seq<Outcome<seq<Spot>>>, supersededAt: nat)
      returns (requests: seq<BoundingBox>)
      requires cosLat > 0.0
      requires |responses| == |RADIUS_STEPS|
      modifies this
      // no location: clear the list, stop loading, fetch nothing
      ensures location.None? ==>
        && requests == [] && allSpots == [] && !isLoading
        && error == old(error) && generation == old(generation)
      // superseded while fetch number `supersededAt` was in flight: nothing
      // is written after the fetches' start
      ensures location.Some? && supersededAt < FetchCount(responses) ==>
        && requests == Requests(location.value, cosLat, supersededAt + 1)
        && generation == old(generation) + 1
        && allSpots == old(allSpots) && isLoading && error == None
      // ran to the end: the settled result is committed and loading stops
      ensures location.Some? && supersededAt >= FetchCount(responses) ==>
        && requests == Requests(location.value, cosLat, FetchCount(responses))
        && generation == old(generation)
        && !isLoading
        && match Settle(responses)
           case Loaded(spots) => allSpots == spots && error == None
           case Failed(message) => allSpots == [] && error == Some(message)
    {
      requests := [];
      if location.None? {
        allSpots := [];
        isLoading := false;
        return;
      }
      var c := location.value;
      var started := generation;
      isLoading := true;
      error := None;

      var spots: seq<Spot> := [];
      var i := 0;
      while i < |RADIUS_STEPS|
        invariant 0 <= i <= |RADIUS_STEPS|
        invariant forall j :: 0 <= j < i ==> !Stops(responses[j])
        invariant requests == Requests(c, cosLat, i)
        invariant i <= supersededAt && generation == started
        invariant allSpots == old(allSpots) && isLoading && error == None
        invariant i > 0 ==> spots == responses[i - 1].value
        decreases |RADIUS_STEPS| - i
      {
        var bounds := GetBoundingBox(c.latitude, c.longitude, RADIUS_STEPS[i], cosLat);
        requests := requests + [bounds];
        // the fetch is in flight: the cleanup may run now
        if i == supersededAt {
          generation := generation + 1;
        }
        var cancelled := generation != started;
        match responses[i]
        case Rejected(thrown) =>
          if !cancelled {
            error := Some(MessageOr(thrown, UNKNOWN_ERROR));
            allSpots := [];
            isLoading := false;
          }
          return;
        case Resolved(fetched) =>
          spots := fetched;
          if cancelled {
            return;
          }
          if |spots| >= MIN_SPOTS_THRESHOLD {
            break;
          }
        i := i + 1;
      }
      allSpots := spots;
      isLoading := false;
    }
  }

  /** The scenario where the first fetch finds one spot and the second five:
      two fetches, five spots. */
  method AutoExpandScenario(a: Spot, five: seq<Spot>, later: seq<Outcome<seq<Spot>>>)
    requires |five| == 5 && |later| == 2
  {
    var loader := new SpotsLoader();
    var responses := [Resolved([a]), Resolved(five)] + later;
    FirstQualifyingStep(responses, 1);
    var requests := loader.RunEffect(Some(DEFAULT_LOCATION), 0.5, responses, 4);
    assert |requests| == 2;
    assert loader.allSpots == five && !loader.isLoading;
  }

  /** A run superseded during its first fetch, followed by the run for the
      new location: only the second run's result is visible. */
  method SupersededScenario(x: Coordinate, y: Coordinate, rx: seq<Outcome<seq<Spot>>>, ry: seq<Outcome<seq<Spot>>>)
    requires |rx| == |RADIUS_STEPS| && |ry| == |RADIUS_STEPS|
  {
    var loader := new SpotsLoader();
    var first := loader.RunEffect(Some(x), 0.5, rx, 0);
    assert |first| == 1 && loader.allSpots == [] && loader.isLoading;
    var second := loader.RunEffect(Some(y), 0.5, ry, |RADIUS_STEPS|);
    assert !loader.isLoading;
    assert Settle(ry).Loaded? ==> loader.allSpots == Settle(ry).spots;
  }
}
