/** The `useMapSearch` hook: spots ranked by distance from the user, the
    three nearest as "nearby", and case-insensitive name suggestions computed
    from a debounced copy of the query.

    React's effect and timer machinery becomes explicit state and events. The
    single timer handle (`timerRef.current`) is `timer`: a pending callback
    with the milliseconds still to wait and the query it will publish. Time
    passes only through `TimeElapsed` events (a virtual clock). */
module MapSearch {
  import opened Domain
  import opened Seqs
  import opened Geo
  import opened Ranking

  const DEBOUNCE_MS: nat := 300
  const MAX_NEARBY: nat := 3

  // ---------------------------------------------------------------------
  // Derived lists

  /** `spotsWithDistance`: without a location, every spot at distance 0 in
      input order; with one, every spot with its distance, nearest first. */
  function SpotsWithDistance(allSpots: seq<Spot>, userLocation: Option<Coordinate>, dist: DistanceFn): (r: seq<SpotWithDistance>)
    ensures |r| == |allSpots|
    ensures userLocation.None? ==> forall i :: 0 <= i < |r| ==> r[i] == SpotWithDistance(allSpots[i], 0.0)
    ensures userLocation.Some? ==> multiset(r) == multiset(WithDistances(allSpots, userLocation.value, dist))
    ensures Ascending(r)
  {
    if userLocation.None? then seq(|allSpots|, i requires 0 <= i < |allSpots| => SpotWithDistance(allSpots[i], 0.0))
    else Rank(allSpots, userLocation.value, dist)
  }

  /** `nearbySpots`: the first `MAX_NEARBY` entries, or all when fewer. */
  function NearbyOf(ranked: seq<SpotWithDistance>): (r: seq<SpotWithDistance>)
    ensures |r| == if |ranked| < MAX_NEARBY then |ranked| else MAX_NEARBY
    ensures r <= ranked
  {
    if |ranked| <= MAX_NEARBY then ranked else ranked[..MAX_NEARBY]
  }

  /** The nearby entries are no farther than any entry left out. */
  lemma NearbyAreNearest(ranked: seq<SpotWithDistance>)
    requires Ascending(ranked)
    ensures forall i, j :: 0 <= i < |NearbyOf(ranked)| <= j < |ranked| ==>
      NearbyOf(ranked)[i].distanceKm <= ranked[j].distanceKm
  {
  }

  function LowerNameIncludes(lowerQuery: string): SpotWithDistance -> bool
  {
    (x: SpotWithDistance) => Contains(Lower(x.spot.name), lowerQuery)
  }

  /** `suggestions`: nothing for an empty debounced query; otherwise the
      ranked entries whose lower-cased name contains the lower-cased query. */
  function SuggestionsFor(ranked: seq<SpotWithDistance>, debouncedQuery: string): (r: seq<SpotWithDistance>)
    ensures debouncedQuery == [] ==> r == []
    ensures forall x :: x in r <==>
      debouncedQuery != [] && x in ranked && Contains(Lower(x.spot.name), Lower(debouncedQuery))
  {
    if debouncedQuery == [] then [] else Filter(ranked, LowerNameIncludes(Lower(debouncedQuery)))
  }

  /** Suggestions keep the ranking's order, so they are nearest first too;
      a matching entry keeps all its copies. */
  lemma SuggestionsAreOrderedSubsequence(ranked: seq<SpotWithDistance>, debouncedQuery: string)
    requires Ascending(ranked)
    ensures IsSubsequence(SuggestionsFor(ranked, debouncedQuery), ranked)
    ensures Ascending(SuggestionsFor(ranked, debouncedQuery))
    ensures forall x :: multiset(SuggestionsFor(ranked, debouncedQuery))[x] ==
                        (if debouncedQuery != [] && Contains(Lower(x.spot.name), Lower(debouncedQuery))
                         then multiset(ranked)[x] else 0)
  {
    if debouncedQuery != [] {
      FilterIsSubsequence(ranked, LowerNameIncludes(Lower(debouncedQuery)));
      FilterKeepsAscending(ranked, LowerNameIncludes(Lower(debouncedQuery)));
      FilterMultiplicity(ranked, LowerNameIncludes(Lower(debouncedQuery)));
    }
  }

  /** Queries that differ only in letter case suggest the same spots. */
  lemma SuggestionsIgnoreCase(ranked: seq<SpotWithDistance>, q1: string, q2: string)
    requires Lower(q1) == Lower(q2)
    ensures SuggestionsFor(ranked, q1) == SuggestionsFor(ranked, q2)
  {
    assert |q1| == |Lower(q1)| == |Lower(q2)| == |q2|;
  }

  /** With case folding limited to ASCII letters, whatever the case-sensitive
      filter of `useNearbySpots` keeps for a non-empty query, the suggestions
      keep too. Full `toLowerCase` breaks this for context-dependent folds such
      as the Greek final sigma. */
  lemma ExactMatchIsSuggested(ranked: seq<SpotWithDistance>, q: string, x: SpotWithDistance)
    requires q != [] && x in ranked && Contains(x.spot.name, q)
    ensures x in SuggestionsFor(ranked, q)
  {
    ContainsLower(x.spot.name, q);
  }

  // ---------------------------------------------------------------------
  // Query, debounce timer and panel flag

  /** The pending `setTimeout` callback: it publishes `payload` as the
      debounced query once `remainingMs` more milliseconds have passed. */
  datatype PendingTimer = PendingTimer(remainingMs: nat, payload: string)

  datatype SearchState = SearchState(
    query: string,
    debouncedQuery: string,
    showSuggestions: bool,
    timer: Option<PendingTimer>,
    mounted: bool)

  datatype SearchEvent =
    | QueryChanged(text: string)      // setQuery(text)
    | TimeElapsed(ms: nat)            // the virtual clock advances
    | SearchCleared                   // clearSearch()
    | ShowSuggestionsSet(show: bool)  // setShowSuggestions(show)
    | Unmounted                       // the component goes away

  /** The effect's body: a fresh timer for the current query. */
  function Schedule(query: string): Option<PendingTimer>
  {
    Some(PendingTimer(DEBOUNCE_MS, query))
  }

  /** On mount the effect has already run once for the empty query. */
  function Initial(): SearchState
  {
    SearchState([], [], false, Schedule([]), true)
  }

  /** The pending timer always carries the current query and at most the
      quiet period; with no timer pending, the debounced query has caught up. */
  predicate Consistent(s: SearchState)
  {
    && (s.timer.Some? ==> s.timer.value.payload == s.query && 0 < s.timer.value.remainingMs <= DEBOUNCE_MS)
    && (s.mounted && s.timer.None? ==> s.debouncedQuery == s.query)
    && (!s.mounted ==> s.timer.None?)
  }

  /** One event. Setting the query to its current value re-renders nothing,
      so the effect does not run again and the timer is left alone. */
  function Step(s: SearchState, e: SearchEvent): (t: SearchState)
    ensures Consistent(s) ==> Consistent(t)
    ensures !s.mounted ==> t == s
  {
    if !s.mounted then s
    else
      match e
      case QueryChanged(text) =>
        if text == s.query then s else s.(query := text, timer := Schedule(text))
      case TimeElapsed(ms) =>
        (match s.timer
         case None => s
         case Some(pending) =>
           if ms >= pending.remainingMs then s.(debouncedQuery := pending.payload, timer := None)
           else s.(timer := Some(pending.(remainingMs := pending.remainingMs - ms))))
      case SearchCleared =>
        s.(query := [], debouncedQuery := [], showSuggestions := false,
           timer := if s.query == [] then s.timer else Schedule([]))
      case ShowSuggestionsSet(show) =>
        s.(showSuggestions := show)
      case Unmounted =>
        s.(timer := None, mounted := false)
  }

  function Run(s: SearchState, events: seq<SearchEvent>): SearchState
    decreases |events|
  {
    if events == [] then s else Run(Step(s, events[0]), events[1..])
  }

  function Sum(ms: seq<nat>): nat
  {
    if ms == [] then 0 else ms[0] + Sum(ms[1..])
  }

  function Ticks(ms: seq<nat>): (events: seq<SearchEvent>)
    ensures |events| == |ms|
  {
    seq(|ms|, i requires 0 <= i < |ms| => TimeElapsed(ms[i]))
  }

  /** While less than the remaining wait passes, nothing but the countdown changes. */
  lemma {:induction false} WaitShorterThanTimer(s: SearchState, ms: seq<nat>)
    requires Consistent(s) && s.mounted && s.timer.Some?
    requires Sum(ms) < s.timer.value.remainingMs
    ensures Run(s, Ticks(ms)) ==
      s.(timer := Some(PendingTimer(s.timer.value.remainingMs - Sum(ms), s.query)))
    decreases |ms|
  {
    if ms == [] {
      assert s.timer == Some(PendingTimer(s.timer.value.remainingMs, s.query));
    } else {
      var t := Step(s, TimeElapsed(ms[0]));
      assert Ticks(ms)[1..] == Ticks(ms[1..]);
      WaitShorterThanTimer(t, ms[1..]);
    }
  }

  /** Once the remaining wait has passed, the timer has fired and the
      debounced query equals the query. */
  lemma {:induction false} WaitOutTimer(s: SearchState, ms: seq<nat>)
    requires Consistent(s) && s.mounted
    requires s.timer.Some? ==> Sum(ms) >= s.timer.value.remainingMs
    ensures Run(s, Ticks(ms)) == s.(debouncedQuery := s.query, timer := None)
    decreases |ms|
  {
    if ms == [] {
      assert s.timer.None?;
    } else {
      var t := Step(s, TimeElapsed(ms[0]));
      assert Ticks(ms)[1..] == Ticks(ms[1..]);
      WaitOutTimer(t, ms[1..]);
    }
  }

  /** Typing `text` and then waiting out the quiet period publishes `text`. */
  lemma TypeThenWait(s: SearchState, text: string, ms: seq<nat>)
    requires Consistent(s) && s.mounted
    requires Sum(ms) >= DEBOUNCE_MS
    ensures Run(Step(s, QueryChanged(text)), Ticks(ms)).debouncedQuery == text
    ensures Run(Step(s, QueryChanged(text)), Ticks(ms)).timer.None?
  {
    WaitOutTimer(Step(s, QueryChanged(text)), ms);
  }

  /** Typing a new `text` and waiting less than the quiet period leaves the
      debounced query (and so the suggestions) as they were. */
  lemma TypeThenWaitTooLittle(s: SearchState, text: string, ms: seq<nat>)
    requires Consistent(s) && s.mounted && text != s.query
    requires Sum(ms) < DEBOUNCE_MS
    ensures Run(Step(s, QueryChanged(text)), Ticks(ms)).debouncedQuery == s.debouncedQuery
    ensures Run(Step(s, QueryChanged(text)), Ticks(ms)).query == text
  {
    WaitShorterThanTimer(Step(s, QueryChanged(text)), ms);
  }

  /** After the component is gone no event changes anything: no callback
      outlives it. */
  lemma {:induction false} NothingAfterUnmount(s: SearchState, events: seq<SearchEvent>)
    requires !s.mounted
    ensures Run(s, events) == s
    decreases |events|
  {
    if events != [] {
      NothingAfterUnmount(Step(s, events[0]), events[1..]);
    }
  }

  /** Clearing empties the query, the debounced query and the suggestions at
      once and closes the panel, whatever came before. */
  lemma ClearEmptiesSuggestions(s: SearchState, ranked: seq<SpotWithDistance>)
    requires s.mounted
    ensures Step(s, SearchCleared).query == [] && Step(s, SearchCleared).debouncedQuery == []
    ensures !Step(s, SearchCleared).showSuggestions
    ensures SuggestionsFor(ranked, Step(s, SearchCleared).debouncedQuery) == []
  {
  }

  /** The state cells and the timer handle of one `useMapSearch` instance. */
  class MapSearchHook {
    var query: string
    var debouncedQuery: string
    var showSuggestions: bool
    var timer: Option<PendingTimer>
    var mounted: bool

    function State(): SearchState
      reads this
    {
      SearchState(query, debouncedQuery, showSuggestions, timer, mounted)
    }

    ghost predicate Valid()
      reads this
    {
      Consistent(State())
    }

    /** Mounting: empty query, panel closed, and the first effect run has
        scheduled a timer for the empty query. */
    constructor ()
      ensures Valid() && State() == Initial()
    {
      query, debouncedQuery, showSuggestions := [], [], false;
      mounted := true;
      timer := Schedule([]);
    }

    method SetQuery(text: string)
      requires Valid()
      modifies this
      ensures Valid() && State() == Step(old(State()), QueryChanged(text))
    {
      if mounted && text != query {
        query := text;
        // the effect re-runs: clear the old timer, then schedule a new one
        timer := None;
        timer := Schedule(query);
      }
    }

    /** `ms` milliseconds pass; the pending callback runs if its time has come. */
    method Tick(ms: nat)
      requires Valid()
      modifies this
      ensures Valid() && State() == Step(old(State()), TimeElapsed(ms))
    {
      if timer.Some? {
        var pending := timer.value;
        if ms >= pending.remainingMs {
          debouncedQuery := pending.payload;
          timer := None;
        } else {
          timer := Some(PendingTimer(pending.remainingMs - ms, pending.payload));
        }
      }
    }

    method ClearSearch()
      requires Valid()
      modifies this
      ensures Valid() && State() == Step(old(State()), SearchCleared)
      ensures mounted ==> query == [] && debouncedQuery == [] && !showSuggestions
    {
      if mounted {
        var queryChanged := query != [];
        query := [];
        debouncedQuery := [];
        showSuggestions := false;
        if queryChanged {
          timer := Schedule(query);
        }
      }
    }

    method SetShowSuggestions(show: bool)
      requires Valid()
      modifies this
      ensures Valid() && State() == Step(old(State()), ShowSuggestionsSet(show))
      ensures old(mounted) ==> State() == old(State()).(showSuggestions := show)
    {
      if mounted {
        showSuggestions := show;
      }
    }

    /** The effect's cleanup on unmount clears the pending timer. */
    method Unmount()
      requires Valid()
      modifies this
      ensures Valid() && State() == Step(old(State()), Unmounted)
      ensures timer.None?
    {
      if mounted {
        timer := None;
        mounted := false;
      }
    }

    /** The suggestions for the current debounced query. */
    function Suggestions(ranked: seq<SpotWithDistance>): seq<SpotWithDistance>
      reads this
    {
      SuggestionsFor(ranked, debouncedQuery)
    }
  }

  /** Typing "Temple": nothing is suggested after 100 ms, and after 350 ms
      the debounced query is "Temple". */
  method DebounceScenario(ranked: seq<SpotWithDistance>)
  {
    var hook := new MapSearchHook();
    hook.SetQuery("Temple");
    hook.Tick(100);
    assert hook.debouncedQuery == [] && hook.Suggestions(ranked) == [];
    hook.Tick(250);
    assert hook.debouncedQuery == "Temple";
    hook.ClearSearch();
    assert hook.query == [] && hook.Suggestions(ranked) == [];
  }
}
