# Proximity search and stamp form of the goshuin app, in Dafny

This project models the part of the goshuin (temple-stamp) app that has logic
beyond UI wiring:

- bounding-box geometry and the search constants (`src/utils/geo.ts`);
- adaptive radius escalation in `useSpots`: fetch spots for 2, 3, 5 and then
  10 km until a fetch returns at least 5, drop results once the request is
  superseded, and optionally keep only visited spots;
- distance ranking with a case-sensitive name filter in `useNearbySpots`;
- the interactive map search in `useMapSearch`: ranking, the three nearest
  spots, case-insensitive suggestions, and a 300 ms debounced query;
- the stamp-record form in `useRecordForm`: eight state cells, validation,
  and a submit that uploads the photo and then creates the stamp.

Modules, one per file:

- `Domain` (`domain.dfy`): spots, stamps, coordinates, and how an awaited call
  settles (`Resolved` value or `Rejected` thrown value).
- `Seqs` (`seqs.dfy`): the JavaScript library operations used: `filter`,
  `includes`, `toLowerCase`.
- `Geo` (`geo.dfy`).
- `Ranking` (`ranking.dfy`): the map-then-sort both search hooks use, as a
  stable insertion sort.
- `SpotsHook` (`use_spots.dfy`), `NearbySpots` (`use_nearby_spots.dfy`),
  `MapSearch` (`use_map_search.dfy`), `RecordForm` (`use_record_form.dfy`):
  one per hook.

Where the code updates state, the model is a class: `SpotsLoader` (the
escalation loop), `MapSearchHook` (query, debounce timer, panel flag) and
`RecordFormHook` (the form). Derived values (`spots`, `nearbySpots`,
`filteredSpots`, `suggestions`) are functions.

Collaborators are parameters:
- The spot fetch is a sequence of outcomes, one per radius step.
- The upload, create and fetch-by-id services are functions from request to outcome.
- The distance function is a function-valued parameter.
- The clock is an `Instant` parameter, or `TimeElapsed` events for the debounce.
- The signed-in user and the device location are plain inputs.

In `useSpots`, the effect's `cancelled` flag is a generation counter. The
parameter `supersededAt` says during which fetch the effect's cleanup runs.
In the model the rest of a superseded run finishes before the next run
starts; the source can interleave them. Because a superseded run writes
nothing after the cleanup (proved by `RunEffect`), the two orders give the
same state.

Behaviour the model follows from the code:
- The list filter of `useNearbySpots` is case-sensitive, and an empty query
  keeps every spot. The suggestions of `useMapSearch` are case-insensitive,
  and an empty debounced query gives none.
- No hook hides merged spots. The only status filter is the server-side
  `status = 'active'` condition in the fetch, which is outside this model.
- `validate` treats an empty image URI like a missing one, because it checks
  falsiness.
- Setting the query to its current value does not restart the debounce timer,
  because React skips the re-render and so the effect does not run again.
- The `||` of the location error and the spots error follows JavaScript
  truthiness: an empty location error gives way to the spots error.

## Model

| member | source | states |
|---|---|---|
| `Domain.MessageOr` | src/hooks/useSpots.ts:50 | an `Error` yields its message, any other thrown value the fallback text |
| `Seqs.Filter` | src/hooks/useSpots.ts:66 | the filtered list is no longer than the input and holds exactly the input's elements that satisfy the predicate |
| `Seqs.FilterMultiplicity` | src/hooks/useSpots.ts:66 | filtering keeps every copy of a kept element and none of the others |
| `Seqs.FilterIsSubsequence` | src/hooks/useNearbySpots.ts:42 | a filtered list is an order-preserving subsequence of its input |
| `Seqs.ContainsEmpty` | src/hooks/useNearbySpots.ts:41-42 | every string includes the empty string |
| `Seqs.Contains` | src/hooks/useNearbySpots.ts:42 | a match needs the query to be no longer than the string; every string includes the empty string and itself |
| `Seqs.LowerChar` | src/hooks/useMapSearch.ts:61-62 | each upper-case ASCII letter maps to its lower-case letter (code point plus 32) and every other character is unchanged |
| `Seqs.Lower` | src/hooks/useMapSearch.ts:61-62 | lower-casing keeps the length, leaves no upper-case ASCII letter, and keeps every other character in place |
| `Seqs.ContainsLower` | src/hooks/useMapSearch.ts:61-62 | a case-sensitive substring match is also a match after lower-casing both strings |
| `Geo.GetBoundingBox` | src/utils/geo.ts:28-41 | the box is symmetric about the centre; a positive radius puts the centre strictly inside; the latitude half-span depends on the radius only and the longitude half-span is it divided by cos(lat) |
| `Geo.LngDeltaTimesCos` | src/utils/geo.ts:29-33 | longitude half-span times cos(lat) equals the latitude half-span, with the radius's sign |
| `Geo.BoxGrowsWithRadius` | src/utils/geo.ts:29-40 | a larger radius gives a box that strictly contains the smaller one and has strictly wider latitude and longitude spans |
| `Geo.SearchConstants` | src/utils/geo.ts:43-48 | radius steps are [2, 3, 5, 10], strictly increasing and starting at the 2 km default; the threshold is 5; the default location is (38.2682, 140.8694) |
| `Geo.EscalationBoxesNest` | src/utils/geo.ts:43-44 | each escalation step's box strictly contains the previous step's |
| `Ranking.WithDistances` | src/hooks/useNearbySpots.ts:32-36 | each spot is paired, in input order, with its distance from the origin |
| `Ranking.Insert` | src/hooks/useNearbySpots.ts:37 | inserting into a nearest-first list gives a nearest-first list with one more element, the same elements plus the new one |
| `Ranking.SortByDistance` | src/hooks/useNearbySpots.ts:37 | the sorted list is nearest first and a permutation of the input |
| `Ranking.InsertStable` | src/hooks/useMapSearch.ts:54 | among entries at equal distance, an inserted entry goes ahead of those already there |
| `Ranking.SortStable` | src/hooks/useMapSearch.ts:54 | the sort is stable: entries at any one distance keep their input order |
| `Ranking.Rank` | src/hooks/useNearbySpots.ts:32-37 | the ranking has one entry per spot, is a permutation of the spot-distance pairs, and is nearest first |
| `Ranking.RankedEntries` | src/hooks/useMapSearch.ts:44-54 | every ranked entry carries its own spot's distance, and every input spot appears |
| `Ranking.FilterKeepsAscending` | src/hooks/useNearbySpots.ts:42 | filtering a nearest-first list leaves it nearest first |
| `SpotsHook.StopIndex` | src/hooks/useSpots.ts:40-45 | the loop ends at the first fetch that fails or returns at least 5 spots, else at the last step |
| `SpotsHook.FetchCount` | src/hooks/useSpots.ts:40-45 | a run makes between 1 and 4 fetches |
| `SpotsHook.Settle` | src/hooks/useSpots.ts:42-52 | the last fetch made decides: its spots if it resolved, else its error's message or 'Unknown error'; every earlier fetch returned fewer than 5 spots |
| `SpotsHook.Requests` | src/hooks/useSpots.ts:40-41 | the n-th request is the box for the n-th radius step, one per step |
| `SpotsHook.FirstQualifyingStep` | src/hooks/useSpots.ts:44 | if step k is the first with at least 5 spots, there are k+1 fetches and step k's spots are kept |
| `SpotsHook.NoStepQualifies` | src/hooks/useSpots.ts:38-47 | if no step reaches 5 spots, all 4 fetches happen and the 10 km result is kept |
| `SpotsHook.FirstFailure` | src/hooks/useSpots.ts:48-52 | a fetch that throws ends the run, with its message or 'Unknown error' |
| `SpotsHook.SettledSpotsMeetThresholdOrExhaustSteps` | src/hooks/useSpots.ts:40-47 | loaded spots number at least 5 unless every step was tried |
| `SpotsHook.VisibleSpots` | src/hooks/useSpots.ts:64-67 | in visited mode with a visited set, exactly the spots whose ids are in the set; otherwise every spot |
| `SpotsHook.VisibleSpotsIsSubsequence` | src/hooks/useSpots.ts:64-67 | the visited view is an order-preserving subsequence of the fetched list with unchanged multiplicities |
| `SpotsHook.SpotsLoader.constructor` | src/hooks/useSpots.ts:20-22 | starts with no spots, loading, and no error |
| `SpotsHook.SpotsLoader.RunEffect` | src/hooks/useSpots.ts:24-62 | no location: empty list, not loading, no fetch. Uncancelled: one box per step in order, then the settled spots or the error with an empty list, and loading ends. Cancelled: nothing is written after the fetches start |
| `NearbySpots.Nearby` | src/hooks/useNearbySpots.ts:29-38 | empty without a location or spots; otherwise every spot with its distance, nearest first, same length |
| `NearbySpots.RankingExample` | src/hooks/useNearbySpots.ts:32-37 | spots at 5.0, 0.5 and 1.5 km come out in the order 0.5, 1.5, 5.0 |
| `NearbySpots.Filtered` | src/hooks/useNearbySpots.ts:40-43 | an empty query keeps the list unchanged; otherwise exactly the entries whose name contains the query, case-sensitively |
| `NearbySpots.FilteredIsOrderedSubsequence` | src/hooks/useNearbySpots.ts:40-43 | the filtered list is an order-preserving subsequence of the ranking, stays nearest first, and keeps every copy of a matching entry and none of the others |
| `NearbySpots.OrElse` | src/hooks/useNearbySpots.ts:27 | the location error wins unless it is null or empty, and then the spots error is used |
| `NearbySpots.UseNearbySpots` | src/hooks/useNearbySpots.ts:21-53 | loading is the or of both sources; the error follows `OrElse`; the filtered list is the filter of the ranking |
| `MapSearch.SpotsWithDistance` | src/hooks/useMapSearch.ts:42-55 | without a location every spot at distance 0 in input order; with one a nearest-first permutation of the spot-distance pairs |
| `MapSearch.NearbyOf` | src/hooks/useMapSearch.ts:57 | the nearby list is the first min(3, n) entries of the ranking |
| `MapSearch.NearbyAreNearest` | src/hooks/useMapSearch.ts:57 | no nearby entry is farther than an entry left out |
| `MapSearch.SuggestionsFor` | src/hooks/useMapSearch.ts:59-63 | no suggestions for an empty debounced query; otherwise exactly the ranked entries whose lower-cased name contains the lower-cased query |
| `MapSearch.SuggestionsAreOrderedSubsequence` | src/hooks/useMapSearch.ts:62 | suggestions keep the ranking's order, are nearest first, and keep every copy of a matching entry and none of the others |
| `MapSearch.SuggestionsIgnoreCase` | src/hooks/useMapSearch.ts:61-62 | queries that differ only in letter case give the same suggestions |
| `MapSearch.ExactMatchIsSuggested` | src/hooks/useMapSearch.ts:61-62 | with ASCII-only case folding, an entry whose name contains a non-empty query exactly is among its suggestions |
| `MapSearch.Step` | src/hooks/useMapSearch.ts:27-40 | every event keeps the timer invariant (a pending timer carries the current query and at most 300 ms; without one the debounced query equals the query), and after unmount no event changes anything |
| `MapSearch.WaitShorterThanTimer` | src/hooks/useMapSearch.ts:34-36 | while less than the remaining wait passes, only the countdown changes |
| `MapSearch.WaitOutTimer` | src/hooks/useMapSearch.ts:34-36 | once the remaining wait has passed, the timer has fired and the debounced query equals the query |
| `MapSearch.TypeThenWait` | src/hooks/useMapSearch.ts:32-40 | setting a query and then letting 300 ms or more pass publishes it as the debounced query |
| `MapSearch.TypeThenWaitTooLittle` | src/hooks/useMapSearch.ts:32-40 | after a new query and less than 300 ms, the query is new and the debounced query is unchanged |
| `MapSearch.NothingAfterUnmount` | src/hooks/useMapSearch.ts:37-39 | after unmount no sequence of events changes the state |
| `MapSearch.ClearEmptiesSuggestions` | src/hooks/useMapSearch.ts:65-69 | clearing empties the query and the debounced query, closes the panel, and leaves no suggestions |
| `MapSearch.MapSearchHook.constructor` | src/hooks/useMapSearch.ts:27-36 | starts with empty query, panel closed, and a timer pending for the empty query |
| `MapSearch.MapSearchHook.SetQuery` | src/hooks/useMapSearch.ts:27-36 | the query changes at once and a fresh 300 ms timer replaces any pending one, unless the value is unchanged |
| `MapSearch.MapSearchHook.Tick` | src/hooks/useMapSearch.ts:34-36 | the pending timer counts down and, when due, publishes its query and is gone |
| `MapSearch.MapSearchHook.ClearSearch` | src/hooks/useMapSearch.ts:65-69 | query and debounced query become empty and the panel closes in the same step |
| `MapSearch.MapSearchHook.SetShowSuggestions` | src/hooks/useMapSearch.ts:29 | sets the panel flag and changes nothing else |
| `MapSearch.MapSearchHook.Unmount` | src/hooks/useMapSearch.ts:37-39 | the cleanup clears the pending timer |
| `RecordForm.HasImage` | src/hooks/useRecordForm.ts:71 | null and the empty string count as no image; any other string counts as an image |
| `RecordForm.Check` | src/hooks/useRecordForm.ts:61-79 | valid exactly when a spot is selected and an image is set; each error is set exactly when its field is missing, with its fixed message |
| `RecordForm.SubmitValid` | src/hooks/useRecordForm.ts:86-107 | upload is called first with (user, image); create follows only after a successful upload, with its path; success means a stamp, no error, and create returned that stamp; on failure `submitError` is the no-user error, or the message of the upload or create error, or the fixed save-failed text for a non-`Error` |
| `RecordForm.SubmitSucceedsIff` | src/hooks/useRecordForm.ts:89-100 | submit succeeds exactly when there is a user and both upload and create resolve |
| `RecordForm.FailureKeepsMessage` | src/hooks/useRecordForm.ts:101-104 | a failed upload gives no stamp, no create call, and the error's message in `submitError` |
| `RecordForm.RecordFormHook.constructor` | src/hooks/useRecordForm.ts:32-39 | no spot, no image, empty memo, no errors, not submitting, visit time now |
| `RecordForm.RecordFormHook.LoadInitialSpot` | src/hooks/useRecordForm.ts:41-49 | a non-empty initial id is fetched and a found spot is selected; nothing else changes |
| `RecordForm.RecordFormHook.SelectSpot` | src/hooks/useRecordForm.ts:51-54 | selects the spot and clears the spot error only |
| `RecordForm.RecordFormHook.SetImageUri` | src/hooks/useRecordForm.ts:56-59 | sets the image and clears the image error only |
| `RecordForm.RecordFormHook.SetVisitedAt` | src/hooks/useRecordForm.ts:34 | sets the visit time only |
| `RecordForm.RecordFormHook.SetMemo` | src/hooks/useRecordForm.ts:35 | sets the memo only |
| `RecordForm.RecordFormHook.Validate` | src/hooks/useRecordForm.ts:61-79 | returns and writes what `Check` decides for the current spot and image |
| `RecordForm.RecordFormHook.Submit` | src/hooks/useRecordForm.ts:81-108 | an invalid form returns failure with no service call and no change to `isSubmitting` or `submitError`; a valid one does what `SubmitValid` says and ends not submitting |
| `RecordForm.RecordFormHook.Reset` | src/hooks/useRecordForm.ts:110-119 | every cell is back to its initial value, with the visit time now |

## Left out

- `calculateDistance` (src/utils/geo.ts:13-23): haversine trigonometry on doubles. Ranking takes the distance as a function parameter, and every ranking property holds for any distance function. Zero distance for equal points, symmetry and the Tokyo–Osaka figure are not stated.
- `Geo.GetBoundingBox`: `Math.cos` of the latitude is a parameter `cosLat > 0` and π is 3.141592653589793, the shortest decimal that rounds to the double `Math.PI` (the double itself is slightly larger). Arithmetic is exact over reals, so floating-point rounding is not modelled.
- Floating-point ordering: `NaN` distances, for which the sort comparator is inconsistent, do not exist over reals.
- `Seqs.LowerChar`: only ASCII letters are case-folded. `toLowerCase` also folds other scripts (Latin-1, Greek, Cyrillic, full-width letters) and can change the length of a string; Japanese names have no case.
- `RecordForm.RecordFormHook.Submit`: the method is atomic. The intermediate `isSubmitting == true` that React shows while the services are pending is not observable in the model; only the final `false` is stated.
- `RecordForm.SubmitValid`: the message thrown when no user is signed in (`user!.id` on null) is engine-defined text; the model uses a fixed string `NO_USER`. `visitedAt.toISOString()` is not modelled; the request carries the instant itself.
- `SpotsHook.SpotsLoader.RunEffect`: the sequential model cannot show how two runs interleave; see the note on `supersededAt` above. The visited post-filter is a separate function, so it cannot influence the fetch count: `RunEffect` takes no filter argument.
- `MapSearch`: time is a virtual clock of `TimeElapsed` events. React's re-render scheduling and `useMemo` caching are not modelled; derived lists are recomputed functions of the current state.
- The services `fetchSpotsByBounds`, `fetchSpotById`, `uploadStampImage`, `createStamp` and the Supabase client are oracles. `fetchSpotsByBounds` itself turns query errors into `[]`, so the hook's error path is reached only when the call throws.
- `useLocation`, `useAuth` and the other hooks, screens, components, navigation and theme are not part of this model. The location and the user are plain inputs.
