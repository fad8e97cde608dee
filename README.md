# Trip planner core in Dafny

This project models the trip-planning data logic of a React Native travel app.

- **Greedy day scheduler** (`autoSchedule`, module `AutoSchedule`):
  - Keeps the candidate places whose names were selected.
  - Works out how many days the trip has from its start and end dates.
  - Deals the places into one bucket per day: each day starts with the lowest-index unused place, then repeatedly takes the unused place nearest to the day's last one.
  - Outputs one `RouteDay` per day.
- **Trip draft store** (`useTripStore`, module `TripStore`): the one mutable record the screens fill in step by step. It is a class whose actions each replace only their own fields.
- **Saved-plan detail screen** (module `PlanDetail`):
  - Turns a saved plan's routes into days of places and lodging with coordinates, using fixed fallback coordinates when a location is missing.
  - Builds one polyline per day.
  - Holds the day filter behind the map.
- **Lodging screen** (module `LodgingScreen`): a per-day choice of hotel, and the single record that saving writes into the store.
- **Landmark screen** (module `LandmarkScreen`): a toggle-select capped at six ids.
- **Keyword screen** (module `KeywordScreen`): a set-like keyword selection that starts with two defaults.

The JavaScript idioms these share, `filter` and "append unless `includes`", are in module `Lists`.

Behaviour of the code that a reader might not expect, and that the model follows:

- The scheduler returns `[]` only when the coordinate list is empty. Otherwise it returns exactly one entry per trip day, and empty days are kept. When no coordinate name is selected, the result is a run of empty days, not `[]`.
- The lodging screen writes one record `{name, address, checkIn, checkOut}` into `selectedLodging`, although that field is declared as a day-to-hotel map. The model's `Lodging` type holds either value (`ByDay` or `Single`). `LodgingScreen.SavedLodgingHasNoDay` proves that after a save, every per-day lookup, such as the one the plan detail screen makes, finds no hotel.
- The store has no per-day lodging setter. `setSelectedLodging` replaces the whole value.
- `clearTrip` empties the keywords, whereas a fresh store starts with two of them.

Distances, dates and coordinates:

- The scheduler takes its distance function as a parameter `dist: (Place, Place) -> nat`, because the greedy choice only compares distances.
- Dates are integer millisecond timestamps. `Math.ceil` of the day difference is an exact ceiling division that is correct for negative differences too.
- Coordinates are `real`.

## Model

| member | source | states |
|---|---|---|
| AutoSchedule.CeilDays | src/utils/autoSchedule.ts:27 | The result is the ceiling of the millisecond difference divided by one day, for a difference of either sign |
| AutoSchedule.DayCount | src/utils/autoSchedule.ts:27 | The day count is at least 1. It is exactly 1 iff the end is not after the start. Otherwise it is one more than the number of started days |
| AutoSchedule.Capacity | src/utils/autoSchedule.ts:37 | The per-day capacity is the least value that fits n places into the days: n ≤ cap·days < n + days. It is at least 1 whenever there is a place |
| AutoSchedule.SelectedPlaces | src/utils/autoSchedule.ts:30 | Every kept place has a selected name. Each place occurs as often as in the input if its name is selected, and not at all otherwise. Order is stated by SelectedPlacesInOrder |
| AutoSchedule.SelectedPlacesInOrder | src/utils/autoSchedule.ts:30 | The kept places stay in input order: selecting from a concatenation selects from each part, and a single place is kept iff its name is selected, which fixes the indices the seed and the tie-break compare |
| AutoSchedule.FirstUnused | src/utils/autoSchedule.ts:45 | The seed of a day is an unused index, and every lower index is used |
| AutoSchedule.NearestUnused | src/utils/autoSchedule.ts:55-64 | The result is -1 iff every index is used. Otherwise it is an unused index no farther from the last place than any other unused index, and strictly nearer than every lower unused index, so ties go to the lowest index |
| AutoSchedule.NotLastDay | src/utils/autoSchedule.ts:37-39 | While places remain, the full buckets before the next one cannot be all of the days |
| AutoSchedule.AdvanceDay | src/utils/autoSchedule.ts:37-40 | A full current bucket is never the last one while places remain. The next bucket is then empty and the loop state carries over, so the clamp to the last day is never reached |
| AutoSchedule.GreedyExtend | src/utils/autoSchedule.ts:44-48 | Appending a greedy pick to the current bucket appends it to the flattened buckets and keeps every entry a greedy pick |
| AutoSchedule.PlaceNext | src/utils/autoSchedule.ts:65-69 | Placing a seed or a nearest pick in a bucket with room keeps the loop state: shape, used set and greedy order. It grows the placed sequence by exactly that index |
| AutoSchedule.FillDone | src/utils/autoSchedule.ts:35 | When the used set reaches the place count, the buckets hold every index exactly once, within capacity, in fill order, each entry a greedy pick |
| AutoSchedule.UnusedExists | src/utils/autoSchedule.ts:35 | While fewer indices are used than there are places, some index is still unused, so the seed search succeeds |
| AutoSchedule.UsedAll | src/utils/autoSchedule.ts:35 | A used set of the place count's size, with indices below it, is exactly the set of all indices |
| AutoSchedule.FillStep | src/utils/autoSchedule.ts:36-69 | One loop iteration keeps the loop state (buckets before the current one full, later ones empty, used set equal to the placed indices, every entry a greedy pick). It adds exactly one new index to the used set, which is the termination measure |
| AutoSchedule.FillGroups | src/utils/autoSchedule.ts:31-70 | The loop yields one bucket per day. The buckets hold every filtered index exactly once (a permutation). No bucket exceeds the capacity. A bucket is non-empty only if every earlier one is full. Every entry is the greedy pick |
| AutoSchedule.NamesAt | src/utils/autoSchedule.ts:74 | The names of a bucket are, position by position, the names of the places at its indices |
| AutoSchedule.NamesAtPermutation | src/utils/autoSchedule.ts:74 | Naming two permutations of the same indices gives the same multiset of names |
| AutoSchedule.RoutesNameAll | src/utils/autoSchedule.ts:72-75 | Routes named after buckets that hold a permutation of all indices name every filtered place exactly once, duplicates counted separately |
| AutoSchedule.DayRoutes | src/utils/autoSchedule.ts:72-75 | There is one route per bucket, numbered from 1 in bucket order. Entry k of day i+1 is the name of the place at entry k of bucket i |
| AutoSchedule.DayRoutesOfBuckets | src/utils/autoSchedule.ts:72-75 | Buckets that deal out every index once, within capacity and in fill order, give routes whose names are exactly the filtered names, within capacity and in fill order |
| AutoSchedule.Schedule | src/utils/autoSchedule.ts:21-76 | Empty coordinates give []. Otherwise the day count of routes is returned, numbered 1, 2, … Their names are exactly the filtered names, each once. No day exceeds the capacity. A day is non-empty only if every earlier day is full. Each day is the greedy walk over the filtered places |
| Lists.Filter | src/store/useTripStore.ts:99 | Filtering keeps exactly the occurrences that satisfy the test and never lengthens the list. When every element passes, it is the identity |
| Lists.FilterConcat | src/store/useTripStore.ts:99 | Filtering distributes over concatenation, so the kept elements keep their relative order |
| Lists.RemoveAll | src/store/useTripStore.ts:117-120 | The value is gone, every other value keeps its count, the list is unchanged when the value is absent, and uniqueness is preserved |
| Lists.RemoveAllInOrder | src/store/useTripStore.ts:117-120 | The survivors keep their order: removing from a concatenation removes from each part, and a single value survives iff it differs from the removed one |
| Lists.AddIfAbsent | src/store/useTripStore.ts:110-115 | The value is present afterwards. It was appended at the end iff it was absent, the old list is a prefix, and uniqueness is preserved |
| Lists.AddIfAbsentIdempotent | src/store/useTripStore.ts:112-114 | Adding a keyword twice is the same as adding it once |
| Lists.RemoveAllIdempotent | src/store/useTripStore.ts:119 | Removing a keyword twice is the same as removing it once |
| Lists.RemoveAllAfterAppend | src/screens/LandmarkScreen.tsx:102-104 | Removing a value just appended to a list lacking it gives back the list |
| TripStore.HotelForDay | src/screens/MyPlanDetailScreen.tsx:58-59 | Looking up `selectedLodging[day]` finds a hotel iff the lodging is the declared day-to-hotel map and contains that day, and then it is that day's hotel. A single record has no hotel for any day |
| TripStore.ClearedIsInitialWithoutKeywords | src/store/useTripStore.ts:124-136 | Clearing gives the initial state except that the keywords are empty instead of the two defaults, so it differs from a fresh store |
| TripStore.HasPlaceId | src/store/useTripStore.ts:92 | Some landmark has the id iff the id is among the landmarks' place ids |
| TripStore.WithLandmark | src/store/useTripStore.ts:90-95 | After adding, the place id is present. The place was appended at the end iff no landmark had its id. The old list is a prefix |
| TripStore.WithoutLandmark | src/store/useTripStore.ts:97-100 | After removal, no landmark has the id. Every landmark with another id keeps its count. The list is unchanged when the id was absent |
| TripStore.WithoutLandmarkInOrder | src/store/useTripStore.ts:97-100 | The kept landmarks keep their order: removing from a concatenation removes from each part, and a single landmark is kept iff its place id differs |
| TripStore.PlaceIdsWithLandmark | src/store/useTripStore.ts:92-94 | On place ids, adding a landmark is "append unless present" |
| TripStore.PlaceIdsWithoutLandmark | src/store/useTripStore.ts:99 | On place ids, removing a landmark removes every occurrence of the id and keeps the rest in order |
| TripStore.WithLandmarkUnique | src/store/useTripStore.ts:90-95 | Adding keeps place ids unique and is idempotent |
| TripStore.WithoutLandmarkUnique | src/store/useTripStore.ts:97-100 | Removing keeps place ids unique and is idempotent |
| TripStore.RemoveUndoesAdd | src/store/useTripStore.ts:90-100 | Adding a landmark and then removing its id gives the same list as just removing the id |
| TripStore.Store.constructor | src/store/useTripStore.ts:67-78 | A fresh store has an empty name, no dates, city, flight or route, no landmarks, people or routes, an empty lodging map, and the keywords 도심 and 쇼핑 |
| TripStore.Store.SetTripName | src/store/useTripStore.ts:81 | Only the trip name changes |
| TripStore.Store.SetDates | src/store/useTripStore.ts:83-86 | Only the two dates change |
| TripStore.Store.SetSelectedCity | src/store/useTripStore.ts:88 | Only the city changes |
| TripStore.Store.AddLandmark | src/store/useTripStore.ts:90-95 | Only the landmarks change, by the add-unless-same-id update. Unique place ids stay unique. The routes are untouched |
| TripStore.Store.RemoveLandmark | src/store/useTripStore.ts:97-100 | Only the landmarks change, by dropping the id. Unique place ids stay unique. The routes are untouched |
| TripStore.Store.SetSelectedPeople | src/store/useTripStore.ts:102 | Only the people change |
| TripStore.Store.SetSelectedFlight | src/store/useTripStore.ts:104 | Only the flight changes |
| TripStore.Store.SetSelectedRoute | src/store/useTripStore.ts:106 | Only the route changes |
| TripStore.Store.SetSelectedLodging | src/store/useTripStore.ts:108 | The whole lodging value is replaced, and nothing else changes |
| TripStore.Store.AddKeyword | src/store/useTripStore.ts:110-115 | Only the keywords change, by "append unless present" |
| TripStore.Store.RemoveKeyword | src/store/useTripStore.ts:117-120 | Only the keywords change, by removing every occurrence |
| TripStore.Store.ClearKeywords | src/store/useTripStore.ts:122 | Only the keywords change, to empty |
| TripStore.Store.ClearTrip | src/store/useTripStore.ts:124-136 | Every field is reset to the cleared state |
| TripStore.Store.SetRoutes | src/store/useTripStore.ts:138 | Only the routes change, unconditionally |
| PlanDetail.FindByName | src/screens/MyPlanDetailScreen.tsx:41-43 | No match iff no landmark has the name. Otherwise the result is the landmark with that name that precedes every other one with it |
| PlanDetail.ResolvePlace | src/screens/MyPlanDetailScreen.tsx:39-56 | A place keeps its route name and always has a coordinate: the first same-named landmark's location if it has one, otherwise (37.5665, 126.9780) |
| PlanDetail.ResolveLodging | src/screens/MyPlanDetailScreen.tsx:57-69 | A day has a lodging iff the plan's lodging holds a hotel for that day number. That lodging keeps the hotel's name and has its location, or else (37.5700, 126.9769) |
| PlanDetail.ResolvePlaces | src/screens/MyPlanDetailScreen.tsx:39 | Each name of a route is resolved in order, none dropped |
| PlanDetail.BuildPlanDays | src/screens/MyPlanDetailScreen.tsx:38-71 | There are no days when the plan or its routes are missing. Otherwise there is one day per route, in order, with the route's day number, its resolved places and its lodging |
| PlanDetail.PlanDaysKeepEveryName | src/screens/MyPlanDetailScreen.tsx:39-56 | Each built day lists every name of its route, in order, each with a coordinate |
| PlanDetail.PlacesCoordsAllPresent | src/screens/MyPlanDetailScreen.tsx:20-22 | Places that all have coordinates contribute exactly their coordinates, in order |
| PlanDetail.PlacesCoordsInOrder | src/screens/MyPlanDetailScreen.tsx:20-22 | The places' coordinates are collected in order: a concatenation contributes each part's coordinates in turn, and a single place contributes its coordinate if it has one and nothing otherwise |
| PlanDetail.DayCoords | src/screens/MyPlanDetailScreen.tsx:17-23 | Without a lodging coordinate a day's polyline is its places' coordinates. With one, the places' coordinates sit between a final lodging point and, after the first day, a leading lodging point |
| PlanDetail.RouteCoordsOfDay | src/screens/MyPlanDetailScreen.tsx:16-24 | A day's polyline is: the lodging if the day index is above 0 and the lodging has a coordinate, then the coordinates of its places, then the lodging, if it has a coordinate |
| PlanDetail.AllRouteCoords | src/screens/MyPlanDetailScreen.tsx:14-26 | There is one polyline per day, each being that day's polyline at its index |
| PlanDetail.DayCoordsOfPlanDays | src/screens/MyPlanDetailScreen.tsx:14-26 | A built day's polyline has one point per route place plus the lodging (twice after the first day), and it ends at the lodging when there is one |
| PlanDetail.ToggleDay | src/screens/MyPlanDetailScreen.tsx:118-120 | Pressing a day selects it iff it was not selected, and clears the selection iff it was |
| PlanDetail.ToggleDayTwice | src/screens/MyPlanDetailScreen.tsx:118-120 | Pressing the same day twice restores the selection iff nothing or that day was selected |
| PlanDetail.FilterBySelection | src/screens/MyPlanDetailScreen.tsx:109-116 | With no selection the list is unchanged. Otherwise it is exactly the selected day's entry |
| PlanDetail.FilteredCoordsMatchMarkers | src/screens/MyPlanDetailScreen.tsx:109-116 | The filtered polylines and the filtered markers always describe the same days |
| LodgingScreen.SmallestDay | src/screens/LodgingScreen.tsx:60 | A non-empty set of chosen days has a smallest day, which is the first of `Object.keys` when every day key is below 2^32 − 1 (an array index) |
| LodgingScreen.RecordFor | src/screens/LodgingScreen.tsx:62-67 | The saved record has the day's chosen name, an empty address and no check-in or check-out |
| LodgingScreen.Screen.constructor | src/screens/LodgingScreen.tsx:51 | The screen starts with no choices |
| LodgingScreen.Screen.HandleSelect | src/screens/LodgingScreen.tsx:55-57 | The day's choice is set, overwriting an earlier one. The other days keep theirs, and the chosen days grow by that day |
| LodgingScreen.Screen.SaveLodgingToStore | src/screens/LodgingScreen.tsx:59-69 | With no choice, nothing is written and the store is unchanged. Otherwise only the smallest chosen day's record is written, replacing the store's whole lodging value and nothing else |
| LodgingScreen.SavedLodgingHasNoDay | src/screens/LodgingScreen.tsx:62-67 | Once saved, the store's lodging has no hotel for any day number |
| LandmarkScreen.ToggleSelect | src/screens/LandmarkScreen.tsx:99-107 | The id is selected afterwards iff it was not and fewer than 6 were. A selected id is removed everywhere, the rest in order (RemoveAll). A new id with room is appended exactly once at the end, and without room nothing changes. Other ids keep their counts. At most 6 stay at most 6. No duplicates arise |
| LandmarkScreen.ToggleSelectTwice | src/screens/LandmarkScreen.tsx:101-104 | Toggling an unselected id on and off again, with room, restores the selection |
| LandmarkScreen.AfterTapsBounded | src/screens/LandmarkScreen.tsx:96-107 | From the empty selection, any taps leave at most 6 ids and no duplicates |
| LandmarkScreen.CanProceed | src/screens/LandmarkScreen.tsx:156 | "Next" is enabled iff the selection holds some id |
| LandmarkScreen.TapThenProceed | src/screens/LandmarkScreen.tsx:156 | Tapping an unselected id with room always enables "Next" |
| KeywordScreen.Apply | src/screens/KeywordScreen.tsx:19-27 | Adding a new keyword appends it exactly once at the end, and adding a present one changes nothing. Removing takes every occurrence out and keeps the rest in order (RemoveAll). Other keywords keep their counts. No duplicates arise |
| KeywordScreen.AfterActionsNoDuplicates | src/screens/KeywordScreen.tsx:16-27 | From the initial 도심 and 쇼핑, no sequence of adds and removes produces a duplicate keyword |
| KeywordScreen.SuggestionDisabled | src/screens/KeywordScreen.tsx:68 | A suggestion button is disabled iff its keyword occurs in the selection |
| KeywordScreen.SuggestionEnabledIffAdds | src/screens/KeywordScreen.tsx:68 | A suggestion button is disabled iff pressing it would leave the selection unchanged |

## Left out

- `getDistance` (the haversine formula) is floating point. Distance is a parameter into `nat`, so a NaN distance is not modelled. In the code, the strict `<` skips any candidate whose distance is NaN. When every unused candidate's distance from the day's last place is NaN, `minIdx` stays -1 and the loop never ends.
- `Date` objects: dates are millisecond timestamps. An invalid `Date`, whose `getTime()` is NaN, is not modelled. Floating-point rounding of `Math.ceil` on very large differences is not modelled.
- AutoSchedule.Schedule: the buckets hold indices into the filtered list rather than the place objects themselves. The returned names are the same, but the `picks` that witness the greedy order are ghost.
- The `...found` and `...lodging` spreads in the plan detail screen copy every other field of the landmark or hotel into the result. The model keeps only the name and the coordinate, which is what the markers and polylines read.
- PlanDetail.FilterBySelection: requires the selected index to be in range. The code would yield `[undefined]` for an out-of-range index.
- The plan detail screen's `useEffect` that fits the map to all coordinates, `focusMarker`, `setTimeout`, the map view and all rendering are not modelled.
- The `selectedDay` and `selected` state of the screens are plain values passed through functions (plan detail, landmark and keyword screens). The lodging screen is a class because its save writes into the store.
- zustand `create` and React hooks are not modelled. The store is a class whose methods are its actions.
- LodgingScreen.Screen.SaveLodgingToStore: always saves the least chosen day. `Object.keys` lists day keys below 2^32 − 1 (array indices) in ascending order, but lists larger integer keys after them, in insertion order. For such keys the code may save another day, and the model does not capture this. Negative or non-integer keys are not modelled either.
- Call sites that pass ill-typed values to the store, in `CityDetailScreen.tsx` and `TripStepScreen.tsx`, are not part of this model. The declared types are used.
- Firestore, authentication, network code, navigation and the other screens are not part of this model.
