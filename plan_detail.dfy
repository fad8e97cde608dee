/**
 * The data side of the saved-plan detail screen (`MyPlanDetailScreen`): turning a
 * saved plan's routes into per-day lists of places with coordinates, the
 * per-day polyline coordinate lists, and the day filter behind the map.
 *
 * A saved plan is loosely typed data read back from storage, so every field the
 * screen tests for presence is an `Option`.
 */
module PlanDetail {
  import opened Common
  import AutoSchedule
  import TripStore

  /** A saved landmark; only its name and (possibly missing) location are read here. */
  datatype SavedLandmark = SavedLandmark(name: string, location: Option<Location>)

  /** The parts of a saved plan the screen reads. */
  datatype SavedPlan = SavedPlan(
    routes: Option<seq<AutoSchedule.RouteDay>>,
    selectedLandmarks: Option<seq<SavedLandmark>>,
    selectedLodging: Option<TripStore.Lodging>)

  /** A place of a day, with the coordinate its marker and polyline use. */
  datatype PlanPlace = PlanPlace(name: string, latlng: Option<Location>)

  /** A day's lodging, with the coordinate its marker and polyline use. */
  datatype PlanLodging = PlanLodging(name: string, latlng: Option<Location>)

  /** One entry of `planDays`. */
  datatype PlanDay = PlanDay(day: int, places: seq<PlanPlace>, lodging: Option<PlanLodging>)

  /** Where a place with no known location is drawn. */
  const PLACE_FALLBACK: Location := Location(37.5665, 126.9780)

  /** Where a lodging with no known location is drawn. */
  const LODGING_FALLBACK: Location := Location(37.5700, 126.9769)

  // ---------------------------------------------------------------------------
  // Building `planDays`
  // ---------------------------------------------------------------------------

  /** `landmarks.find(lm => lm.name === name)`: the first landmark with that name. */
  function FindByName(landmarks: seq<SavedLandmark>, name: string): (r: Option<SavedLandmark>)
    ensures r.None? <==> forall i :: 0 <= i < |landmarks| ==> landmarks[i].name != name
    ensures r.Some? ==> exists i :: 0 <= i < |landmarks| && landmarks[i] == r.value && r.value.name == name &&
                                     forall j :: 0 <= j < i ==> landmarks[j].name != name
  {
    if landmarks == [] then None
    else if landmarks[0].name == name then Some(landmarks[0])
    else
      var r := FindByName(landmarks[1..], name);
      assert forall i :: 1 <= i < |landmarks| ==> landmarks[i] == landmarks[1..][i - 1];
      r
  }

  /**
   * A route's place name becomes a place with coordinates: those of the first
   * selected landmark with that name when it has a location, the fallback otherwise.
   */
  function ResolvePlace(landmarks: Option<seq<SavedLandmark>>, name: string): (p: PlanPlace)
    ensures p.name == name
    ensures p.latlng.Some?
    ensures (landmarks.Some? && FindByName(landmarks.value, name).Some? &&
             FindByName(landmarks.value, name).value.location.Some?)
            ==> p.latlng == FindByName(landmarks.value, name).value.location
    ensures (landmarks.None? || FindByName(landmarks.value, name).None? ||
             FindByName(landmarks.value, name).value.location.None?)
            ==> p.latlng == Some(PLACE_FALLBACK)
  {
    var found := if landmarks.Some? then FindByName(landmarks.value, name) else None;
    if found.Some? && found.value.location.Some? then PlanPlace(found.value.name, found.value.location)
    else PlanPlace(name, Some(PLACE_FALLBACK))
  }

  /** `selectedLodging[day]`, with the fallback coordinate when the hotel has no location. */
  function ResolveLodging(lodging: Option<TripStore.Lodging>, day: int): (l: Option<PlanLodging>)
    ensures l.Some? <==> lodging.Some? && TripStore.HotelForDay(lodging.value, day).Some?
    ensures l.Some? ==> l.value.latlng.Some?
    ensures l.Some? ==>
      var hotel := TripStore.HotelForDay(lodging.value, day).value;
      l.value.name == hotel.name &&
      l.value.latlng == (if hotel.location.Some? then hotel.location else Some(LODGING_FALLBACK))
  {
    if lodging.None? then None
    else
      match TripStore.HotelForDay(lodging.value, day)
      case None => None
      case Some(hotel) =>
        Some(PlanLodging(hotel.name, if hotel.location.Some? then hotel.location else Some(LODGING_FALLBACK)))
  }

  /** The places of one route, each name resolved in order. */
  function ResolvePlaces(landmarks: Option<seq<SavedLandmark>>, names: seq<string>): (ps: seq<PlanPlace>)
    ensures |ps| == |names|
    ensures forall k :: 0 <= k < |names| ==> ps[k] == ResolvePlace(landmarks, names[k])
  {
    seq(|names|, k requires 0 <= k < |names| => ResolvePlace(landmarks, names[k]))
  }

  /** `planDays`: one entry per saved route, or none when the plan or its routes are missing. */
  function BuildPlanDays(plan: Option<SavedPlan>): (days: seq<PlanDay>)
    ensures plan.None? || plan.value.routes.None? ==> days == []
    ensures plan.Some? && plan.value.routes.Some? ==>
      var routes := plan.value.routes.value;
      && |days| == |routes|
      && forall i :: 0 <= i < |routes| ==>
           && days[i].day == routes[i].day
           && days[i].places == ResolvePlaces(plan.value.selectedLandmarks, routes[i].places)
           && days[i].lodging == ResolveLodging(plan.value.selectedLodging, routes[i].day)
  {
    if plan.None? || plan.value.routes.None? then []
    else
      var p := plan.value;
      var routes := p.routes.value;
      seq(|routes|, i requires 0 <= i < |routes| =>
        PlanDay(routes[i].day, ResolvePlaces(p.selectedLandmarks, routes[i].places),
                ResolveLodging(p.selectedLodging, routes[i].day)))
  }

  /** Every day keeps every one of its place names, in order, each with a coordinate. */
  lemma PlanDaysKeepEveryName(plan: SavedPlan, i: nat)
    requires plan.routes.Some? && i < |plan.routes.value|
    ensures i < |BuildPlanDays(Some(plan))|
    ensures var day := BuildPlanDays(Some(plan))[i];
      && |day.places| == |plan.routes.value[i].places|
      && forall k :: 0 <= k < |day.places| ==>
           day.places[k].name == plan.routes.value[i].places[k] && day.places[k].latlng.Some?
  {
  }

  // ---------------------------------------------------------------------------
  // Polyline coordinates
  // ---------------------------------------------------------------------------

  /** The coordinates of the places that have one, in order. */
  function PlacesCoords(places: seq<PlanPlace>): (cs: seq<Location>)
    ensures |cs| <= |places|
  {
    if places == [] then []
    else
      var last := places[|places| - 1];
      PlacesCoords(places[..|places| - 1]) + (if last.latlng.Some? then [last.latlng.value] else [])
  }

  /**
   * Exactly the coordinates of the places that have one, in order: a concatenation
   * contributes each part's coordinates in turn, and a single place its own, if any.
   */
  lemma {:induction false} PlacesCoordsInOrder(a: seq<PlanPlace>, b: seq<PlanPlace>, p: PlanPlace)
    ensures PlacesCoords(a + b) == PlacesCoords(a) + PlacesCoords(b)
    ensures PlacesCoords([p]) == if p.latlng.Some? then [p.latlng.value] else []
  {
    assert [p][..0] == [];
    if b != [] {
      var n := |b| - 1;
      assert (a + b)[..|a + b| - 1] == a + b[..n];
      PlacesCoordsInOrder(a, b[..n], p);
    } else {
      assert a + b == a;
    }
  }

  /** The coordinate of a lodging, as a list of zero or one entries. */
  function LodgingCoords(lodging: Option<PlanLodging>): seq<Location>
  {
    if lodging.Some? && lodging.value.latlng.Some? then [lodging.value.latlng.value] else []
  }

  /**
   * The polyline of day number `idx` (counted from 0): the lodging first when this is
   * not the first day, then the places, then the lodging again.
   */
  function DayCoords(day: PlanDay, idx: nat): (cs: seq<Location>)
    ensures LodgingCoords(day.lodging) == [] ==> cs == PlacesCoords(day.places)
    ensures LodgingCoords(day.lodging) != [] ==>
      && |cs| == |PlacesCoords(day.places)| + (if idx > 0 then 2 else 1)
      && cs[|cs| - 1] == day.lodging.value.latlng.value
      && (idx > 0 ==> cs[0] == day.lodging.value.latlng.value)
      && cs[(if idx > 0 then 1 else 0)..|cs| - 1] == PlacesCoords(day.places)
  {
    (if idx > 0 then LodgingCoords(day.lodging) else []) + PlacesCoords(day.places) + LodgingCoords(day.lodging)
  }

  /** The callback of `getAllRouteCoords` for day `day` at position `idx`. */
  method RouteCoordsOfDay(day: PlanDay, idx: nat) returns (coords: seq<Location>)
    ensures coords == DayCoords(day, idx)
  {
    coords := [];
    if idx > 0 && day.lodging.Some? && day.lodging.value.latlng.Some? {
      coords := coords + [day.lodging.value.latlng.value];
    }
    ghost var start := coords;
    for k := 0 to |day.places|
      invariant coords == start + PlacesCoords(day.places[..k])
    {
      var p := day.places[k];
      assert day.places[..k + 1][..k] == day.places[..k];
      if p.latlng.Some? {
        coords := coords + [p.latlng.value];
      }
    }
    assert day.places[..|day.places|] == day.places;
    if day.lodging.Some? && day.lodging.value.latlng.Some? {
      coords := coords + [day.lodging.value.latlng.value];
    }
  }

  /** `getAllRouteCoords`: one coordinate list per day. */
  method AllRouteCoords(plan: seq<PlanDay>) returns (coords: seq<seq<Location>>)
    ensures |coords| == |plan|
    ensures forall i :: 0 <= i < |plan| ==> coords[i] == DayCoords(plan[i], i)
  {
    coords := [];
    for idx := 0 to |plan|
      invariant |coords| == idx
      invariant forall i :: 0 <= i < idx ==> coords[i] == DayCoords(plan[i], i)
    {
      var dayCoords := RouteCoordsOfDay(plan[idx], idx);
      coords := coords + [dayCoords];
    }
  }

  /** Places that all have coordinates contribute exactly their coordinates, in order. */
  lemma {:induction false} PlacesCoordsAllPresent(places: seq<PlanPlace>)
    requires forall k :: 0 <= k < |places| ==> places[k].latlng.Some?
    ensures |PlacesCoords(places)| == |places|
    ensures forall k :: 0 <= k < |places| ==> PlacesCoords(places)[k] == places[k].latlng.value
  {
    if places != [] {
      var n := |places| - 1;
      PlacesCoordsAllPresent(places[..n]);
    }
  }

  /**
   * A built day's polyline holds one point per route place and, when the day has a
   * lodging, the lodging at the end and (after the first day) also at the start.
   */
  lemma DayCoordsOfPlanDays(plan: SavedPlan, i: nat)
    requires plan.routes.Some? && i < |plan.routes.value|
    ensures i < |BuildPlanDays(Some(plan))|
    ensures var day := BuildPlanDays(Some(plan))[i];
      var lodged := if day.lodging.Some? then 1 else 0;
      && |DayCoords(day, i)| == |plan.routes.value[i].places| + (if i > 0 then 2 * lodged else lodged)
      && (day.lodging.Some? ==> DayCoords(day, i)[|DayCoords(day, i)| - 1] == day.lodging.value.latlng.value)
  {
    var day := BuildPlanDays(Some(plan))[i];
    PlanDaysKeepEveryName(plan, i);
    PlacesCoordsAllPresent(day.places);
  }

  // ---------------------------------------------------------------------------
  // Day selection
  // ---------------------------------------------------------------------------

  /** `handleDayTitlePress(index)`: selecting the selected day clears the selection. */
  function ToggleDay(selected: Option<nat>, index: nat): (r: Option<nat>)
    ensures r == Some(index) <==> selected != Some(index)
    ensures r.None? <==> selected == Some(index)
  {
    if selected == Some(index) then None else Some(index)
  }

  /** Pressing the same day title twice restores the selection exactly when it was empty or that day. */
  lemma ToggleDayTwice(selected: Option<nat>, index: nat)
    ensures ToggleDay(ToggleDay(selected, index), index) == selected <==> selected.None? || selected == Some(index)
  {
  }

  /** `getFilteredRouteCoords` / `getFilteredMarkers`: everything, or just the selected day. */
  function FilterBySelection<T>(all: seq<T>, selected: Option<nat>): (r: seq<T>)
    requires selected.Some? ==> selected.value < |all|
    ensures selected.None? ==> r == all
    ensures selected.Some? ==> |r| == 1 && r[0] == all[selected.value]
  {
    if selected.None? then all else [all[selected.value]]
  }

  /** The filtered polylines and the filtered markers always describe the same days. */
  lemma FilteredCoordsMatchMarkers(days: seq<PlanDay>, coords: seq<seq<Location>>, selected: Option<nat>)
    requires |coords| == |days|
    requires forall i :: 0 <= i < |days| ==> coords[i] == DayCoords(days[i], i)
    requires selected.Some? ==> selected.value < |days|
    ensures |FilterBySelection(coords, selected)| == |FilterBySelection(days, selected)|
    ensures selected.None? ==> forall i :: 0 <= i < |days| ==>
      FilterBySelection(coords, selected)[i] == DayCoords(FilterBySelection(days, selected)[i], i)
    ensures selected.Some? ==>
      FilterBySelection(coords, selected)[0] == DayCoords(FilterBySelection(days, selected)[0], selected.value)
  {
  }
}
