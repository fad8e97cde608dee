/**
 * The trip draft store (`useTripStore`): one long-lived record holding the trip
 * being planned, and the actions the screens call to change it. Each action
 * replaces only its own field(s).
 *
 * Dates are millisecond timestamps (`Date | null` becomes `Option<int>`).
 */
module TripStore {
  import opened Common
  import opened Lists
  import AutoSchedule

  /** A landmark chosen for the trip, identified by its Google `place_id`. */
  datatype Place = Place(name: string, address: string, rating: real, location: Location,
                         placeId: string, photo: Option<string>)

  /** A hotel; the last three properties are optional. */
  datatype Hotel = Hotel(name: string, image: string, desc: string, rating: real,
                         address: Option<string>, location: Option<Location>, placeId: Option<string>)

  datatype Flight = Flight(departure: string, arrival: string, date: Option<int>)

  /** The `selectedRoute` record: where the trip starts and ends, and how one travels. */
  datatype TransportRoute = TransportRoute(start: string, end: string, transportation: string)

  /** The single record the lodging screen writes (see `LodgingScreen.SaveLodgingToStore`). */
  datatype LodgingRecord = LodgingRecord(name: string, address: string, checkIn: Option<int>, checkOut: Option<int>)

  /**
   * The value held in `selectedLodging`: the declared day-to-hotel map, or the
   * single record that the lodging screen actually stores there.
   */
  datatype Lodging = ByDay(hotels: map<int, Hotel>) | Single(record: LodgingRecord)

  /** `selectedLodging[day]`: a single record has no numeric keys, so it has no hotel for any day. */
  function HotelForDay(lodging: Lodging, day: int): (h: Option<Hotel>)
    ensures h.Some? <==> lodging.ByDay? && day in lodging.hotels
    ensures h.Some? ==> h.value == lodging.hotels[day]
  {
    match lodging
    case ByDay(hotels) => if day in hotels then Some(hotels[day]) else None
    case Single(_) => None
  }

  /** The store's data fields. */
  datatype TripState = TripState(
    tripName: string,
    startDate: Option<int>,
    endDate: Option<int>,
    selectedCity: Option<string>,
    selectedLandmarks: seq<Place>,
    selectedPeople: seq<string>,
    selectedKeywords: seq<string>,
    selectedFlight: Option<Flight>,
    selectedRoute: Option<TransportRoute>,
    selectedLodging: Lodging,
    routes: seq<AutoSchedule.RouteDay>)

  /** The keywords a new trip starts with. */
  const INITIAL_KEYWORDS: seq<string> := ["도심", "쇼핑"]

  /** The state a fresh store starts in. */
  function Initial(): TripState
  {
    TripState("", None, None, None, [], [], INITIAL_KEYWORDS, None, None, ByDay(map[]), [])
  }

  /** The state `clearTrip` leaves behind. */
  function Cleared(): TripState
  {
    TripState("", None, None, None, [], [], [], None, None, ByDay(map[]), [])
  }

  /** Clearing the trip resets everything to the initial state except the keywords, which become empty. */
  lemma ClearedIsInitialWithoutKeywords()
    ensures Cleared() == Initial().(selectedKeywords := [])
    ensures Cleared() != Initial()
    ensures Initial().selectedKeywords == ["도심", "쇼핑"]
  {
  }

  // ---------------------------------------------------------------------------
  // Landmarks, keyed by place id
  // ---------------------------------------------------------------------------

  /** The place ids of a landmark list, in list order. */
  function PlaceIds(landmarks: seq<Place>): (ids: seq<string>)
    ensures |ids| == |landmarks|
    ensures forall i :: 0 <= i < |landmarks| ==> ids[i] == landmarks[i].placeId
  {
    if landmarks == [] then [] else [landmarks[0].placeId] + PlaceIds(landmarks[1..])
  }

  /** `landmarks.some(p => p.place_id === id)` */
  predicate HasPlaceId(landmarks: seq<Place>, id: string): (b: bool)
    ensures b <==> id in PlaceIds(landmarks)
  {
    exists i :: 0 <= i < |landmarks| && landmarks[i].placeId == id
  }

  /** No two landmarks share a place id. */
  ghost predicate UniquePlaceIds(landmarks: seq<Place>)
  {
    NoDuplicates(PlaceIds(landmarks))
  }

  /** The `addLandmark` update: append `place` unless a landmark with its place id is already there. */
  function WithLandmark(landmarks: seq<Place>, place: Place): (r: seq<Place>)
    ensures HasPlaceId(r, place.placeId)
    ensures |r| == if HasPlaceId(landmarks, place.placeId) then |landmarks| else |landmarks| + 1
    ensures r[..|landmarks|] == landmarks
    ensures |r| > |landmarks| ==> r[|landmarks|] == place
  {
    if HasPlaceId(landmarks, place.placeId) then landmarks
    else
      assert (landmarks + [place])[|landmarks|].placeId == place.placeId;
      landmarks + [place]
  }

  /** The `removeLandmark` update: drop every landmark with place id `id`, keeping the rest in order. */
  function WithoutLandmark(landmarks: seq<Place>, id: string): (r: seq<Place>)
    ensures !HasPlaceId(r, id)
    ensures forall p: Place :: p.placeId != id ==> multiset(r)[p] == multiset(landmarks)[p]
    ensures forall p: Place :: p.placeId == id ==> multiset(r)[p] == 0
    ensures !HasPlaceId(landmarks, id) ==> r == landmarks
  {
    Filter(landmarks, (p: Place) => p.placeId != id)
  }

  /**
   * The kept landmarks stay in order: removing from a concatenation removes from
   * each part, and a single landmark is kept iff its place id differs.
   */
  lemma WithoutLandmarkInOrder(a: seq<Place>, b: seq<Place>, id: string, p: Place)
    ensures WithoutLandmark(a + b, id) == WithoutLandmark(a, id) + WithoutLandmark(b, id)
    ensures WithoutLandmark([p], id) == if p.placeId == id then [] else [p]
  {
    FilterConcat(a, b, (q: Place) => q.placeId != id);
    assert [p][1..] == [];
  }

  /** In terms of place ids, `addLandmark` is "append unless present". */
  lemma {:induction false} PlaceIdsWithLandmark(landmarks: seq<Place>, place: Place)
    ensures HasPlaceId(landmarks, place.placeId) <==> place.placeId in PlaceIds(landmarks)
    ensures PlaceIds(WithLandmark(landmarks, place)) == AddIfAbsent(PlaceIds(landmarks), place.placeId)
  {
    var ids := PlaceIds(landmarks);
    if place.placeId in ids {
      var i :| 0 <= i < |ids| && ids[i] == place.placeId;
      assert landmarks[i].placeId == place.placeId;
    }
    if !HasPlaceId(landmarks, place.placeId) {
      PlaceIdsConcat(landmarks, [place]);
    }
  }

  lemma {:induction false} PlaceIdsConcat(a: seq<Place>, b: seq<Place>)
    ensures PlaceIds(a + b) == PlaceIds(a) + PlaceIds(b)
  {
    if a != [] {
      assert (a + b)[1..] == a[1..] + b;
      PlaceIdsConcat(a[1..], b);
    } else {
      assert a + b == b;
    }
  }

  /** In terms of place ids, `removeLandmark` is "remove every occurrence". */
  lemma {:induction false} PlaceIdsWithoutLandmark(landmarks: seq<Place>, id: string)
    ensures PlaceIds(WithoutLandmark(landmarks, id)) == RemoveAll(PlaceIds(landmarks), id)
  {
    var keepPlace := (p: Place) => p.placeId != id;
    var keepId := (y: string) => y != id;
    if landmarks != [] {
      var head, tail := landmarks[0], landmarks[1..];
      assert landmarks == [head] + tail;
      FilterConcat([head], tail, keepPlace);
      FilterConcat([head.placeId], PlaceIds(tail), keepId);
      PlaceIdsWithoutLandmark(tail, id);
      assert PlaceIds(landmarks) == [head.placeId] + PlaceIds(tail);
      if head.placeId != id {
        PlaceIdsConcat([head], Filter(tail, keepPlace));
      }
    }
  }

  /** `addLandmark` keeps place ids unique and is idempotent. */
  lemma WithLandmarkUnique(landmarks: seq<Place>, place: Place)
    ensures UniquePlaceIds(landmarks) ==> UniquePlaceIds(WithLandmark(landmarks, place))
    ensures WithLandmark(WithLandmark(landmarks, place), place) == WithLandmark(landmarks, place)
  {
    PlaceIdsWithLandmark(landmarks, place);
  }

  /** `removeLandmark` keeps place ids unique and is idempotent. */
  lemma WithoutLandmarkUnique(landmarks: seq<Place>, id: string)
    ensures UniquePlaceIds(landmarks) ==> UniquePlaceIds(WithoutLandmark(landmarks, id))
    ensures WithoutLandmark(WithoutLandmark(landmarks, id), id) == WithoutLandmark(landmarks, id)
  {
    PlaceIdsWithoutLandmark(landmarks, id);
  }

  /** Adding a landmark and then removing its place id leaves the list without that id, the rest unchanged. */
  lemma RemoveUndoesAdd(landmarks: seq<Place>, place: Place)
    ensures WithoutLandmark(WithLandmark(landmarks, place), place.placeId)
         == WithoutLandmark(landmarks, place.placeId)
  {
    if !HasPlaceId(landmarks, place.placeId) {
      FilterConcat(landmarks, [place], (p: Place) => p.placeId != place.placeId);
    }
  }

  // ---------------------------------------------------------------------------
  // The store
  // ---------------------------------------------------------------------------

  class Store {
    var tripName: string
    var startDate: Option<int>
    var endDate: Option<int>
    var selectedCity: Option<string>
    var selectedLandmarks: seq<Place>
    var selectedPeople: seq<string>
    var selectedKeywords: seq<string>
    var selectedFlight: Option<Flight>
    var selectedRoute: Option<TransportRoute>
    var selectedLodging: Lodging
    var routes: seq<AutoSchedule.RouteDay>

    /** The store's fields as one value. */
    function State(): TripState
      reads this
    {
      TripState(tripName, startDate, endDate, selectedCity, selectedLandmarks, selectedPeople,
                selectedKeywords, selectedFlight, selectedRoute, selectedLodging, routes)
    }

    constructor()
      ensures State() == Initial()
    {
      tripName, startDate, endDate, selectedCity := "", None, None, None;
      selectedLandmarks, selectedPeople, selectedKeywords := [], [], INITIAL_KEYWORDS;
      selectedFlight, selectedRoute, selectedLodging, routes := None, None, ByDay(map[]), [];
    }

    method SetTripName(name: string)
      modifies this
      ensures State() == old(State()).(tripName := name)
    {
      tripName := name;
    }

    method SetDates(start: Option<int>, end: Option<int>)
      modifies this
      ensures State() == old(State()).(startDate := start, endDate := end)
    {
      startDate, endDate := start, end;
    }

    method SetSelectedCity(city: Option<string>)
      modifies this
      ensures State() == old(State()).(selectedCity := city)
    {
      selectedCity := city;
    }

    method AddLandmark(place: Place)
      modifies this
      ensures State() == old(State()).(selectedLandmarks := WithLandmark(old(selectedLandmarks), place))
      ensures UniquePlaceIds(old(selectedLandmarks)) ==> UniquePlaceIds(selectedLandmarks)
    {
      WithLandmarkUnique(selectedLandmarks, place);
      selectedLandmarks := if HasPlaceId(selectedLandmarks, place.placeId) then selectedLandmarks
                           else selectedLandmarks + [place];
    }

    method RemoveLandmark(placeId: string)
      modifies this
      ensures State() == old(State()).(selectedLandmarks := WithoutLandmark(old(selectedLandmarks), placeId))
      ensures UniquePlaceIds(old(selectedLandmarks)) ==> UniquePlaceIds(selectedLandmarks)
    {
      WithoutLandmarkUnique(selectedLandmarks, placeId);
      selectedLandmarks := Filter(selectedLandmarks, (p: Place) => p.placeId != placeId);
    }

    method SetSelectedPeople(people: seq<string>)
      modifies this
      ensures State() == old(State()).(selectedPeople := people)
    {
      selectedPeople := people;
    }

    method SetSelectedFlight(flight: Option<Flight>)
      modifies this
      ensures State() == old(State()).(selectedFlight := flight)
    {
      selectedFlight := flight;
    }

    method SetSelectedRoute(route: Option<TransportRoute>)
      modifies this
      ensures State() == old(State()).(selectedRoute := route)
    {
      selectedRoute := route;
    }

    /** Replaces the whole lodging value; there is no per-day setter. */
    method SetSelectedLodging(lodging: Lodging)
      modifies this
      ensures State() == old(State()).(selectedLodging := lodging)
    {
      selectedLodging := lodging;
    }

    method AddKeyword(keyword: string)
      modifies this
      ensures State() == old(State()).(selectedKeywords := AddIfAbsent(old(selectedKeywords), keyword))
    {
      selectedKeywords := if keyword in selectedKeywords then selectedKeywords else selectedKeywords + [keyword];
    }

    method RemoveKeyword(keyword: string)
      modifies this
      ensures State() == old(State()).(selectedKeywords := RemoveAll(old(selectedKeywords), keyword))
    {
      selectedKeywords := RemoveAll(selectedKeywords, keyword);
    }

    method ClearKeywords()
      modifies this
      ensures State() == old(State()).(selectedKeywords := [])
    {
      selectedKeywords := [];
    }

    method ClearTrip()
      modifies this
      ensures State() == Cleared()
    {
      tripName, startDate, endDate, selectedCity := "", None, None, None;
      selectedLandmarks, selectedPeople, selectedKeywords := [], [], [];
      selectedFlight, selectedRoute, selectedLodging, routes := None, None, ByDay(map[]), [];
    }

    method SetRoutes(newRoutes: seq<AutoSchedule.RouteDay>)
      modifies this
      ensures State() == old(State()).(routes := newRoutes)
    {
      routes := newRoutes;
    }
  }
}
