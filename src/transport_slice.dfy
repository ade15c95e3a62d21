/**
 * The transport slice of the store (`store/slices/transportSlice.ts`): the
 * fetched catalogue lists, the search results, the selected route, a loading
 * flag and an error message. Each asynchronous request moves through pending
 * and then fulfilled or rejected; only the effect of each of those on the
 * state is modelled, as a method of a store object.
 */
module TransportSlice {
  import opened Wrappers
  import opened Seqs
  import opened TransportApi

  /** The six asynchronous requests of the slice. */
  datatype Request = FetchBuses | FetchTrains | FetchDestinations | FetchAllRoutes | SearchRoutes | FetchRouteById

  /** A snapshot of `TransportState`. */
  datatype TransportState = TransportState(
    buses: seq<Route>,
    trains: seq<Route>,
    destinations: seq<Route>,
    allRoutes: seq<Route>,
    searchResults: seq<Route>,
    selectedRoute: Option<Route>,
    isLoading: bool,
    error: Option<string>)

  /** `initialState`. */
  const InitialState := TransportState([], [], [], [], [], None, false, None)

  /** How a request settled: fulfilled with a payload, or rejected with a message. */
  datatype Outcome<T> = Fulfilled(value: T) | Rejected(message: string)

  /** The message each request falls back to when the caught error has none. */
  function DefaultMessage(request: Request): string
  {
    match request
    case FetchBuses => "Failed to fetch buses"
    case FetchTrains => "Failed to fetch trains"
    case FetchDestinations => "Failed to fetch destinations"
    case FetchAllRoutes => "Failed to fetch routes"
    case SearchRoutes => "Search failed"
    case FetchRouteById => "Failed to fetch route"
  }

  /** `rejectWithValue(error.message || default)`: a rejection never carries an empty message. */
  function RejectionMessage(request: Request, thrown: string): (m: string)
    ensures m != ""
    ensures thrown != "" ==> m == thrown
    ensures thrown == "" ==> m == DefaultMessage(request)
  {
    if thrown != "" then thrown else DefaultMessage(request)
  }

  /** The `fetchRouteById` thunk once the lookup has resolved: a missing route is a rejection. */
  function RouteByIdOutcome(found: Option<Route>): (o: Outcome<Route>)
    ensures o.Rejected? <==> found.None?
    ensures o.Rejected? ==> o.message == "Route not found"
    ensures o.Fulfilled? ==> found == Some(o.value)
  {
    match found
    case None => Rejected("Route not found")
    case Some(route) => Fulfilled(route)
  }

  /** `fetchRouteById(id)` against the catalogue. */
  function FetchRouteByIdOutcome(id: string): Outcome<Route>
  {
    RouteByIdOutcome(GetRouteById(id))
  }

  /** Fetching the id of any catalogue entry fulfils with that entry; an unknown id is "Route not found". */
  lemma FetchRouteByIdCases(id: string)
    ensures forall r :: r in AllRoutes() && r.id == id ==> FetchRouteByIdOutcome(id) == Fulfilled(r)
    ensures (forall r :: r in AllRoutes() ==> r.id != id) ==> FetchRouteByIdOutcome(id) == Rejected("Route not found")
  {
    forall r | r in AllRoutes() && r.id == id
      ensures FetchRouteByIdOutcome(id) == Fulfilled(r)
    {
      GetRouteByIdFindsEveryEntry(r);
    }
  }

  function OfKind(kind: RouteType): Route -> bool
  {
    (r: Route) => r.kind == kind
  }

  /** Every route has exactly one type, so the three type filters split a payload without loss. */
  lemma {:induction false} PartitionByType(payload: seq<Route>)
    ensures |Filter(payload, OfKind(Bus))| + |Filter(payload, OfKind(Train))|
            + |Filter(payload, OfKind(Destination))| == |payload|
    decreases |payload|
  {
    if payload != [] {
      PartitionByType(payload[1..]);
    }
  }

  /** Filtering three concatenated lists filters each of them. */
  lemma FilterConcat3(a: seq<Route>, b: seq<Route>, c: seq<Route>, p: Route -> bool)
    ensures Filter(a + b + c, p) == Filter(a, p) + Filter(b, p) + Filter(c, p)
  {
    FilterConcat(a + b, c, p);
    FilterConcat(a, b, p);
  }

  /** Three lists each holding a single type are given back by the three type filters of their concatenation. */
  lemma PartitionOfTypedLists(b: seq<Route>, t: seq<Route>, d: seq<Route>)
    requires forall r :: r in b ==> r.kind == Bus
    requires forall r :: r in t ==> r.kind == Train
    requires forall r :: r in d ==> r.kind == Destination
    ensures Filter(b + t + d, OfKind(Bus)) == b
    ensures Filter(b + t + d, OfKind(Train)) == t
    ensures Filter(b + t + d, OfKind(Destination)) == d
  {
    FilterConcat3(b, t, d, OfKind(Bus));
    FilterConcat3(b, t, d, OfKind(Train));
    FilterConcat3(b, t, d, OfKind(Destination));
    FilterKeepsAll(b, OfKind(Bus));
    FilterDropsAll(t, OfKind(Bus));
    FilterDropsAll(d, OfKind(Bus));
    FilterDropsAll(b, OfKind(Train));
    FilterKeepsAll(t, OfKind(Train));
    FilterDropsAll(d, OfKind(Train));
    FilterDropsAll(b, OfKind(Destination));
    FilterDropsAll(t, OfKind(Destination));
    FilterKeepsAll(d, OfKind(Destination));
  }

  /** Partitioning the whole catalogue by type gives back its three lists. */
  lemma CataloguePartition()
    ensures Filter(AllRoutes(), OfKind(Bus)) == Buses
    ensures Filter(AllRoutes(), OfKind(Train)) == Trains
    ensures Filter(AllRoutes(), OfKind(Destination)) == Destinations
  {
    BusesWellFormed();
    TrainsWellFormed();
    DestinationsWellFormed();
    PartitionOfTypedLists(Buses, Trains, Destinations);
  }

  class TransportStore {
    var buses: seq<Route>
    var trains: seq<Route>
    var destinations: seq<Route>
    var allRoutes: seq<Route>
    var searchResults: seq<Route>
    var selectedRoute: Option<Route>
    var isLoading: bool
    var error: Option<string>

    function State(): TransportState
      reads this
    {
      TransportState(buses, trains, destinations, allRoutes, searchResults, selectedRoute, isLoading, error)
    }

    constructor ()
      ensures State() == InitialState
    {
      buses, trains, destinations, allRoutes, searchResults := [], [], [], [], [];
      selectedRoute := None;
      isLoading := false;
      error := None;
    }

    method ClearSearchResults()
      modifies this
      ensures State() == old(State()).(searchResults := [])
    {
      searchResults := [];
    }

    method SetSelectedRoute(route: Option<Route>)
      modifies this
      ensures State() == old(State()).(selectedRoute := route)
    {
      selectedRoute := route;
    }

    method ClearSelectedRoute()
      modifies this
      ensures State() == old(State()).(selectedRoute := None)
    {
      selectedRoute := None;
    }

    /** The pending case of every request. */
    method Pending(request: Request)
      modifies this
      ensures State() == old(State()).(isLoading := true, error := None)
    {
      isLoading := true;
      error := None;
    }

    /** The rejected case of every request: the data fields are left as they were. */
    method Rejected(request: Request, message: string)
      modifies this
      ensures State() == old(State()).(isLoading := false, error := Some(message))
    {
      isLoading := false;
      error := Some(message);
    }

    method BusesFulfilled(payload: seq<Route>)
      modifies this
      ensures State() == old(State()).(isLoading := false, buses := payload)
    {
      isLoading := false;
      buses := payload;
    }

    method TrainsFulfilled(payload: seq<Route>)
      modifies this
      ensures State() == old(State()).(isLoading := false, trains := payload)
    {
      isLoading := false;
      trains := payload;
    }

    method DestinationsFulfilled(payload: seq<Route>)
      modifies this
      ensures State() == old(State()).(isLoading := false, destinations := payload)
    {
      isLoading := false;
      destinations := payload;
    }

    /** `fetchAllRoutes.fulfilled`: the payload, and its order-preserving split by type. */
    method AllRoutesFulfilled(payload: seq<Route>)
      modifies this
      ensures State() == old(State()).(isLoading := false, allRoutes := payload,
        buses := Filter(payload, OfKind(Bus)), trains := Filter(payload, OfKind(Train)),
        destinations := Filter(payload, OfKind(Destination)))
      ensures |buses| + |trains| + |destinations| == |allRoutes|
    {
      isLoading := false;
      allRoutes := payload;
      buses := Filter(payload, OfKind(Bus));
      trains := Filter(payload, OfKind(Train));
      destinations := Filter(payload, OfKind(Destination));
      PartitionByType(payload);
    }

    method SearchFulfilled(payload: seq<Route>)
      modifies this
      ensures State() == old(State()).(isLoading := false, searchResults := payload)
    {
      isLoading := false;
      searchResults := payload;
    }

    method RouteByIdFulfilled(route: Route)
      modifies this
      ensures State() == old(State()).(isLoading := false, selectedRoute := Some(route))
    {
      isLoading := false;
      selectedRoute := Some(route);
    }

    /** `fetchRouteById(id)` from dispatch to settlement, against the catalogue. */
    method FetchRouteById(id: string)
      modifies this
      ensures FetchRouteByIdOutcome(id).Fulfilled? ==>
        State() == old(State()).(isLoading := false, error := None,
          selectedRoute := Some(FetchRouteByIdOutcome(id).value))
      ensures FetchRouteByIdOutcome(id).Rejected? ==>
        State() == old(State()).(isLoading := false, error := Some("Route not found"))
    {
      Pending(Request.FetchRouteById);
      match FetchRouteByIdOutcome(id)
      case Fulfilled(route) => RouteByIdFulfilled(route);
      case Rejected(message) => Rejected(Request.FetchRouteById, message);
    }

    /** `fetchAllRoutes()` from dispatch to settlement: the three lists come back as the catalogue holds them. */
    method FetchAllRoutes()
      modifies this
      ensures allRoutes == AllRoutes()
      ensures buses == Buses && trains == Trains && destinations == Destinations
      ensures !isLoading && error == None
      ensures searchResults == old(searchResults) && selectedRoute == old(selectedRoute)
    {
      Pending(Request.FetchAllRoutes);
      AllRoutesFulfilled(AllRoutes());
      CataloguePartition();
    }
  }
}
