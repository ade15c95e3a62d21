/**
 * The transport catalogue of `services/api.ts`: the route record, the three
 * fixed lists of buses, trains and destinations, lookup by id and the
 * two-stage search (a named filter, then a case-insensitive text query).
 * The simulated network delay of every call is not modelled: each call is its
 * resolved value.
 */
module TransportApi {
  import opened Wrappers
  import opened Text
  import opened Seqs

  datatype RouteType = Bus | Train | Destination

  datatype Status = Active | Popular | Upcoming

  /** A catalogue entry (`TransportRoute`); the optional fields are `Option`s. */
  datatype Route = Route(
    id: string,
    title: string,
    description: string,
    kind: RouteType,
    status: Status,
    image: string,
    duration: Option<string>,
    origin: Option<string>,
    destination: Option<string>,
    price: Option<string>,
    schedule: Option<seq<string>>,
    rating: Option<real>,
    reviews: Option<int>)

  const Buses: seq<Route> := [
    Route("bus-1", "Route 138 - Colombo \U{2192} Kandy", "Express highway service via E01", Bus, Active,
          "https://images.unsplash.com/photo-1544620347-c4fd4a3d5957?w=400&h=300&fit=crop",
          Some("2h 30min"), Some("Colombo Central"), Some("Kandy Bus Stand"), Some("LKR 450"),
          Some(["06:00", "08:00", "10:00", "12:00", "14:00", "16:00", "18:00"]),
          Some(4.5), Some(234)),
    Route("bus-2", "Route 2 - Colombo \U{2192} Galle", "Coastal route via Southern Expressway", Bus, Popular,
          "https://images.unsplash.com/photo-1570125909232-eb263c188f7e?w=400&h=300&fit=crop",
          Some("1h 45min"), Some("Fort Railway Station"), Some("Galle Bus Stand"), Some("LKR 380"),
          Some(["05:30", "07:00", "09:00", "11:00", "13:00", "15:00", "17:00", "19:00"]),
          Some(4.7), Some(456)),
    Route("bus-3", "Route 48 - Colombo \U{2192} Negombo", "Airport express service", Bus, Active,
          "https://images.unsplash.com/photo-1558618666-fcd25c85cd64?w=400&h=300&fit=crop",
          Some("45min"), Some("Pettah"), Some("Negombo Town"), Some("LKR 120"),
          Some(["05:00", "06:00", "07:00", "08:00", "09:00", "10:00"]),
          Some(4.2), Some(189)),
    Route("bus-4", "Route 99 - Colombo \U{2192} Matara", "Long-distance coastal journey", Bus, Upcoming,
          "https://images.unsplash.com/photo-1464219789935-c2d9d9aba644?w=400",
          Some("3h 30min"), Some("Colombo Fort"), Some("Matara"), Some("LKR 550"),
          Some(["06:30", "10:30", "14:30", "18:30"]),
          Some(4.0), Some(78)),
    Route("bus-5", "Route 57 - Colombo \U{2192} Jaffna", "Northern express via A9 highway", Bus, Popular,
          "https://images.unsplash.com/photo-1494515843206-f3117d3f51b7?w=400",
          Some("6h 00min"), Some("Colombo Central"), Some("Jaffna"), Some("LKR 1200"),
          Some(["06:00", "10:00", "14:00", "22:00"]),
          Some(4.3), Some(312))
  ]

  const Trains: seq<Route> := [
    Route("train-1", "Colombo \U{2192} Kandy Express", "Scenic mountain railway journey", Train, Popular,
          "https://images.unsplash.com/photo-1474487548417-781cb71495f3?w=400&h=300&fit=crop",
          Some("2h 45min"), Some("Colombo Fort"), Some("Kandy Station"), Some("LKR 280 - 1500"),
          Some(["05:55", "07:00", "10:35", "15:35"]),
          Some(4.8), Some(892)),
    Route("train-2", "Kandy \U{2192} Ella Scenic", "World-famous tea country route", Train, Popular,
          "https://images.unsplash.com/photo-1596422846543-75c6fc197f07?w=400&h=300&fit=crop",
          Some("6h 30min"), Some("Kandy"), Some("Ella"), Some("LKR 400 - 2000"),
          Some(["08:47", "11:10"]),
          Some(4.9), Some(1256)),
    Route("train-3", "Colombo \U{2192} Galle Coast Line", "Oceanside railway experience", Train, Active,
          "https://images.unsplash.com/photo-1532105956626-9569c03602f6?w=400",
          Some("2h 30min"), Some("Colombo Fort"), Some("Galle"), Some("LKR 180 - 900"),
          Some(["06:55", "08:30", "12:40", "15:30", "17:45"]),
          Some(4.6), Some(567)),
    Route("train-4", "Colombo \U{2192} Trincomalee", "Eastern coastal route", Train, Active,
          "https://images.unsplash.com/photo-1555952238-b19b7cead9db?w=400",
          Some("7h 00min"), Some("Colombo Fort"), Some("Trincomalee"), Some("LKR 450 - 1800"),
          Some(["06:05", "21:00"]),
          Some(4.4), Some(234)),
    Route("train-5", "Colombo \U{2192} Jaffna Express", "Northern line intercity", Train, Upcoming,
          "https://images.unsplash.com/photo-1544620347-c4fd4a3d5957?w=400",
          Some("5h 30min"), Some("Colombo Fort"), Some("Jaffna"), Some("LKR 500 - 2200"),
          Some(["05:45", "18:00"]),
          Some(4.5), Some(189))
  ]

  const Destinations: seq<Route> := [
    Route("dest-1", "Sigiriya Lion Rock", "UNESCO World Heritage ancient rock fortress", Destination, Popular,
          "https://images.unsplash.com/photo-1588598198321-e706c30b37cb?w=400&h=300&fit=crop",
          None, None, None, None,
          None,
          Some(4.9), Some(2341)),
    Route("dest-2", "Galle Fort", "Historic Dutch colonial fortification", Destination, Popular,
          "https://images.unsplash.com/photo-1586016413664-864c0dd76f53?w=400&h=300&fit=crop",
          None, None, None, None,
          None,
          Some(4.7), Some(1876)),
    Route("dest-3", "Temple of the Tooth", "Sacred Buddhist temple in Kandy", Destination, Popular,
          "https://images.unsplash.com/photo-1578662996442-48f60103fc96?w=400",
          None, None, None, None,
          None,
          Some(4.8), Some(2156)),
    Route("dest-4", "Ella Nine Arch Bridge", "Iconic colonial-era railway bridge", Destination, Active,
          "https://images.unsplash.com/photo-1580892727672-29bda0a8321a?w=400",
          None, None, None, None,
          None,
          Some(4.6), Some(1543)),
    Route("dest-5", "Mirissa Beach", "Whale watching and pristine beaches", Destination, Active,
          "https://images.unsplash.com/photo-1507525428034-b723cf961d3e?w=400",
          None, None, None, None,
          None,
          Some(4.5), Some(987)),
    Route("dest-6", "Yala National Park", "Wildlife safari and leopard spotting", Destination, Popular,
          "https://images.unsplash.com/photo-1516426122078-c23e76319801?w=400",
          None, None, None, None,
          None,
          Some(4.7), Some(1234)),
    Route("dest-7", "Adams Peak", "Sacred pilgrimage mountain", Destination, Upcoming,
          "https://images.unsplash.com/photo-1464822759023-fed622ff2c3b?w=400",
          None, None, None, None,
          None,
          Some(4.8), Some(876)),
    Route("dest-8", "Anuradhapura", "Ancient capital and sacred city", Destination, Active,
          "https://images.unsplash.com/photo-1552465011-b4e21bf6e79a?w=400",
          None, None, None, None,
          None,
          Some(4.6), Some(654))
  ]
  /** `getAllRoutes`: buses, then trains, then destinations. */
  function AllRoutes(): (r: seq<Route>)
    ensures |r| == |Buses| + |Trains| + |Destinations|
    ensures r[..|Buses|] == Buses && r[|Buses|..|Buses| + |Trains|] == Trains
    ensures r[|Buses| + |Trains|..] == Destinations
  {
    Buses + Trains + Destinations
  }

  /** The bus list holds only buses, with distinct ids all starting with `b`. */
  lemma BusesWellFormed()
    ensures forall r :: r in Buses ==> r.kind == Bus && r.id[0] == 'b'
    ensures DistinctIds(Buses)
  {
    BusIdsDistinct();
  }

  lemma BusIdsDistinct()
    ensures DistinctIds(Buses)
  {
  }

  /** The train list holds only trains, with distinct ids all starting with `t`. */
  lemma TrainsWellFormed()
    ensures forall r :: r in Trains ==> r.kind == Train && r.id[0] == 't'
    ensures DistinctIds(Trains)
  {
    TrainIdsDistinct();
  }

  lemma TrainIdsDistinct()
    ensures DistinctIds(Trains)
  {
  }

  /** The destination list holds only destinations, with distinct ids all starting with `d`. */
  lemma DestinationsWellFormed()
    ensures forall r :: r in Destinations ==> r.kind == Destination && r.id[0] == 'd'
    ensures DistinctIds(Destinations)
  {
    DestinationIdsDistinct();
  }

  lemma DestinationIdsDistinct()
    ensures DistinctIds(Destinations)
  {
  }

  predicate DistinctIds(routes: seq<Route>)
  {
    forall i, j :: 0 <= i < j < |routes| ==> routes[i].id != routes[j].id
  }

  /** Two lists with distinct ids and no id in common concatenate to a list with distinct ids. */
  lemma DistinctIdsConcat(a: seq<Route>, b: seq<Route>)
    requires DistinctIds(a) && DistinctIds(b)
    requires forall x, y :: x in a && y in b ==> x.id != y.id
    ensures DistinctIds(a + b)
  {
    forall i, j | 0 <= i < j < |a + b|
      ensures (a + b)[i].id != (a + b)[j].id
    {
      if j < |a| {
      } else if i < |a| {
        assert (a + b)[i] in a && (a + b)[j] in b;
      } else {
        assert (a + b)[i] == b[i - |a|] && (a + b)[j] == b[j - |a|];
      }
    }
  }

  /** No two catalogue entries share an id. */
  lemma CatalogueIdsDistinct()
    ensures DistinctIds(AllRoutes())
  {
    BusesWellFormed();
    TrainsWellFormed();
    DestinationsWellFormed();
    DistinctIdsConcat(Buses, Trains);
    DistinctIdsConcat(Buses + Trains, Destinations);
  }

  /** `routes[i]` is the first entry of `routes` whose id is `id`. */
  predicate FirstWithId(routes: seq<Route>, id: string, i: int)
  {
    0 <= i < |routes| && routes[i].id == id && forall j :: 0 <= j < i ==> routes[j].id != id
  }

  /** `Array.prototype.findIndex` by id: the position of the first entry with that id, if any. */
  function IndexOfId(routes: seq<Route>, id: string): (r: Option<nat>)
    ensures r.None? <==> forall i :: 0 <= i < |routes| ==> routes[i].id != id
    ensures r.Some? ==> FirstWithId(routes, id, r.value)
    decreases |routes|
  {
    if routes == [] then None
    else if routes[0].id == id then Some(0)
    else match IndexOfId(routes[1..], id)
      case None => None
      case Some(i) => Some(i + 1)
  }

  /** `Array.prototype.find` by id: the first entry with that id, if any. */
  function FindById(routes: seq<Route>, id: string): (r: Option<Route>)
    ensures r.None? <==> forall i :: 0 <= i < |routes| ==> routes[i].id != id
    ensures r.Some? ==> exists i :: FirstWithId(routes, id, i) && routes[i] == r.value
  {
    match IndexOfId(routes, id)
    case None => None
    case Some(i) => Some(routes[i])
  }

  /** `getRouteById`: the first catalogue entry with the given id, or `undefined`. */
  function GetRouteById(id: string): (r: Option<Route>)
    ensures r.None? <==> forall x :: x in AllRoutes() ==> x.id != id
    ensures r.Some? ==> r.value in AllRoutes() && r.value.id == id
  {
    FindById(AllRoutes(), id)
  }

  /** Looking up the id of a catalogue entry returns that entry. */
  lemma GetRouteByIdFindsEveryEntry(r: Route)
    requires r in AllRoutes()
    ensures GetRouteById(r.id) == Some(r)
  {
    CatalogueIdsDistinct();
    var routes := AllRoutes();
    var k :| 0 <= k < |routes| && routes[k] == r;
    var found := GetRouteById(r.id);
    assert found.Some?;
    var i :| FirstWithId(routes, r.id, i) && routes[i] == found.value;
    assert i == k;
  }

  /** An id that no catalogue entry has yields `undefined`. */
  lemma GetRouteByIdMissing(id: string)
    requires forall r :: r in AllRoutes() ==> r.id != id
    ensures GetRouteById(id) == None
  {
  }

  /** What JavaScript finds when it reads the property `key` of the object literal `filterMap`. */
  datatype Lookup = Own(types: seq<RouteType>) | Inherited | Missing

  /** The own properties of `filterMap`, as a lookup that never sees inherited names. */
  function OwnPropertyLookup(key: string): (l: Lookup)
    ensures !l.Inherited?
  {
    if key == "Buses" then Own([Bus])
    else if key == "Trains" then Own([Train])
    else if key == "Destinations" then Own([Destination])
    else if key == "Popular" then Own([Bus, Train, Destination])
    else if key == "Nearby" then Own([Bus, Train, Destination])
    else if key == "Timetables" then Own([Bus, Train])
    else Missing
  }

  /** The names every plain object inherits from `Object.prototype`. */
  const ObjectPrototypeNames: set<string> := {
    "constructor", "hasOwnProperty", "isPrototypeOf", "propertyIsEnumerable", "toLocaleString",
    "toString", "valueOf", "__proto__", "__defineGetter__", "__defineSetter__",
    "__lookupGetter__", "__lookupSetter__"}

  /**
   * `filterMap[key]` as JavaScript evaluates it: an own property, else a
   * property inherited from `Object.prototype` (a function or an object, both
   * truthy and neither with an `includes` method), else `undefined`.
   */
  function PropertyLookup(key: string): Lookup
  {
    if OwnPropertyLookup(key).Own? then OwnPropertyLookup(key)
    else if key in ObjectPrototypeNames then Inherited
    else Missing
  }

  /** The engine's message when `types.includes(...)` is called on a value without that method. */
  const IncludesTypeError := "types.includes is not a function"

  predicate IsPopular(r: Route)
  {
    r.status == Popular
  }

  predicate IsBusOrTrain(r: Route)
  {
    r.kind == Bus || r.kind == Train
  }

  function HasTypeIn(types: seq<RouteType>): Route -> bool
  {
    (r: Route) => r.kind in types
  }

  /** The filter is applied: `filter && filter !== 'All'` (an empty string is falsy). */
  predicate Applies(filter: Option<string>)
  {
    filter.Some? && filter.value != "" && filter.value != "All"
  }

  /**
   * The filter step of `searchRoutes`, with the lookup of the filter name in
   * `filterMap` as a parameter. It fails only when the lookup yields a value
   * that is not a list and there is at least one route to call it on.
   */
  function FilterStageWith(routes: seq<Route>, filter: Option<string>, lookup: string -> Lookup): Result<seq<Route>>
  {
    if !Applies(filter) then Success(routes)
    else if filter.value == "Popular" then Success(Filter(routes, IsPopular))
    else if filter.value == "Nearby" then Success(Take(routes, 4))
    else if filter.value == "Timetables" then Success(Filter(routes, IsBusOrTrain))
    else match lookup(filter.value)
      case Own(types) => Success(Filter(routes, HasTypeIn(types)))
      case Missing => Success(routes)
      case Inherited => if routes == [] then Success([]) else Failure(IncludesTypeError)
  }

  /** The filter step as written: `filterMap[filter]` also finds inherited names. */
  function FilterStageAsWritten(routes: seq<Route>, filter: Option<string>): (r: Result<seq<Route>>)
    ensures r.Failure? <==> Applies(filter) && filter.value in ObjectPrototypeNames && routes != []
    ensures r.Failure? ==> r.error == IncludesTypeError
  {
    FilterStageWith(routes, filter, PropertyLookup)
  }

  /**
   * The filter step as intended: a name that is not one of the six keys of
   * `filterMap` leaves the list as it is.
   */
  function FilterStage(routes: seq<Route>, filter: Option<string>): (r: seq<Route>)
    ensures IsSubsequence(r, routes)
    ensures !Applies(filter) ==> r == routes
    ensures filter == Some("Popular") ==> forall x :: x in r <==> x in routes && x.status == Popular
    ensures filter == Some("Nearby") ==> r == Take(routes, 4)
    ensures filter == Some("Timetables") ==> forall x :: x in r <==> x in routes && (x.kind == Bus || x.kind == Train)
    ensures filter == Some("Buses") ==> forall x :: x in r <==> x in routes && x.kind == Bus
    ensures filter == Some("Trains") ==> forall x :: x in r <==> x in routes && x.kind == Train
    ensures filter == Some("Destinations") ==> forall x :: x in r <==> x in routes && x.kind == Destination
    ensures Applies(filter) && OwnPropertyLookup(filter.value).Missing? ==> r == routes
  {
    var stage := FilterStageWith(routes, filter, OwnPropertyLookup);
    if filter == Some("Nearby") then TakeIsSubsequence(routes, 4); stage.value
    else if !Applies(filter) || OwnPropertyLookup(filter.value).Missing? then SubsequenceReflexive(routes); stage.value
    else stage.value
  }

  /** The as-written filter step differs from the intended one only by failing on inherited names. */
  lemma FilterStageAsWrittenAgrees(routes: seq<Route>, filter: Option<string>)
    ensures FilterStageAsWritten(routes, filter).Failure? <==>
      Applies(filter) && filter.value in ObjectPrototypeNames && routes != []
    ensures FilterStageAsWritten(routes, filter).Success? ==>
      FilterStageAsWritten(routes, filter).value == FilterStage(routes, filter)
  {
  }

  /** The filter name `"toString"` makes the written search throw, where the intended one keeps every route. */
  lemma InheritedFilterNameThrows()
    ensures FilterStageAsWritten(AllRoutes(), Some("toString")) == Failure(IncludesTypeError)
    ensures FilterStage(AllRoutes(), Some("toString")) == AllRoutes()
  {
  }

  /** Some field of `r` contains `lowerQuery` once lower-cased; a missing origin or destination never does. */
  predicate MatchesQuery(r: Route, lowerQuery: string)
  {
    Contains(Lower(r.title), lowerQuery)
    || Contains(Lower(r.description), lowerQuery)
    || (r.origin.Some? && Contains(Lower(r.origin.value), lowerQuery))
    || (r.destination.Some? && Contains(Lower(r.destination.value), lowerQuery))
  }

  function MatchingQuery(lowerQuery: string): Route -> bool
  {
    (r: Route) => MatchesQuery(r, lowerQuery)
  }

  /** The query step of `searchRoutes`: skipped for a blank query, which is lower-cased but not trimmed. */
  function QueryStage(routes: seq<Route>, query: string): (r: seq<Route>)
    ensures IsSubsequence(r, routes)
    ensures IsBlank(query) ==> r == routes
    ensures !IsBlank(query) ==> forall x :: x in r <==> x in routes && MatchesQuery(x, Lower(query))
  {
    TrimEmptyIffBlank(query);
    if Trim(query) == [] then SubsequenceReflexive(routes); routes
    else Filter(routes, MatchingQuery(Lower(query)))
  }

  /** `searchRoutes` over a given starting list: the filter step, then the query step. */
  function Search(routes: seq<Route>, query: string, filter: Option<string>): (r: seq<Route>)
    ensures IsSubsequence(r, routes)
    ensures forall x :: x in r <==> x in FilterStage(routes, filter) && (IsBlank(query) || MatchesQuery(x, Lower(query)))
  {
    var filtered := FilterStage(routes, filter);
    var r := QueryStage(filtered, query);
    SubsequenceTransitive(r, filtered, routes);
    r
  }

  /** `searchRoutes` as written, where an inherited filter name throws. */
  function SearchAsWritten(routes: seq<Route>, query: string, filter: Option<string>): Result<seq<Route>>
  {
    match FilterStageAsWritten(routes, filter)
    case Success(filtered) => Success(QueryStage(filtered, query))
    case Failure(e) => Failure(e)
  }

  /**
   * The written search fails exactly when the filter step does, with the same
   * error, and otherwise returns what the intended search returns.
   */
  lemma SearchAsWrittenAgrees(routes: seq<Route>, query: string, filter: Option<string>)
    ensures SearchAsWritten(routes, query, filter).Failure? <==>
      Applies(filter) && filter.value in ObjectPrototypeNames && routes != []
    ensures SearchAsWritten(routes, query, filter).Failure? ==>
      SearchAsWritten(routes, query, filter).error == IncludesTypeError
    ensures SearchAsWritten(routes, query, filter).Success? ==>
      SearchAsWritten(routes, query, filter).value == Search(routes, query, filter)
  {
    FilterStageAsWrittenAgrees(routes, filter);
  }

  /** Without filter and with a blank query, the search returns the whole catalogue in order. */
  lemma SearchAllBlank(query: string, filter: Option<string>)
    requires filter == None || filter == Some("All")
    requires IsBlank(query)
    ensures Search(AllRoutes(), query, filter) == AllRoutes()
  {
  }

  /** `Nearby` keeps the first four catalogue entries before any query is applied. */
  lemma NearbyIsFirstFour(query: string)
    ensures Search(AllRoutes(), query, Some("Nearby")) == QueryStage(AllRoutes()[..4], query)
  {
  }

  /**
   * `transportApi.searchRoutes`: start from the catalogue, narrow it by the
   * filter, then by the query, reassigning one list as the source does.
   */
  method SearchRoutes(query: string, filter: Option<string>) returns (routes: seq<Route>)
    ensures routes == Search(AllRoutes(), query, filter)
    ensures IsSubsequence(routes, AllRoutes())
    ensures !Applies(filter) && IsBlank(query) ==> routes == AllRoutes()
  {
    routes := Buses + Trains + Destinations;
    if Applies(filter) {
      if filter.value == "Popular" {
        routes := Filter(routes, IsPopular);
      } else if filter.value == "Nearby" {
        routes := Take(routes, 4);
      } else if filter.value == "Timetables" {
        routes := Filter(routes, IsBusOrTrain);
      } else {
        var types := OwnPropertyLookup(filter.value);
        if types.Own? {
          routes := Filter(routes, HasTypeIn(types.types));
        }
      }
    }
    TrimEmptyIffBlank(query);
    if Trim(query) != [] {
      var lowerQuery := Lower(query);
      routes := Filter(routes, MatchingQuery(lowerQuery));
    }
  }
}
