/**
 * The journey planner of `app/map.tsx`: the loose matching of place names,
 * the list of buses and trains that connect the chosen "from" and "to"
 * places in either direction, and the screen state its handlers update.
 * Map rendering, markers and the route line are not modelled.
 */
module JourneyPlanner {
  import opened Wrappers
  import opened Text
  import opened Seqs
  import opened TransportApi
  import FavouritesSlice
  import TransportSlice

  /** Generic words left out when place names are compared. */
  const Stoplist: seq<string> := ["station", "central", "terminal", "bus", "coach"]

  function Significant(): string -> bool
  {
    (w: string) => w !in Stoplist
  }

  /** The words of a place name that take part in matching: lower-cased, split on white space, stoplist words removed. */
  function Keywords(name: string): (r: seq<string>)
    ensures IsSubsequence(r, SplitOnWhitespace(Lower(name)))
    ensures forall w :: w in r <==> w in SplitOnWhitespace(Lower(name)) && w !in Stoplist
  {
    Filter(SplitOnWhitespace(Lower(name)), Significant())
  }

  /** Two keywords match when either contains the other, or they are equal. */
  predicate WordsMatch(rw: string, sw: string)
  {
    Contains(rw, sw) || Contains(sw, rw) || rw == sw
  }

  function MatchesWord(rw: string): string -> bool
  {
    (sw: string) => WordsMatch(rw, sw)
  }

  function MatchesAnyOf(selectedWords: seq<string>): string -> bool
  {
    (rw: string) => Any(selectedWords, MatchesWord(rw))
  }

  /** `locationMatches(routeLocation, selectedLocation)`. */
  predicate LocationMatches(routeLocation: string, selectedLocation: string)
    ensures LocationMatches(routeLocation, selectedLocation) ==>
      Keywords(routeLocation) != [] && Keywords(selectedLocation) != []
  {
    Any(Keywords(routeLocation), MatchesAnyOf(Keywords(selectedLocation)))
  }

  /** Equality of two words adds nothing to the match: equal words contain each other. */
  lemma WordsMatchIsContainment(rw: string, sw: string)
    ensures WordsMatch(rw, sw) <==> Contains(rw, sw) || Contains(sw, rw)
  {
    if rw == sw {
      assert StartsWith(rw, sw);
    }
  }

  /**
   * Two place names match exactly when some keyword of the first contains, or
   * is contained in, some keyword of the second.
   */
  lemma LocationMatchesIff(routeLocation: string, selectedLocation: string)
    ensures LocationMatches(routeLocation, selectedLocation) <==>
      exists rw, sw :: rw in Keywords(routeLocation) && sw in Keywords(selectedLocation)
        && (Contains(rw, sw) || Contains(sw, rw))
  {
    var ka, kb := Keywords(routeLocation), Keywords(selectedLocation);
    if LocationMatches(routeLocation, selectedLocation) {
      var rw :| rw in ka && MatchesAnyOf(kb)(rw);
      var sw :| sw in kb && WordsMatch(rw, sw);
      WordsMatchIsContainment(rw, sw);
    }
    if exists rw, sw :: rw in ka && sw in kb && (Contains(rw, sw) || Contains(sw, rw)) {
      var rw, sw :| rw in ka && sw in kb && (Contains(rw, sw) || Contains(sw, rw));
      assert MatchesWord(rw)(sw);
      assert MatchesAnyOf(kb)(rw);
    }
  }

  /** A name left with no keywords matches nothing, on either side. */
  lemma NoKeywordsNoMatch(routeLocation: string, selectedLocation: string)
    requires Keywords(routeLocation) == [] || Keywords(selectedLocation) == []
    ensures !LocationMatches(routeLocation, selectedLocation)
  {
    LocationMatchesIff(routeLocation, selectedLocation);
  }

  /** Matching does not depend on which name is the route's and which the selected one. */
  lemma LocationMatchesSymmetric(a: string, b: string)
    ensures LocationMatches(a, b) == LocationMatches(b, a)
  {
    LocationMatchesIff(a, b);
    LocationMatchesIff(b, a);
  }

  /** Matching ignores the case of ASCII letters in either name. */
  lemma LocationMatchesIgnoresCase(a: string, b: string)
    ensures LocationMatches(a, b) == LocationMatches(Lower(a), b)
    ensures LocationMatches(a, b) == LocationMatches(a, Lower(b))
  {
    LowerIdempotent(a);
    LowerIdempotent(b);
  }

  /** JavaScript truthiness of an optional string: present and not empty. */
  predicate Present(s: Option<string>)
  {
    s.Some? && s.value != ""
  }

  /** The `availableRoutes` test for one route: both places chosen, and the route joins them in one direction or the other. */
  predicate Connects(route: Route, from: string, to: string)
    ensures Connects(route, from, to) ==>
      from != "" && to != "" && Present(route.origin) && Present(route.destination)
  {
    from != "" && to != ""
    && ((Present(route.origin) && LocationMatches(route.origin.value, from)
         && Present(route.destination) && LocationMatches(route.destination.value, to))
        || (Present(route.destination) && LocationMatches(route.destination.value, from)
            && Present(route.origin) && LocationMatches(route.origin.value, to)))
  }

  function ConnectsPlaces(from: string, to: string): Route -> bool
  {
    (r: Route) => Connects(r, from, to)
  }

  /** `availableRoutes`: the buses, then the trains, that connect `from` and `to`. */
  function AvailableRoutes(buses: seq<Route>, trains: seq<Route>, from: string, to: string): (r: seq<Route>)
    ensures IsSubsequence(r, buses + trains)
    ensures forall x :: x in r <==> x in buses + trains && Connects(x, from, to)
    ensures from == "" || to == "" ==> r == []
  {
    var r := Filter(buses + trains, ConnectsPlaces(from, to));
    assert from == "" || to == "" ==> forall i :: 0 <= i < |r| ==> r[i] in r;
    r
  }

  /** A route with a missing or empty origin or destination is never listed. */
  lemma UnplacedRouteNeverListed(buses: seq<Route>, trains: seq<Route>, from: string, to: string, route: Route)
    requires !Present(route.origin) || !Present(route.destination)
    ensures route !in AvailableRoutes(buses, trains, from, to)
  {
  }

  /** Swapping "from" and "to" lists the same routes in the same order. */
  lemma AvailableRoutesSwap(buses: seq<Route>, trains: seq<Route>, from: string, to: string)
    ensures AvailableRoutes(buses, trains, from, to) == AvailableRoutes(buses, trains, to, from)
  {
    FilterCongruent(buses + trains, ConnectsPlaces(from, to), ConnectsPlaces(to, from));
  }

  /** The matching buses come first, then the matching trains. */
  lemma AvailableRoutesBusesFirst(buses: seq<Route>, trains: seq<Route>, from: string, to: string)
    ensures AvailableRoutes(buses, trains, from, to)
      == Filter(buses, ConnectsPlaces(from, to)) + Filter(trains, ConnectsPlaces(from, to))
  {
    FilterConcat(buses, trains, ConnectsPlaces(from, to));
  }

  /** Destinations are never offered when the two lists hold only buses and trains. */
  lemma OnlyBusesAndTrainsListed(buses: seq<Route>, trains: seq<Route>, from: string, to: string)
    requires forall r | r in buses :: r.kind == Bus
    requires forall r | r in trains :: r.kind == Train
    ensures forall r | r in AvailableRoutes(buses, trains, from, to) :: r.kind != Destination
  {
  }

  /** With the catalogue's bus and train lists, the planner never offers a destination. */
  lemma CatalogueOffersNoDestination(from: string, to: string)
    ensures forall r | r in AvailableRoutes(Buses, Trains, from, to) :: r.kind != Destination
  {
    BusesWellFormed();
    TrainsWellFormed();
    OnlyBusesAndTrainsListed(Buses, Trains, from, to);
  }

  /** Which place the next marker press sets. */
  datatype Endpoint = From | To

  datatype Coordinate = Coordinate(latitude: real, longitude: real)

  datatype Station = Station(id: int, name: string, kind: string, coordinate: Coordinate)

  /** The markers of the map. */
  const Stations: seq<Station> := [
    Station(1, "Kings Cross Station", "train", Coordinate(51.5309, -0.1235)),
    Station(2, "Victoria Coach Station", "bus", Coordinate(51.4950, -0.1451)),
    Station(3, "Paddington Station", "train", Coordinate(51.5154, -0.1755)),
    Station(4, "Euston Station", "train", Coordinate(51.5282, -0.1337)),
    Station(5, "Liverpool Street Station", "train", Coordinate(51.5179, -0.0813)),
    Station(6, "Oxford Street Bus Stop", "bus", Coordinate(51.5155, -0.1419)),
    Station(7, "Heathrow Central", "bus", Coordinate(51.4700, -0.4543)),
    Station(8, "Victoria Station", "train", Coordinate(51.4952, -0.1441))
  ]

  /** The alert `handleSaveRoute` raises. */
  datatype SaveAlert = NoAlert | AlreadySaved | RouteSaved

  /** The component state of the map screen. */
  class MapScreen {
    var fromLocation: string
    var toLocation: string
    var fromCoordinate: Option<Coordinate>
    var toCoordinate: Option<Coordinate>
    var selectingFor: Option<Endpoint>
    var showRoutes: bool
    var selectedRoute: Option<Route>

    constructor ()
      ensures fromLocation == "" && toLocation == ""
      ensures fromCoordinate == None && toCoordinate == None
      ensures selectingFor == None && !showRoutes && selectedRoute == None
    {
      fromLocation, toLocation := "", "";
      fromCoordinate, toCoordinate := None, None;
      selectingFor := None;
      showRoutes := false;
      selectedRoute := None;
    }

    /** The "From" or "To" field is pressed: the next marker press sets that place. */
    method StartSelecting(endpoint: Endpoint)
      modifies this`selectingFor
      ensures selectingFor == Some(endpoint)
    {
      selectingFor := Some(endpoint);
    }

    /** `handleMarkerPress`: set the place being selected to the station, then stop selecting. */
    method MarkerPress(station: Station)
      modifies this
      ensures old(selectingFor) == Some(From) ==>
        fromLocation == station.name && fromCoordinate == Some(station.coordinate)
        && toLocation == old(toLocation) && toCoordinate == old(toCoordinate) && selectingFor == None
      ensures old(selectingFor) == Some(To) ==>
        toLocation == station.name && toCoordinate == Some(station.coordinate)
        && fromLocation == old(fromLocation) && fromCoordinate == old(fromCoordinate) && selectingFor == None
      ensures old(selectingFor) == None ==>
        fromLocation == old(fromLocation) && fromCoordinate == old(fromCoordinate)
        && toLocation == old(toLocation) && toCoordinate == old(toCoordinate) && selectingFor == None
      ensures showRoutes == old(showRoutes) && selectedRoute == old(selectedRoute)
    {
      if selectingFor == Some(From) {
        fromLocation := station.name;
        fromCoordinate := Some(station.coordinate);
        selectingFor := None;
      } else if selectingFor == Some(To) {
        toLocation := station.name;
        toCoordinate := Some(station.coordinate);
        selectingFor := None;
      }
    }

    /** `handleFindRoutes`: show the route list once both places are chosen. */
    method FindRoutes()
      modifies this`showRoutes
      ensures showRoutes == (old(showRoutes) || (fromLocation != "" && toLocation != ""))
    {
      if fromLocation != "" && toLocation != "" {
        showRoutes := true;
      }
    }

    /** The routes listed for the chosen places, from the buses and trains in the store. */
    function Available(store: TransportSlice.TransportStore): (r: seq<Route>)
      reads this, store
      ensures IsSubsequence(r, store.buses + store.trains)
      ensures forall x :: x in r <==> x in store.buses + store.trains && Connects(x, fromLocation, toLocation)
    {
      AvailableRoutes(store.buses, store.trains, fromLocation, toLocation)
    }

    /** `handleRouteSelect`. */
    method RouteSelect(route: Route)
      modifies this`selectedRoute, this`showRoutes
      ensures selectedRoute == Some(route) && !showRoutes
    {
      selectedRoute := Some(route);
      showRoutes := false;
    }

    /** "Back" under the route list. */
    method CloseRoutes()
      modifies this`showRoutes
      ensures !showRoutes
    {
      showRoutes := false;
    }

    /** "Back" under the selected route: return to the list. */
    method BackToRoutes()
      modifies this`selectedRoute, this`showRoutes
      ensures selectedRoute == None && showRoutes
    {
      selectedRoute := None;
      showRoutes := true;
    }

    /** "Start New Search": forget the route and both places. */
    method StartNewSearch()
      modifies this`selectedRoute, this`fromLocation, this`toLocation, this`fromCoordinate, this`toCoordinate
      ensures selectedRoute == None && fromLocation == "" && toLocation == ""
      ensures fromCoordinate == None && toCoordinate == None
    {
      selectedRoute := None;
      fromLocation := "";
      toLocation := "";
      fromCoordinate := None;
      toCoordinate := None;
    }

    /** `handleSaveRoute`: add the selected route to the favourites unless one with its id is there. */
    method SaveRoute(favourites: FavouritesSlice.FavouritesStore) returns (alert: SaveAlert)
      modifies favourites
      ensures selectedRoute == None ==> alert == NoAlert && favourites.items == old(favourites.items)
      ensures selectedRoute.Some? && FavouritesSlice.HasId(old(favourites.items), selectedRoute.value.id) ==>
        alert == AlreadySaved && favourites.items == old(favourites.items)
      ensures selectedRoute.Some? && !FavouritesSlice.HasId(old(favourites.items), selectedRoute.value.id) ==>
        alert == RouteSaved && favourites.items == old(favourites.items) + [selectedRoute.value]
    {
      alert := NoAlert;
      if selectedRoute.Some? {
        var route := selectedRoute.value;
        var isFavourite := FavouritesSlice.HasId(favourites.items, route.id);
        if isFavourite {
          alert := AlreadySaved;
        } else {
          favourites.AddFavourite(route);
          alert := RouteSaved;
        }
      }
    }
  }
}
