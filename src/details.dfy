/**
 * `app/details.tsx`: the status colour and type icon lookups, the heart
 * state of the route shown, the heart press, and the fetch made when the
 * screen opens with an id.
 */
module Details {
  import opened Wrappers
  import opened Seqs
  import opened TransportApi
  import FavouritesSlice
  import TransportSlice

  /** The string a route's `status` holds. */
  function StatusName(status: Status): string
  {
    match status
    case Active => "Active"
    case Popular => "Popular"
    case Upcoming => "Upcoming"
  }

  /** The string a route's `type` holds. */
  function KindName(kind: RouteType): string
  {
    match kind
    case Bus => "bus"
    case Train => "train"
    case Destination => "destination"
  }

  const StatusGreen := "#37ab30"
  const StatusGrey := "#737373"

  /** `getStatusColor`. */
  function StatusColor(status: string): (colour: string)
    ensures colour == StatusGreen <==> status == "Active" || status == "Popular" || status == "Upcoming"
    ensures colour == StatusGrey <==> colour != StatusGreen
  {
    match status
    case "Active" => StatusGreen
    case "Popular" => StatusGreen
    case "Upcoming" => StatusGreen
    case _ => StatusGrey
  }

  /** Every status a route can have is shown green. */
  lemma EveryStatusIsGreen(status: Status)
    ensures StatusColor(StatusName(status)) == StatusGreen
  {
  }

  /** An icon name and the font it comes from (`fa5` or `feather`). */
  datatype Icon = Icon(name: string, family: string)

  /** `getTypeIcon`. */
  function TypeIcon(kind: string): (icon: Icon)
    ensures icon.family == "fa5" <==> kind == "bus" || kind == "train"
    ensures icon.family == "feather" <==> icon.family != "fa5"
    ensures kind == "bus" || kind == "train" ==> icon.name == kind
    ensures icon.name == "map-pin" <==> kind == "destination"
    ensures icon.name == "circle" <==> kind != "bus" && kind != "train" && kind != "destination"
  {
    match kind
    case "bus" => Icon("bus", "fa5")
    case "train" => Icon("train", "fa5")
    case "destination" => Icon("map-pin", "feather")
    case _ => Icon("circle", "feather")
  }

  /** Every route type has an icon of its own; the fallback circle is never shown for a route. */
  lemma EveryKindHasItsIcon(kind: RouteType)
    ensures TypeIcon(KindName(kind)).name != "circle"
  {
  }

  function HasRouteId(routeId: string): Route -> bool
  {
    (item: Route) => item.id == routeId
  }

  /** `isFavourite(routeId)`: some saved item has the id. */
  function IsFavourite(favourites: seq<Route>, routeId: string): (b: bool)
    ensures b <==> FavouritesSlice.HasId(favourites, routeId)
  {
    var b := Any(favourites, HasRouteId(routeId));
    assert b ==> exists i :: 0 <= i < |favourites| && favourites[i].id == routeId;
    assert FavouritesSlice.HasId(favourites, routeId) ==> b by {
      if FavouritesSlice.HasId(favourites, routeId) {
        var i :| 0 <= i < |favourites| && favourites[i].id == routeId;
        assert HasRouteId(routeId)(favourites[i]);
      }
    }
    b
  }

  /** A heart press flips the heart of the route pressed. */
  lemma PressFlipsHeart(favourites: seq<Route>, route: Route)
    ensures IsFavourite(FavouritesSlice.Toggled(favourites, route), route.id) == !IsFavourite(favourites, route.id)
  {
    if !FavouritesSlice.HasId(favourites, route.id) {
      var after := favourites + [route];
      assert after[|favourites|].id == route.id;
    }
  }

  /** A heart press leaves the heart of every other route as it was. */
  lemma PressKeepsOtherHearts(favourites: seq<Route>, route: Route, otherId: string)
    requires otherId != route.id
    ensures IsFavourite(FavouritesSlice.Toggled(favourites, route), otherId) == IsFavourite(favourites, otherId)
  {
    var after := FavouritesSlice.Toggled(favourites, route);
    if FavouritesSlice.HasId(favourites, otherId) {
      var i :| 0 <= i < |favourites| && favourites[i].id == otherId;
      if FavouritesSlice.HasId(favourites, route.id) {
        assert favourites[i] in after;
        var j :| 0 <= j < |after| && after[j] == favourites[i];
      } else {
        assert after[i] == favourites[i];
      }
    }
    if FavouritesSlice.HasId(after, otherId) {
      var j :| 0 <= j < |after| && after[j].id == otherId;
      if FavouritesSlice.HasId(favourites, route.id) {
        assert after[j] in after;
        var i :| 0 <= i < |favourites| && favourites[i] == after[j];
      } else {
        assert j < |favourites| && favourites[j] == after[j];
      }
    }
  }

  /** `handleFavouritePress`: toggle the shown route, when there is one. */
  method HandleFavouritePress(favourites: FavouritesSlice.FavouritesStore, selectedRoute: Option<Route>)
    modifies favourites
    ensures selectedRoute.None? ==> favourites.items == old(favourites.items)
    ensures selectedRoute.Some? ==>
      favourites.items == FavouritesSlice.Toggled(old(favourites.items), selectedRoute.value)
  {
    if selectedRoute.Some? {
      favourites.ToggleFavourite(selectedRoute.value);
    }
  }

  /** The spinner stands in for the page while loading or while no route is selected. */
  predicate ShowsSpinner(isLoading: bool, selectedRoute: Option<Route>)
    ensures !ShowsSpinner(isLoading, selectedRoute) ==> selectedRoute.Some? && !isLoading
  {
    isLoading || selectedRoute.None?
  }

  /** Opening the screen with an id fetches that route; a catalogue id ends with the page shown. */
  method Open(transport: TransportSlice.TransportStore, id: string)
    modifies transport
    ensures id == "" ==> transport.State() == old(transport.State())
    ensures id != "" && GetRouteById(id).Some? ==>
      transport.selectedRoute == GetRouteById(id) && transport.error == None
      && !ShowsSpinner(transport.isLoading, transport.selectedRoute)
    ensures id != "" && GetRouteById(id).None? ==>
      transport.error == Some("Route not found") && transport.selectedRoute == old(transport.selectedRoute)
    ensures id != "" && GetRouteById(id).Some? ==>
      transport.State() == old(transport.State()).(isLoading := false, error := None, selectedRoute := GetRouteById(id))
    ensures id != "" && GetRouteById(id).None? ==>
      transport.State() == old(transport.State()).(isLoading := false, error := Some("Route not found"))
  {
    if id != "" {
      transport.FetchRouteById(id);
    }
  }
}
