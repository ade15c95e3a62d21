/**
 * The favourites slice of the store (`store/slices/favouritesSlice.ts`): a
 * list of route snapshots kept unique by id. Its reducers update the list in
 * place; here the slice is an object whose methods do the same, each specified
 * by a function of the old list.
 */
module FavouritesSlice {
  import opened Wrappers
  import opened Seqs
  import opened TransportApi

  /** Some item has the given id (the truthiness of `items.find(item => item.id === id)`). */
  predicate HasId(items: seq<Route>, id: string)
  {
    exists i :: 0 <= i < |items| && items[i].id == id
  }

  /** The set of ids in the list. */
  function Ids(items: seq<Route>): set<string>
  {
    set i | 0 <= i < |items| :: items[i].id
  }

  function IdIsNot(id: string): Route -> bool
  {
    (r: Route) => r.id != id
  }

  /** `items.filter(item => item.id !== id)`. */
  function WithoutId(items: seq<Route>, id: string): (r: seq<Route>)
    ensures IsSubsequence(r, items)
    ensures forall x :: x in r <==> x in items && x.id != id
    ensures !HasId(r, id)
  {
    var r := Filter(items, IdIsNot(id));
    assert forall i :: 0 <= i < |r| ==> r[i] in r;
    r
  }

  /** The list after `addFavourite(route)`. */
  function Added(items: seq<Route>, route: Route): seq<Route>
  {
    if HasId(items, route.id) then items else items + [route]
  }

  /** The list after `toggleFavourite(route)`. */
  function Toggled(items: seq<Route>, route: Route): seq<Route>
  {
    if HasId(items, route.id) then WithoutId(items, route.id) else items + [route]
  }

  class FavouritesStore {
    var items: seq<Route>

    /** `initialState`: no favourites. */
    constructor ()
      ensures items == []
    {
      items := [];
    }

    method AddFavourite(route: Route)
      modifies this
      ensures items == Added(old(items), route)
      ensures DistinctIds(old(items)) ==> DistinctIds(items)
    {
      ghost var before := items;
      var existing := FindById(items, route.id);
      if existing.None? {
        items := items + [route];
      }
      if DistinctIds(before) {
        AddPreservesDistinctIds(before, route);
      }
    }

    method RemoveFavourite(id: string)
      modifies this
      ensures items == WithoutId(old(items), id)
      ensures DistinctIds(old(items)) ==> DistinctIds(items)
    {
      ghost var before := items;
      items := WithoutId(items, id);
      if DistinctIds(before) {
        RemovePreservesDistinctIds(before, id);
      }
    }

    method ToggleFavourite(route: Route)
      modifies this
      ensures items == Toggled(old(items), route)
      ensures DistinctIds(old(items)) ==> DistinctIds(items)
    {
      ghost var before := items;
      var existing := FindById(items, route.id);
      if existing.Some? {
        items := WithoutId(items, route.id);
      } else {
        items := items + [route];
      }
      if DistinctIds(before) {
        TogglePreservesDistinctIds(before, route);
      }
    }

    method ClearFavourites()
      modifies this
      ensures items == []
    {
      items := [];
    }
  }

  /** Adding appends the route exactly when its id is new, and leaves the list alone otherwise. */
  lemma AddedCases(items: seq<Route>, route: Route)
    ensures !HasId(items, route.id) ==> Added(items, route) == items + [route]
    ensures HasId(items, route.id) ==> Added(items, route) == items
    ensures HasId(Added(items, route), route.id)
  {
    if !HasId(items, route.id) {
      assert (items + [route])[|items|] == route;
    }
  }

  /** Adding the same route twice is adding it once. */
  lemma AddIdempotent(items: seq<Route>, route: Route)
    ensures Added(Added(items, route), route) == Added(items, route)
  {
    AddedCases(items, route);
  }

  /** Adding keeps the ids distinct. */
  lemma AddPreservesDistinctIds(items: seq<Route>, route: Route)
    requires DistinctIds(items)
    ensures DistinctIds(Added(items, route))
  {
  }

  /** Removing drops exactly the items with that id, keeps the others in order, and keeps the ids distinct. */
  lemma RemovePreservesDistinctIds(items: seq<Route>, id: string)
    requires DistinctIds(items)
    ensures DistinctIds(WithoutId(items, id))
  {
    var r := WithoutId(items, id);
    forall i, j | 0 <= i < j < |r|
      ensures r[i].id != r[j].id
    {
      SubsequenceIndices(r, items, i, j);
    }
  }

  /** Removing an id nobody has changes nothing. */
  lemma RemoveAbsent(items: seq<Route>, id: string)
    requires !HasId(items, id)
    ensures WithoutId(items, id) == items
  {
    FilterKeepsAll(items, IdIsNot(id));
  }

  /** Toggling removes when the id is present and appends otherwise: exactly one of the two. */
  lemma ToggleIsRemoveOrAdd(items: seq<Route>, route: Route)
    ensures HasId(items, route.id) ==> Toggled(items, route) == WithoutId(items, route.id)
    ensures !HasId(items, route.id) ==> Toggled(items, route) == Added(items, route)
    ensures HasId(Toggled(items, route), route.id) <==> !HasId(items, route.id)
  {
    AddedCases(items, route);
  }

  /** Toggling keeps the ids distinct. */
  lemma TogglePreservesDistinctIds(items: seq<Route>, route: Route)
    requires DistinctIds(items)
    ensures DistinctIds(Toggled(items, route))
  {
    if HasId(items, route.id) {
      RemovePreservesDistinctIds(items, route.id);
    }
  }

  /** Toggling a route that was not a favourite twice gives back the exact list. */
  lemma ToggleTwiceRestoresList(items: seq<Route>, route: Route)
    requires !HasId(items, route.id)
    ensures Toggled(Toggled(items, route), route) == items
  {
    var once := items + [route];
    assert once[|items|] == route;
    FilterConcat(items, [route], IdIsNot(route.id));
    RemoveAbsent(items, route.id);
  }

  /** Toggling any route twice gives back the same set of ids. */
  lemma ToggleTwiceRestoresIds(items: seq<Route>, route: Route)
    ensures Ids(Toggled(Toggled(items, route), route)) == Ids(items)
  {
    if HasId(items, route.id) {
      var removed := WithoutId(items, route.id);
      var twice := removed + [route];
      assert Toggled(Toggled(items, route), route) == twice;
      forall x | x in Ids(items)
        ensures x in Ids(twice)
      {
        var i :| 0 <= i < |items| && items[i].id == x;
        if x == route.id {
          assert twice[|removed|].id == x;
        } else {
          assert items[i] in removed;
          var k :| 0 <= k < |removed| && removed[k] == items[i];
          assert twice[k].id == x;
        }
      }
      forall x | x in Ids(twice)
        ensures x in Ids(items)
      {
        var i :| 0 <= i < |twice| && twice[i].id == x;
        if i < |removed| {
          assert removed[i] in items;
        }
      }
    } else {
      ToggleTwiceRestoresList(items, route);
    }
  }
}
