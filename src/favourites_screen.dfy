/**
 * `components/ui/FavouritesScreen.tsx`: a screen-local favourites list that
 * starts from mock items, loses every item with a given id when its bin is
 * pressed, and words its header by the count.
 */
module FavouritesScreen {
  import opened Wrappers
  import opened Seqs
  import opened RouteItems

  /** The mock items the list starts with. */
  const InitialFavourites: seq<RouteItem> := [
    RouteItem("1",
      "https://images.unsplash.com/photo-1761760178065-f45ba583a014?crop=entropy&cs=tinysrgb&fit=max&fm=jpg&ixid=M3w3Nzg4Nzd8MHwxfHNlYXJjaHwxfHxtb2Rlcm4lMjBidXMlMjB0cmFuc3BvcnRhdGlvbnxlbnwxfHx8fDE3NjM5MTY0ODR8MA&ixlib=rb-4.1.0&q=80&w=1080",
      "Route 138 - Colombo \U{2192} Fort", "Express service with air conditioning",
      Active, BusItem, Some("Colombo - Fort - Galle Road"), None),
    RouteItem("4",
      "https://images.unsplash.com/photo-1651696067434-61faf50c6fe3?crop=entropy&cs=tinysrgb&fit=max&fm=jpg&ixid=M3w3Nzg4Nzd8MHwxfHNlYXJjaHwxfHx0cmFpbiUyMHJhaWx3YXklMjBzdGF0aW9ufGVufDF8fHx8MTc2MzkyNDk4OHww&ixlib=rb-4.1.0&q=80&w=1080",
      "Colombo \U{2192} Kandy Express", "First class and second class available",
      Popular, TrainItem, Some("Colombo Fort - Kandy"), None),
    RouteItem("7",
      "https://images.unsplash.com/photo-1561426802-392f5b6290cf?crop=entropy&cs=tinysrgb&fit=max&fm=jpg&ixid=M3w3Nzg4Nzd8MHwxfHNlYXJjaHwxfHxjb2xvbWJvJTIwc3JpJTIwbGFua2F8ZW58MXx8fHwxNzYzOTY1Mjk0fDA&ixlib=rb-4.1.0&q=80&w=1080",
      "Colombo City Centre", "Shopping, dining, and entertainment hub",
      Popular, DestinationItem, None, None)
  ]

  predicate HasItemId(items: seq<RouteItem>, id: string)
  {
    exists k | 0 <= k < |items| :: items[k].id == id
  }

  function ItemIdIsNot(id: string): RouteItem -> bool
  {
    (item: RouteItem) => item.id != id
  }

  /** `favourites.filter(item => item.id !== id)`. */
  function WithoutItem(items: seq<RouteItem>, id: string): (r: seq<RouteItem>)
    ensures IsSubsequence(r, items)
    ensures forall item :: item in r <==> item in items && item.id != id
    ensures !HasItemId(r, id)
    ensures !HasItemId(items, id) ==> r == items
  {
    var r := Filter(items, ItemIdIsNot(id));
    assert forall k | 0 <= k < |r| :: r[k] in r;
    if HasItemId(items, id) then r
    else
      FilterKeepsAll(items, ItemIdIsNot(id));
      r
  }

  /** Removing the same id a second time changes nothing. */
  lemma RemoveTwice(items: seq<RouteItem>, id: string)
    ensures WithoutItem(WithoutItem(items, id), id) == WithoutItem(items, id)
  {
  }

  /** Items with other ids survive a removal in their original order. */
  lemma RemoveKeepsOthers(items: seq<RouteItem>, id: string, other: string)
    requires other != id
    ensures HasItemId(items, other) ==> HasItemId(WithoutItem(items, id), other)
  {
    if HasItemId(items, other) {
      var k :| 0 <= k < |items| && items[k].id == other;
      assert items[k] in WithoutItem(items, id);
    }
  }

  /** The word after the count in the header. */
  function ItemWord(count: nat): (w: string)
    ensures w == "item" <==> count == 1
    ensures w == "items" <==> count != 1
  {
    if count == 1 then "item" else "items"
  }

  /** The screen's list state. */
  class FavouritesList {
    var favourites: seq<RouteItem>

    constructor ()
      ensures favourites == InitialFavourites
    {
      favourites := InitialFavourites;
    }

    /** `removeFavourite(id)`. */
    method RemoveFavourite(id: string)
      modifies this
      ensures favourites == WithoutItem(old(favourites), id)
    {
      favourites := WithoutItem(favourites, id);
    }

    /** The word after the count in the header. */
    function HeaderWord(): (word: string)
      reads this
      ensures word == "item" <==> |favourites| == 1
      ensures word == "items" <==> |favourites| != 1
    {
      ItemWord(|favourites|)
    }

    /** The empty state replaces the grid exactly when nothing is saved. */
    predicate ShowsEmptyState()
      reads this
      ensures ShowsEmptyState() <==> favourites == []
    {
      |favourites| == 0
    }
  }

  /** Removing each mock id in turn leaves the empty state. */
  lemma RemovingEveryMockLeavesEmptyState()
    ensures WithoutItem(WithoutItem(WithoutItem(InitialFavourites, "1"), "4"), "7") == []
  {
    var a := WithoutItem(InitialFavourites, "1");
    var b := WithoutItem(a, "4");
    var c := WithoutItem(b, "7");
    assert forall item | item in InitialFavourites :: item.id == "1" || item.id == "4" || item.id == "7";
    NothingInIsEmpty(c);
  }
}
