/**
 * `components/ui/SearchScreen.tsx`: the quick search over the screen's mock
 * results. A non-empty query keeps the items whose title or description
 * contains it, ignoring case; the selected filter chip plays no part.
 */
module SearchScreen {
  import opened Wrappers
  import opened Text
  import opened Seqs
  import opened RouteItems

  /** The mock results the screen searches. */
  const SearchResults: seq<RouteItem> := [
    RouteItem("1",
      "https://images.unsplash.com/photo-1761760178065-f45ba583a014?crop=entropy&cs=tinysrgb&fit=max&fm=jpg&ixid=M3w3Nzg4Nzd8MHwxfHNlYXJjaHwxfHxtb2Rlcm4lMjBidXMlMjB0cmFuc3BvcnRhdGlvbnxlbnwxfHx8fDE3NjM5MTY0ODR8MA&ixlib=rb-4.1.0&q=80&w=1080",
      "Route 138 - Colombo \U{2192} Fort", "Express service",
      Active, BusItem, None, None),
    RouteItem("4",
      "https://images.unsplash.com/photo-1651696067434-61faf50c6fe3?crop=entropy&cs=tinysrgb&fit=max&fm=jpg&ixid=M3w3Nzg4Nzd8MHwxfHNlYXJjaHwxfHx0cmFpbiUyMHJhaWx3YXklMjBzdGF0aW9ufGVufDF8fHx8MTc2MzkyNDk4OHww&ixlib=rb-4.1.0&q=80&w=1080",
      "Colombo \U{2192} Kandy Express", "First class available",
      Popular, TrainItem, None, None),
    RouteItem("7",
      "https://images.unsplash.com/photo-1561426802-392f5b6290cf?crop=entropy&cs=tinysrgb&fit=max&fm=jpg&ixid=M3w3Nzg4Nzd8MHwxfHNlYXJjaHwxfHxjb2xvbWJvJTIwc3JpJTIwbGFua2F8ZW58MXx8fHwxNzYzOTY1Mjk0fDA&ixlib=rb-4.1.0&q=80&w=1080",
      "Colombo City Centre", "Shopping & entertainment",
      Popular, DestinationItem, None, None)
  ]

  /** The item's title or description, lower-cased, contains the lower-cased query. */
  predicate MentionsQuery(item: RouteItem, lowerQuery: string)
  {
    Contains(Lower(item.title), lowerQuery) || Contains(Lower(item.description), lowerQuery)
  }

  function Mentioning(lowerQuery: string): RouteItem -> bool
  {
    (item: RouteItem) => MentionsQuery(item, lowerQuery)
  }

  /**
   * `filteredResults`: only the empty query is falsy, so a query of blanks is
   * searched for like any other; `activeFilter` is not consulted.
   */
  function FilteredResults(results: seq<RouteItem>, searchQuery: string, activeFilter: string): (r: seq<RouteItem>)
    ensures IsSubsequence(r, results)
    ensures searchQuery == "" ==> r == results
    ensures searchQuery != "" ==>
      forall item :: item in r <==> item in results && MentionsQuery(item, Lower(searchQuery))
  {
    if searchQuery == "" then
      SubsequenceReflexive(results);
      results
    else
      Filter(results, Mentioning(Lower(searchQuery)))
  }

  /** The chip selected makes no difference to the list. */
  lemma ActiveFilterIgnored(results: seq<RouteItem>, searchQuery: string, filterA: string, filterB: string)
    ensures FilteredResults(results, searchQuery, filterA) == FilteredResults(results, searchQuery, filterB)
  {
  }

  /** Searching ignores the case of the query. */
  lemma QueryCaseIgnored(results: seq<RouteItem>, searchQuery: string, activeFilter: string)
    ensures FilteredResults(results, searchQuery, activeFilter) == FilteredResults(results, Lower(searchQuery), activeFilter)
  {
    LowerIdempotent(searchQuery);
  }

  /** A query that every item mentions keeps the whole list, in order. */
  lemma QueryMentionedByAll(results: seq<RouteItem>, searchQuery: string, activeFilter: string)
    requires forall item | item in results :: MentionsQuery(item, Lower(searchQuery))
    ensures FilteredResults(results, searchQuery, activeFilter) == results
  {
    if searchQuery != "" {
      FilterKeepsAll(results, Mentioning(Lower(searchQuery)));
    }
  }

  /** A lower-cased text still holds each blank of the original. */
  lemma LowerKeepsBlank(s: string, i: nat)
    requires i < |s| && s[i] == ' '
    ensures Contains(Lower(s), " ")
  {
    assert Lower(s)[i..][..1] == [' '];
    assert StartsWith(Lower(s)[i..], " ");
    ContainsAt(Lower(s), " ");
  }

  /** A query of one blank keeps every item that has a blank in its title or description. */
  lemma BlankQueryKeepsSpacedItems(results: seq<RouteItem>, activeFilter: string)
    requires forall item | item in results :: ' ' in item.title || ' ' in item.description
    ensures FilteredResults(results, " ", activeFilter) == results
  {
    assert Lower(" ") == " " by {
      var blank := Lower(" ");
      assert |blank| == 1 && blank[0] == LowerChar(' ');
    }
    forall item | item in results
      ensures MentionsQuery(item, " ")
    {
      if ' ' in item.title {
        var i :| 0 <= i < |item.title| && item.title[i] == ' ';
        LowerKeepsBlank(item.title, i);
      } else {
        var i :| 0 <= i < |item.description| && item.description[i] == ' ';
        LowerKeepsBlank(item.description, i);
      }
    }
    QueryMentionedByAll(results, " ", activeFilter);
  }

  /** A one-blank query is not treated as empty: every mock result has a blank, so all are kept. */
  lemma BlankQueryIsSearched(activeFilter: string)
    ensures FilteredResults(SearchResults, " ", activeFilter) == SearchResults
  {
    assert SearchResults[0].description[7] == ' ';
    assert SearchResults[1].description[5] == ' ';
    assert SearchResults[2].description[8] == ' ';
    BlankQueryKeepsSpacedItems(SearchResults, activeFilter);
  }
}
