# GoMate core, modelled in Dafny

GoMate is a React Native travel app for Sri Lankan buses, trains and
destinations. Under its screens sits a small amount of logic, and this project
models it and proves properties about it:

- the favourites store, a list of routes kept unique by id;
- the transport store, which moves each request through pending, fulfilled and rejected;
- the catalogue search (a named filter, then a case-insensitive query) and the lookup by id;
- the journey planner's loose matching of place names, and the buses and trains it offers between two places;
- the hand-written login and register checks;
- the declarative `yup` schemas of the two auth pages;
- the two onboarding slide machines;
- the quick search and favourites list of the component screens;
- the lookups of the details page.

Each source file is one module. Some files change state step by step: the
store slices, the form handlers, the onboarding screens and the map handlers.
Each of these is a `class` whose methods state their new state in terms of a
pure function of the old one. The remaining files become functions and lemmas.

Two modules serve the rest:

- `Seqs`: `filter`, `some` and `slice(0, k)` on sequences, with
  order-preserving subsequence facts.
- `Text`: the JavaScript string operations used.
  - `toLowerCase`, on ASCII letters only.
  - `includes`.
  - `trim`, over the `\s` white-space set.
  - `split(/\s+/)`, which keeps the empty first or last token that leading
    or trailing blanks produce.

All files are under `src/` and are verified together.

## Model

| member | source | states |
|---|---|---|
| Seqs.Filter | store/slices/favouritesSlice.ts:23 | `Array.prototype.filter`: an element is in the result iff it is in the input and satisfies the predicate; the result is no longer than the input and is an order-preserving subsequence of it |
| Seqs.FilterMultiplicity | store/slices/favouritesSlice.ts:23 | each value occurs in the filtered list as often as in the input when it satisfies the predicate, and not at all otherwise, so duplicates are kept |
| Seqs.Any | app/map.tsx:151-153 | `Array.prototype.some`: true iff some element satisfies the predicate |
| Seqs.Take | services/api.ts:338 | `slice(0, k)`: length min(k, n), and the first elements unchanged |
| Seqs.FilterConcat | app/map.tsx:156 | filtering a concatenation filters each part and concatenates the results in order |
| Seqs.FilterCongruent | app/map.tsx:156-168 | two predicates that agree on every element select the same list |
| Text.Lower | app/map.tsx:143-144 | `toLowerCase` keeps the length and lower-cases each character in place |
| Text.Utf16Length | components/ui/LoginScreen.tsx:27 | JavaScript `length`: between the number of characters and twice it, and equal to it iff no character lies beyond U+FFFF |
| Text.LowerIdempotent | app/map.tsx:143-144 | lower-casing twice is lower-casing once |
| Text.ContainsAt | app/map.tsx:152 | `hay.includes(needle)` holds iff `needle` occurs at some position of `hay` |
| Text.TrimEmptyIffBlank | services/api.ts:350 | `query.trim()` is empty iff every character of the query is white space |
| Text.SplitOnWhitespace | app/map.tsx:147-148 | `split(/\s+/)`: at least one token; every token is free of white space; interior tokens are non-empty; the first (last) token is empty iff the text is empty or starts (ends) with white space; a single token iff the text has no white space |
| Text.SplitRecombines | app/map.tsx:147 | the tokens are the text between the white-space runs: some non-empty blank separators, one between each two tokens, put the tokens back together into the original string |
| TransportApi.BusesWellFormed | services/api.ts:45-121 | every bus entry has type bus, an id starting with `b`, and the ids are distinct |
| TransportApi.TrainsWellFormed | services/api.ts:123-199 | every train entry has type train, an id starting with `t`, and the ids are distinct |
| TransportApi.DestinationsWellFormed | services/api.ts:201-282 | every destination entry has type destination, an id starting with `d`, and the ids are distinct |
| TransportApi.AllRoutes | services/api.ts:306-309 | `getAllRoutes`: all buses, then all trains, then all destinations, each list whole and in its own order |
| TransportApi.CatalogueIdsDistinct | services/api.ts:306-309 | no two entries of the concatenated catalogue share an id |
| TransportApi.IndexOfId | services/api.ts:315 | `findIndex` by id: none iff no entry has the id, otherwise the position of the first entry that does |
| TransportApi.FindById | services/api.ts:315 | `find` by id: undefined iff no entry has the id, otherwise the first entry that does |
| TransportApi.GetRouteById | services/api.ts:312-316 | undefined iff no catalogue entry has the id; otherwise a catalogue entry with that id |
| TransportApi.GetRouteByIdFindsEveryEntry | services/api.ts:312-316 | `getRouteById` of any catalogue entry's id returns that entry |
| TransportApi.GetRouteByIdMissing | services/api.ts:312-316 | an id no entry has yields undefined |
| TransportApi.OwnPropertyLookup | services/api.ts:325-332 | the six own keys of `filterMap`, none of them inherited |
| TransportApi.FilterStage | services/api.ts:324-347 | the filter step: an order-preserving subsequence; no filter, empty or `All` keeps the list; `Popular`, `Timetables`, `Buses`, `Trains`, `Destinations` keep exactly the routes of that status or type; `Nearby` is the first four; a name outside the map keeps the list; apart from `Nearby` (a prefix) and the unfiltered cases, it is a `Filter`, so `Seqs.FilterMultiplicity` gives each kept route its full count |
| TransportApi.FilterStageAsWritten | services/api.ts:324-347 | the filter step as written fails iff a filter is applied, its name is an `Object.prototype` property, and the list is non-empty; the error is the `types.includes` TypeError |
| TransportApi.FilterStageAsWrittenAgrees | services/api.ts:342-345 | the written filter step fails exactly for an applied filter named like an `Object.prototype` property on a non-empty list, and otherwise agrees with `FilterStage` |
| TransportApi.InheritedFilterNameThrows | services/api.ts:342-344 | the filter `"toString"` makes the written search throw on the catalogue, where the intended one returns it whole |
| TransportApi.QueryStage | services/api.ts:350-358 | the query step: unchanged for a blank query; otherwise keeps exactly the routes whose lower-cased title, description, origin or destination contains the lower-cased, untrimmed query (a missing origin or destination never matches) |
| TransportApi.Search | services/api.ts:319-361 | a route is returned iff it passes the filter step and the query is blank or it matches; the result is an order-preserving subsequence of the starting list; it composes the filter step with a `Filter` or nothing, so kept routes keep their full count by `Seqs.FilterMultiplicity` |
| TransportApi.SearchAsWrittenAgrees | services/api.ts:319-361 | the search as written fails exactly when its filter step does, with the same error, and otherwise returns the intended search result |
| TransportApi.SearchAllBlank | services/api.ts:319-361 | no filter or `All` and a blank query return the catalogue unchanged, in order |
| TransportApi.NearbyIsFirstFour | services/api.ts:336-338 | `Nearby` takes the first four catalogue entries before the query runs |
| TransportApi.SearchRoutes | services/api.ts:319-361 | the step-by-step search equals `Search` from buses, trains, destinations; it is a subsequence of the catalogue, and the whole catalogue when nothing is filtered |
| FavouritesSlice.WithoutId | store/slices/favouritesSlice.ts:22-24 | the remaining items are exactly those with another id, in their original order, and none has the removed id; it is a `Filter`, so `Seqs.FilterMultiplicity` gives each kept value its full count |
| FavouritesSlice.FavouritesStore.constructor | store/slices/favouritesSlice.ts:8-10 | the list starts empty |
| FavouritesSlice.FavouritesStore.AddFavourite | store/slices/favouritesSlice.ts:16-21 | the new list is the old one with the route appended if its id was absent, else the old one; a list with distinct ids keeps them distinct |
| FavouritesSlice.FavouritesStore.RemoveFavourite | store/slices/favouritesSlice.ts:22-24 | the new list is the old one without the items of that id; a list with distinct ids keeps them distinct |
| FavouritesSlice.FavouritesStore.ToggleFavourite | store/slices/favouritesSlice.ts:25-32 | the new list is the toggled old list; a list with distinct ids keeps them distinct |
| FavouritesSlice.FavouritesStore.ClearFavourites | store/slices/favouritesSlice.ts:33-35 | the list is empty whatever it held |
| FavouritesSlice.AddedCases | store/slices/favouritesSlice.ts:16-21 | adding appends exactly when the id is new, otherwise changes nothing; afterwards the id is present |
| FavouritesSlice.AddIdempotent | store/slices/favouritesSlice.ts:17-20 | adding twice equals adding once |
| FavouritesSlice.AddPreservesDistinctIds | store/slices/favouritesSlice.ts:17-20 | adding keeps the ids distinct |
| FavouritesSlice.RemovePreservesDistinctIds | store/slices/favouritesSlice.ts:23 | removing keeps the ids distinct |
| FavouritesSlice.RemoveAbsent | store/slices/favouritesSlice.ts:23 | removing an absent id leaves the list unchanged |
| FavouritesSlice.ToggleIsRemoveOrAdd | store/slices/favouritesSlice.ts:25-32 | toggling is removal when the id is present and appending otherwise, and afterwards the id is present iff it was absent |
| FavouritesSlice.TogglePreservesDistinctIds | store/slices/favouritesSlice.ts:25-32 | toggling keeps the ids distinct |
| FavouritesSlice.ToggleTwiceRestoresList | store/slices/favouritesSlice.ts:25-32 | toggling a route whose id was absent twice gives back the exact list |
| FavouritesSlice.ToggleTwiceRestoresIds | store/slices/favouritesSlice.ts:25-32 | toggling any route twice gives back the same set of ids |
| TransportSlice.RejectionMessage | store/slices/transportSlice.ts:26-82 | a rejection carries the thrown message when it has one and the request's fallback otherwise, never an empty one |
| TransportSlice.RouteByIdOutcome | store/slices/transportSlice.ts:73-77 | the lookup yielding undefined is a rejection with "Route not found"; otherwise the thunk fulfils with the route found |
| TransportSlice.FetchRouteByIdCases | store/slices/transportSlice.ts:69-82 | fetching a catalogue entry's id fulfils with that entry; an unknown id rejects with "Route not found" |
| TransportSlice.PartitionByType | store/slices/transportSlice.ts:147-149 | the bus, train and destination filters of a payload have lengths summing to the payload's length |
| TransportSlice.FilterConcat3 | services/api.ts:308 | filtering the three concatenated lists filters each |
| TransportSlice.PartitionOfTypedLists | store/slices/transportSlice.ts:144-150 | a payload made of a bus list, a train list and a destination list is split back into exactly those lists |
| TransportSlice.CataloguePartition | store/slices/transportSlice.ts:144-150 | splitting the catalogue by type gives back its three lists |
| TransportSlice.TransportStore.constructor | store/slices/transportSlice.ts:15-24 | all lists empty, no selected route, not loading, no error |
| TransportSlice.TransportStore.ClearSearchResults | store/slices/transportSlice.ts:88-90 | only `searchResults` changes, to empty |
| TransportSlice.TransportStore.SetSelectedRoute | store/slices/transportSlice.ts:91-93 | only `selectedRoute` changes, to the payload |
| TransportSlice.TransportStore.ClearSelectedRoute | store/slices/transportSlice.ts:94-96 | only `selectedRoute` changes, to null |
| TransportSlice.TransportStore.Pending | store/slices/transportSlice.ts:101-104 | every pending case sets loading, clears the error and changes nothing else |
| TransportSlice.TransportStore.Rejected | store/slices/transportSlice.ts:109-112 | every rejected case clears loading, stores the message and leaves all data fields unchanged |
| TransportSlice.TransportStore.BusesFulfilled | store/slices/transportSlice.ts:105-108 | clears loading and replaces only `buses`; the error is untouched |
| TransportSlice.TransportStore.TrainsFulfilled | store/slices/transportSlice.ts:118-121 | clears loading and replaces only `trains` |
| TransportSlice.TransportStore.DestinationsFulfilled | store/slices/transportSlice.ts:131-134 | clears loading and replaces only `destinations` |
| TransportSlice.TransportStore.AllRoutesFulfilled | store/slices/transportSlice.ts:144-150 | `allRoutes` becomes the payload and the three lists its order-preserving type filters, whose lengths sum to the payload's |
| TransportSlice.TransportStore.SearchFulfilled | store/slices/transportSlice.ts:160-163 | clears loading and replaces only `searchResults` |
| TransportSlice.TransportStore.RouteByIdFulfilled | store/slices/transportSlice.ts:173-176 | clears loading and replaces only `selectedRoute` |
| TransportSlice.TransportStore.FetchRouteById | store/slices/transportSlice.ts:69-82 | from dispatch to settlement: a found route becomes the selection with no error; a missing one leaves "Route not found" as the error and the data as it was |
| TransportSlice.TransportStore.FetchAllRoutes | store/slices/transportSlice.ts:140-150 | from dispatch to settlement: the three lists equal the catalogue's lists, not loading, no error |
| JourneyPlanner.Keywords | app/map.tsx:143-148 | the keywords are the tokens of the lower-cased name other than station, central, terminal, bus and coach, in order |
| JourneyPlanner.LocationMatches | app/map.tsx:142-154 | `locationMatches` is true only when both names keep at least one keyword (the full iff is LocationMatchesIff) |
| JourneyPlanner.WordsMatchIsContainment | app/map.tsx:152 | the `rw === sw` test adds nothing to the two containment tests |
| JourneyPlanner.LocationMatchesIff | app/map.tsx:142-154 | two names match iff some keyword of one contains or is contained in some keyword of the other |
| JourneyPlanner.NoKeywordsNoMatch | app/map.tsx:151-153 | a name with no keywords left matches nothing |
| JourneyPlanner.LocationMatchesSymmetric | app/map.tsx:142-154 | matching is symmetric |
| JourneyPlanner.LocationMatchesIgnoresCase | app/map.tsx:143-144 | matching is unchanged by lower-casing either name |
| JourneyPlanner.Connects | app/map.tsx:157-167 | the test for one route holds only when both places are set and the route has a non-empty origin and destination |
| JourneyPlanner.AvailableRoutes | app/map.tsx:156-168 | a bus or train is listed iff both places are set and it joins them in either direction; empty when a place is unset; an order-preserving subsequence of buses then trains; it is a `Filter`, so `Seqs.FilterMultiplicity` gives each kept value its full count |
| JourneyPlanner.UnplacedRouteNeverListed | app/map.tsx:160-165 | a route with a missing or empty origin or destination is never listed |
| JourneyPlanner.AvailableRoutesSwap | app/map.tsx:156-168 | swapping from and to lists the same routes in the same order |
| JourneyPlanner.AvailableRoutesBusesFirst | app/map.tsx:156 | the matching buses come first, then the matching trains |
| JourneyPlanner.OnlyBusesAndTrainsListed | app/map.tsx:156 | with a bus list and a train list, no destination entry is ever listed |
| JourneyPlanner.CatalogueOffersNoDestination | app/map.tsx:156-168 | with the catalogue's bus and train lists, no destination entry is ever listed |
| JourneyPlanner.MapScreen.constructor | app/map.tsx:101-107 | no places, coordinates, selection mode, route list or selected route |
| JourneyPlanner.MapScreen.StartSelecting | app/map.tsx:264-277 | the From or To field puts the map in that selection mode |
| JourneyPlanner.MapScreen.MarkerPress | app/map.tsx:123-133 | only the name and coordinate of the place being selected change, then selection stops; with no selection mode nothing changes |
| JourneyPlanner.MapScreen.FindRoutes | app/map.tsx:135-139 | the route list is shown iff both places are set, or it already was |
| JourneyPlanner.MapScreen.Available | app/map.tsx:156-168 | the list shown for the screen's places is an order-preserving subsequence of the store's buses then trains, holding exactly the ones that connect the two places |
| JourneyPlanner.MapScreen.RouteSelect | app/map.tsx:170-173 | the route becomes the selection and the list closes |
| JourneyPlanner.MapScreen.CloseRoutes | app/map.tsx:340 | the list closes |
| JourneyPlanner.MapScreen.BackToRoutes | app/map.tsx:374-378 | the selection is dropped and the list reopens |
| JourneyPlanner.MapScreen.StartNewSearch | app/map.tsx:392-399 | the selection, both places and both coordinates are cleared |
| JourneyPlanner.MapScreen.SaveRoute | app/map.tsx:175-199 | with no selection nothing happens; a selected route whose id is saved raises "Already Saved"; otherwise it is appended to the favourites and "Route Saved!" is raised |
| FormChecks.ShortestEmailMatch | components/ui/LoginScreen.tsx:21 | an address passing `\S+@\S+\.\S+` has at least five characters, an `@` and a `.` |
| FormChecks.EmailError | components/ui/LoginScreen.tsx:19-23 | no message iff the address matches the pattern; an empty address is "Email is required", any other failure "Please enter a valid email" |
| FormChecks.PasswordError | components/ui/LoginScreen.tsx:25-29 | no message iff the password is at least six UTF-16 code units long; empty is "Password is required", short is "Password must be at least 6 characters" |
| FormChecks.AstralPasswordLength | components/ui/LoginScreen.tsx:27 | three characters beyond U+FFFF make a six-unit password, which passes; two of them do not |
| FormChecks.UsernameOf | components/ui/LoginScreen.tsx:38 | `email.split('@')[0]`: the longest prefix without `@`, followed in the address by `@` when there is one |
| FormChecks.EmptyUsernamePassesPattern | components/ui/LoginScreen.tsx:21-38 | "@a@b.c" passes the pattern and yields the empty user name |
| LoginScreen.CheckLogin | components/ui/LoginScreen.tsx:17-29 | one optional message per field; the e-mail has none iff it matches, the password none iff it is at least six UTF-16 code units long, and both can fail together |
| LoginScreen.BothFieldsReported | components/ui/LoginScreen.tsx:17-29 | an empty e-mail and a short password are both reported |
| LoginScreen.LoginForm.constructor | components/ui/LoginScreen.tsx:12-14 | empty fields and no errors |
| LoginScreen.LoginForm.HandleLogin | components/ui/LoginScreen.tsx:16-40 | the stored errors are the collected ones; `onLogin` is called, with the part before the first `@`, iff the address matches and the password is at least six UTF-16 code units long |
| RegisterScreen.NameError | components/ui/RegisterScreen.tsx:31-33 | "Name is required" iff the name is empty |
| RegisterScreen.ConfirmError | components/ui/RegisterScreen.tsx:47-51 | no message iff the confirmation is non-empty and equals the password; empty is "Please confirm your password", different is "Passwords do not match" |
| RegisterScreen.CheckRegister | components/ui/RegisterScreen.tsx:24-51 | one optional message per field with the same e-mail and password rules as login (the password length in UTF-16 code units); no message at all iff name set, address matching, password long enough and confirmation equal |
| RegisterScreen.MismatchReportedBesidePasswordError | components/ui/RegisterScreen.tsx:41-51 | a mismatch is reported even when the password itself fails |
| RegisterScreen.RegisterForm.constructor | components/ui/RegisterScreen.tsx:12-21 | empty fields and no errors |
| RegisterScreen.RegisterForm.HandleRegister | components/ui/RegisterScreen.tsx:23-60 | the stored errors are the collected ones; `onRegister(name)` is called iff there are none |
| YupRules.FirstFailure | app/register.tsx:22-48 | a field has no message iff all its rules hold; `min` counts UTF-16 code units |
| YupRules.FirstFailureIsFirst | app/register.tsx:22-48 | a reported message is that of a failing rule that every rule before it in running order passed (`oneOf` first, then the declared order) |
| YupRules.FirstFailureOfTwo | app/login.tsx:23-30 | for two chained rules, the first one that fails decides the message |
| YupRules.FirstFailureOfThree | app/register.tsx:31-35 | for three chained rules, the first one that fails decides the message |
| AppLogin.Validate | app/login.tsx:22-31 | the user name passes iff it is at least 3 UTF-16 code units long, the password iff at least 4; the messages say "required" for empty and "at least" for short |
| AppLogin.Submit | app/login.tsx:56-62 | nothing happens on invalid data; otherwise the error is cleared, login is dispatched with the two fields unchanged, and the tabs are opened only when login is fulfilled, after the clear |
| AppRegister.Validate | app/register.tsx:22-48 | names need at least 2 UTF-16 code units, the user name at least 3 of letters, digits or underscores, the e-mail non-empty and accepted by yup, the password at least 6, the confirmation non-empty and equal to the password |
| AppRegister.UsernameMessages | app/register.tsx:31-35 | "a b" gets the character-class message, "a!" the length message |
| AppRegister.ConfirmMessages | app/register.tsx:44-47 | `oneOf` is checked before `required`: an empty confirmation of a set password shows "Passwords must match", and "Please confirm your password" shows only when both are empty |
| AppRegister.PayloadOf | app/register.tsx:85-91 | the payload copies first name, last name, user name, e-mail and password and drops the confirmation |
| AppRegister.Submit | app/register.tsx:82-96 | nothing happens on invalid data; otherwise the error is cleared, registration is dispatched with the payload, and the tabs are opened only when it is fulfilled |
| SearchScreen.FilteredResults | components/ui/SearchScreen.tsx:52-57 | an empty query returns the results unchanged; any other keeps exactly the items whose lower-cased title or description contains the lower-cased query; always an order-preserving subsequence; it is a `Filter`, so `Seqs.FilterMultiplicity` gives each kept value its full count |
| SearchScreen.ActiveFilterIgnored | components/ui/SearchScreen.tsx:52-57 | the selected chip does not change the results |
| SearchScreen.QueryCaseIgnored | components/ui/SearchScreen.tsx:54-55 | the query's case does not change the results |
| SearchScreen.QueryMentionedByAll | components/ui/SearchScreen.tsx:52-57 | a query every item mentions keeps the whole list |
| SearchScreen.LowerKeepsBlank | components/ui/SearchScreen.tsx:54-55 | a blank in a text is still there once the text is lower-cased |
| SearchScreen.BlankQueryKeepsSpacedItems | components/ui/SearchScreen.tsx:52-57 | a one-blank query is searched for, keeping every item with a blank in its title or description |
| SearchScreen.BlankQueryIsSearched | components/ui/SearchScreen.tsx:25-57 | a one-blank query is not treated as empty: on the mock results it keeps all three |
| FavouritesScreen.WithoutItem | components/ui/FavouritesScreen.tsx:42-44 | the remaining items are exactly those with another id, in order; none has the id; an absent id changes nothing; it is a `Filter`, so `Seqs.FilterMultiplicity` gives each kept value its full count |
| FavouritesScreen.RemoveTwice | components/ui/FavouritesScreen.tsx:43 | removing the same id twice is removing it once |
| FavouritesScreen.RemoveKeepsOthers | components/ui/FavouritesScreen.tsx:43 | an item with another id survives the removal |
| FavouritesScreen.ItemWord | components/ui/FavouritesScreen.tsx:60 | "item" iff the count is 1, "items" otherwise |
| FavouritesScreen.FavouritesList.constructor | components/ui/FavouritesScreen.tsx:13-40 | the list starts with the three mock items |
| FavouritesScreen.FavouritesList.RemoveFavourite | components/ui/FavouritesScreen.tsx:42-44 | the new list is the old one without that id |
| FavouritesScreen.FavouritesList.HeaderWord | components/ui/FavouritesScreen.tsx:60 | the header says "item" iff exactly one item is saved, "items" otherwise |
| FavouritesScreen.FavouritesList.ShowsEmptyState | components/ui/FavouritesScreen.tsx:66 | the empty state shows iff the list is empty |
| FavouritesScreen.RemovingEveryMockLeavesEmptyState | components/ui/FavouritesScreen.tsx:42-66 | removing ids 1, 4 and 7 leaves the empty list, where the empty state shows |
| OnboardingScreen.Next | components/ui/OnboardingScreen.tsx:33-39 | Next moves to the following slide iff not on the last, and otherwise completes; it stays within the slides |
| OnboardingScreen.NextReachesEnd | components/ui/OnboardingScreen.tsx:33-39 | from any slide, Next reaches the last slide, and one more press completes |
| OnboardingScreen.ButtonLabel | components/ui/OnboardingScreen.tsx:99 | "Get Started" iff on the last slide, "Next" otherwise |
| OnboardingScreen.Onboarding.constructor | components/ui/OnboardingScreen.tsx:10 | the slide index starts at 0 |
| OnboardingScreen.Onboarding.HandleNext | components/ui/OnboardingScreen.tsx:33-39 | advances below the last slide; on the last it reports completion and keeps the index; the index stays in range |
| OnboardingScreen.Onboarding.Skip | components/ui/OnboardingScreen.tsx:47-49 | Skip completes from any slide |
| OnboardingScreen.Onboarding.SelectDot | components/ui/OnboardingScreen.tsx:80-83 | a dot sets the index to its own, which is in range |
| AppOnboarding.NextFrom | app/onboarding.tsx:43-53 | Next scrolls to the following slide iff not on the last, and leaves for login otherwise |
| AppOnboarding.NextLeadsToLogin | app/onboarding.tsx:43-53 | from any slide, Next reaches the last slide, and one more press leaves for login |
| AppOnboarding.ButtonLabel | app/onboarding.tsx:96 | "Get Started" iff on the last slide |
| AppOnboarding.LoginLink | app/onboarding.tsx:101-108 | the login link is shown only on the last slide, and pushes `/login` |
| AppOnboarding.Onboarding.ShownLoginLink | app/onboarding.tsx:101-108 | the screen shows the login link iff it is on the last slide, and the link pushes `/login` |
| AppOnboarding.Onboarding.constructor | app/onboarding.tsx:32 | the slide index starts at 0 |
| AppOnboarding.Onboarding.HandleScroll | app/onboarding.tsx:34-37 | the index becomes the slide scrolled to |
| AppOnboarding.Onboarding.HandleSkip | app/onboarding.tsx:39-41 | Skip always replaces the page with `/login` |
| AppOnboarding.Onboarding.HandleNext | app/onboarding.tsx:43-53 | below the last slide: scroll to and show the next one, without navigating; on the last: replace with `/login`, index unchanged |
| Details.StatusColor | app/details.tsx:19-30 | green for Active, Popular and Upcoming, grey for anything else |
| Details.EveryStatusIsGreen | app/details.tsx:19-30 | every status a route can have is green |
| Details.TypeIcon | app/details.tsx:32-43 | bus and train get their fa5 icon, destination the feather map-pin, anything else the feather circle |
| Details.EveryKindHasItsIcon | app/details.tsx:32-43 | no route type falls back to the circle |
| Details.IsFavourite | app/details.tsx:60-62 | true iff some favourite has the id |
| Details.ShowsSpinner | app/details.tsx:72 | the page replaces the spinner only when loading is over and a route is selected, so the details below always have a route |
| Details.PressFlipsHeart | app/details.tsx:64-68 | pressing the heart flips it for the route shown |
| Details.PressKeepsOtherHearts | app/details.tsx:64-68 | pressing the heart leaves every other route's heart as it was |
| Details.HandleFavouritePress | app/details.tsx:64-68 | toggles the shown route in the favourites, and does nothing without one |
| Details.Open | app/details.tsx:54-72 | with an id the route is fetched and the whole store state is stated: a catalogue id ends with that route selected, not loading and no error, so the spinner is gone; an unknown id ends not loading with "Route not found"; every list is unchanged in both cases; without an id nothing changes |

## Left out

- The authentication API and every axios call (services/api.ts:365-439), and the auth slice behind `login` and `register`: these are network I/O. Their outcome is a parameter (`loginFulfilled`, `registerFulfilled`).
- The `setTimeout` delays and the async thunk plumbing: only the state each settled request leaves is modelled. Requests that overlap are not modelled either.
- Persistence (store/index.ts, redux-persist, AsyncStorage), rendering, styles and map drawing: markers, polyline and the dark map style.
- Station coordinates are kept as real numbers. No arithmetic is done on them.
- Text.Lower: lower-cases ASCII letters only, not full Unicode `toLowerCase`.
- AppRegister.Validate: yup's own `.email()` test is library code whose pattern is not shown, so its verdict is the `emailAccepted` parameter.
- AppRegister.ConfirmMessages: that yup runs a `oneOf` whitelist before the declared tests, and stops when it fails, is library behaviour outside the repository; the rule lists encode it rather than derive it.
- AppOnboarding.Onboarding.HandleScroll: takes the slide index the scroll offset rounds to, so `Math.round(x / width)` and the pixel offset are not modelled. The index it sets is not checked against the slide count, as in the source.
- AppOnboarding.Onboarding.HandleNext: the pixel offset passed to `scrollTo` is given as the slide index.
- JourneyPlanner.MapScreen.SaveRoute: the "View Favourites" button of the "Route Saved!" alert (its push of `/(tabs)`) is not modelled; the alert is a returned value.
- The text-field change handlers only assign a field, so they are not modelled. Star filling with `Math.floor(rating)` and the component screens that only present data are not modelled either.
- TransportApi.SearchRoutes: a filter named like an `Object.prototype` property is modelled as leaving the list unchanged. The source throws a TypeError for it instead; see Findings.
- The engine's exact TypeError text is not modelled. It is a fixed string.

A note on unknown filters: `filterMap[filter]` yields `undefined` for a name the object literal lacks, and the `if (types)` guard (services/api.ts:342-345) then leaves the list unfiltered. A name that every object inherits, such as `toString`, is not `undefined`, and the search throws; that is the finding below.

## Findings

| source | as written | input that shows it | evidently intended | confidence | as-written member | corrected member |
|---|---|---|---|---|---|---|
| services/api.ts:342-345 | `filterMap[filter]` also finds names inherited from `Object.prototype`. The value found is truthy and has no `includes`, so `types.includes` throws and the search rejects | `searchRoutes('', 'toString')` on the non-empty catalogue | a name that is not one of the six keys keeps the list unfiltered, like any other unknown filter | not executed | TransportApi.InheritedFilterNameThrows | TransportApi.FilterStage |
