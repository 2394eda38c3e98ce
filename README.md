# rentAi front end — a Dafny model of its page logic

The rentAi site is a property-rental front end for Lagos. Its pages render
hard-coded catalogs, and the only logic in them is a few small rules held in
page state. This project models those rules and proves properties about them:

- **Neighborhood browser** (`Neighborhoods`). The catalog is filtered by a
  price-range token (`all`, `under-5m`, `5m-10m`, `above-10m`) tested against
  `stats.avgPrice`. It is also filtered by an amenity token, tested by exact
  membership in `amenities`. The page's early-return callback (`Keeps`) is
  proved equal to a reference reading: price buckets (`InBucket`,
  `SelectedBucket`) AND amenity membership.
- **Listings explorer** (`Explore`). Listings are filtered by a category token,
  and the stats bar shows a premium count. The search text is held in state but
  is never used.
- **Saved homes** (`Saved`). The page holds a list of saved listings
  (`SavedHomesPage.savedHomes`). `removeSavedHome` replaces it with the same list
  minus every listing with the given id (`WithoutId`). The page renders a count
  and either cards or an empty state (`View`).
- **Landing search box** (`Landing`). The `Home` component holds a query, focus
  and fullscreen flags, a stay-type tab and a suggestion index. A timer advances
  the index while the box is focused and empty. Each state change is defined
  once, as a pure step `Next` over a `SearchState` value. Each handler of the
  class `Home` updates its fields in place and is proved to perform exactly one
  `Next` step.

Three of the four pages filter with `Array.prototype.filter`: the neighborhood
browser (src/app/neighborhoods/page.tsx:110), the explorer
(src/app/explore/page.tsx:85 and 98) and the saved-homes page
(src/app/saved/page.tsx:41). It is modelled once, as `Filtering.Filter`, with
its laws: the result is a subsequence of the input, membership is exact, the
filter is idempotent, and filtering by a conjunction equals filtering twice.
The landing page has no filter.

The explorer's "premium" token is not the same test as its stats bar. The
category pill for it is labelled "Premium" (src/app/explore/page.tsx:82), and
the stats bar counts the listings with `isPremium` set and nothing else
(line 98). The filter callback at lines 86-88 keeps a listing under "premium"
when it has `isPremium` set **or** its `type` is literally `"premium"`, because
the conjunction groups before the disjunction. The model follows the callback
as written. `Explore.PremiumTypeWithoutFlagPasses` exhibits a listing that is
shown under "premium" but not counted. The two agree when no listing has type
`"premium"`, which holds for the seed catalog
(`Explore.PremiumCountMatchesPremiumFilter`).

The window width is passed to the focus and container-tap handlers as a
parameter. The 3000 ms interval is an abstract `IntervalTick` event, or the
`Home.Tick` method.

## Model

| member | source | states |
|---|---|---|
| `Filtering.Filter` | src/app/neighborhoods/page.tsx:110 | `Array.filter`: the result is never longer than the input, and every kept element satisfies the callback |
| `Filtering.FilterIsSubsequence` | src/app/explore/page.tsx:85 | a filter result is an order-preserving subsequence of its input |
| `Filtering.FilterMembership` | src/app/saved/page.tsx:41 | an element is kept iff it occurs in the input and satisfies the callback |
| `Filtering.FilterLength` | src/app/explore/page.tsx:98 | the length of a filter result is the number of input elements that satisfy the callback |
| `Neighborhoods.SelectedBucket` | src/app/neighborhoods/page.tsx:40-45 | a price-range token selects a bucket iff it is one of the three bucket ids |
| `Neighborhoods.BucketsPartition` | src/app/neighborhoods/page.tsx:111-113 | each integer price lies in exactly one of under-5M, 5M–10M and above-10M |
| `Neighborhoods.Keeps` | src/app/neighborhoods/page.tsx:111-115 | the early-return callback keeps a record iff every test its tokens switch on passes: below 5,000,000 for "under-5m", 5,000,000 to 10,000,000 for "5m-10m", above 10,000,000 for "above-10m", and the exact amenity for any amenity token other than "all" |
| `Neighborhoods.KeepsIsConjunction` | src/app/neighborhoods/page.tsx:110-116 | the early-return callback keeps a record iff its price is in the selected bucket (none for "all" or an unknown token) AND the amenity token is "all" or in its amenities |
| `Neighborhoods.FilteredNeighborhoods` | src/app/neighborhoods/page.tsx:110-116 | every record shown satisfies the price-bucket and amenity tests; the list is no longer than the catalog |
| `Neighborhoods.Membership` | src/app/neighborhoods/page.tsx:110-116 | a record is shown iff it is in the catalog and passes both tests |
| `Neighborhoods.FilteredIsSubsequence` | src/app/neighborhoods/page.tsx:110 | the shown list is an order-preserving subsequence of the catalog |
| `Neighborhoods.AllTokensKeepEverything` | src/app/neighborhoods/page.tsx:110-116 | with price "all" and amenity "all" the shown list is the catalog, in order |
| `Neighborhoods.FilterTwiceIsFilterOnce` | src/app/neighborhoods/page.tsx:110 | filtering the shown list again with the same tokens gives the same list |
| `Neighborhoods.UnderFiveMillionExact` | src/app/neighborhoods/page.tsx:111 | "under-5m" keeps exactly the records priced below 5,000,000; 5,000,000 itself is excluded |
| `Neighborhoods.FiveToTenMillionExact` | src/app/neighborhoods/page.tsx:112 | "5m-10m" keeps exactly the records priced from 5,000,000 to 10,000,000, both ends included |
| `Neighborhoods.AboveTenMillionExact` | src/app/neighborhoods/page.tsx:113 | "above-10m" keeps exactly the records priced above 10,000,000; 10,000,000 itself is excluded |
| `Neighborhoods.AmenityExactMembership` | src/app/neighborhoods/page.tsx:114 | a non-"all" amenity token keeps a record iff that exact string is in its amenities, ANDed with the price test |
| `Neighborhoods.UnknownPriceTokenIgnored` | src/app/neighborhoods/page.tsx:111-115 | a price token outside the three bucket ids gives the same list as "all" |
| `Neighborhoods.PriceThenAmenity` | src/app/neighborhoods/page.tsx:110-116 | the page's filter equals filtering by price, then by amenity |
| `Neighborhoods.SeedCatalogFiltered` | src/app/neighborhoods/page.tsx:56-116 | the seed catalog filtered by any tokens is its records that pass, in catalog order |
| `Neighborhoods.SeedCatalogBoundaries` | src/app/neighborhoods/page.tsx:56-116 | on the seed catalog, Lekki Phase 1 at exactly 5,000,000 is in "5m-10m" and not in "under-5m"; "Schools" does not match Ikoyi's "Private Schools" |
| `Explore.Keeps` | src/app/explore/page.tsx:86-88 | the category callback keeps every listing under "all"; under "premium" a listing flagged premium or of type "premium"; under any other token a listing whose type equals it |
| `Explore.IsPremiumListing` | src/app/explore/page.tsx:98 | the stats-bar callback: a listing it counts also passes the "premium" token, and an uncounted one passes that token only if its type is "premium" |
| `Explore.FilteredProperties` | src/app/explore/page.tsx:85-89 | every listing shown passes the category callback; the list is no longer than the catalog |
| `Explore.PremiumCount` | src/app/explore/page.tsx:98 | the stats-bar premium figure is the number of listings flagged premium, at most the catalog size |
| `Explore.Membership` | src/app/explore/page.tsx:85-89 | a listing is shown iff it is in the catalog and passes the category callback |
| `Explore.FilteredIsSubsequence` | src/app/explore/page.tsx:85 | the shown list is an order-preserving subsequence of the catalog |
| `Explore.AllShowsEverything` | src/app/explore/page.tsx:23-86 | token "all", which is the initial state, shows every listing, in order |
| `Explore.PremiumMembership` | src/app/explore/page.tsx:87-88 | token "premium" shows a listing iff it is flagged premium or its type is "premium" |
| `Explore.UnmatchedCategoryShowsNothing` | src/app/explore/page.tsx:88 | a token other than "all" and "premium" that equals no listing's type exactly shows an empty list |
| `Explore.CategoryMembership` | src/app/explore/page.tsx:88 | any other token c shows a listing iff its type equals c exactly, whether or not it is premium |
| `Explore.SearchQueryIgnored` | src/app/explore/page.tsx:85-89 | the search text held at line 24 never changes the shown list |
| `Explore.PremiumCountMatchesPremiumFilter` | src/app/explore/page.tsx:85-98 | when no listing has type "premium", the premium count equals the length of the "premium" list |
| `Explore.PremiumTypeWithoutFlagPasses` | src/app/explore/page.tsx:87-88 | a listing of type "premium" without the flag is shown under "premium" but not counted as premium |
| `Explore.SeedCatalogFiltered` | src/app/explore/page.tsx:26-89 | the seed catalog filtered by a token is its passing listings, in catalog order |
| `Explore.SeedCatalogCategories` | src/app/explore/page.tsx:26-98 | on the seed catalog: "premium" shows the penthouse and the duplex, "duplex" shows the premium duplex, "Apartment" shows nothing, and the premium count is 2 |
| `Saved.WithoutId` | src/app/saved/page.tsx:40-42 | after removal no listing has the removed id, and the list is no longer |
| `Saved.RemoveKeepsOthers` | src/app/saved/page.tsx:41 | the survivors are exactly the listings with another id, unchanged, in their original order, and there are as many as the input holds listings with another id |
| `Saved.RemoveAbsentIsNoOp` | src/app/saved/page.tsx:41 | removing an id that no listing has leaves the list unchanged |
| `Saved.RemoveTwiceIsRemoveOnce` | src/app/saved/page.tsx:41 | removing the same id twice equals removing it once |
| `Saved.RemovalsCommute` | src/app/saved/page.tsx:41 | two removals give the same list in either order |
| `Saved.RemovePresentDropsOne` | src/app/saved/page.tsx:41 | with unique ids, removing a present id shortens the list by exactly one |
| `Saved.RemoveKeepsUniqueIds` | src/app/saved/page.tsx:41 | removal keeps ids unique |
| `Saved.View` | src/app/saved/page.tsx:56-94 | the header count is the list length; the empty state is shown iff the list is empty; otherwise the cards are the list |
| `Saved.RemovingLastShowsEmptyState` | src/app/saved/page.tsx:40-94 | removing the only saved listing gives count 0 and the empty state |
| `Saved.SavedHomesPage.constructor` | src/app/saved/page.tsx:23-38 | the page starts with the seed list, whose ids are unique |
| `Saved.SavedHomesPage.CurrentView` | src/app/saved/page.tsx:56-63 | the rendered count is the held list's length; the empty state is shown iff the list is empty |
| `Saved.SavedHomesPage.RemoveSavedHome` | src/app/saved/page.tsx:40-42 | the held list becomes `WithoutId` of the old list; unique ids stay unique; a present id shortens it by one; an absent id changes nothing |
| `Landing.Suggestions` | src/app/page.tsx:15-28 | each tab has four suggestions, none empty |
| `Landing.Next` | src/app/page.tsx:41-48 | every event keeps the suggestion index inside the active tab's list |
| `Landing.Ticks` | src/app/page.tsx:41-48 | any number of ticks keeps the index inside the active tab's list |
| `Landing.TickAdvances` | src/app/page.tsx:44 | a tick while focused with an empty query sets the index to (index + 1) mod 4 and changes nothing else |
| `Landing.TickIdleIsNoOp` | src/app/page.tsx:42 | a tick changes nothing unless the box is focused and the query is empty |
| `Landing.TicksAdvanceBy` | src/app/page.tsx:41-48 | while focused and empty, n ticks add n to the index modulo 4 and change nothing else |
| `Landing.TicksFromZero` | src/app/page.tsx:10-44 | from index 0, focused with an empty query, n ticks give index n mod 4 |
| `Landing.SuggestionClickStopsCycling` | src/app/page.tsx:319-320 | clicking the shown suggestion makes it the query; the query is then non-empty and further ticks change nothing |
| `Landing.TabSwitchKeepsIndex` | src/app/page.tsx:148-171 | switching tabs changes only the tab; the index is kept and stays in range because both lists have length 4 |
| `Landing.FocusRule` | src/app/page.tsx:92-97 | focus sets `isFocused`; fullscreen is set afterwards iff the width is below 640 or it was already set |
| `Landing.BlurRule` | src/app/page.tsx:99-103 | after a blur the box is focused iff it was focused and in fullscreen search; in fullscreen, blur changes nothing |
| `Landing.CloseRule` | src/app/page.tsx:189-192 | the close button clears both `isFullscreenSearch` and `isFocused`, which stops the cycling |
| `Landing.CyclingTransitions` | src/app/page.tsx:41-48 | focusing an empty box starts cycling; a non-empty query or a blur outside fullscreen stops it |
| `Landing.Home.constructor` | src/app/page.tsx:8-12 | initial state: empty query, unfocused, index 0, rental tab, not fullscreen |
| `Landing.Home.Tick` | src/app/page.tsx:41-48 | the interval callback is one `Next` tick step: (index + 1) mod list length while focused and empty, otherwise no change |
| `Landing.Home.HandleSearchFocus` | src/app/page.tsx:92-97 | `handleSearchFocus` is one `Next` focus step |
| `Landing.Home.HandleSearchBlur` | src/app/page.tsx:99-103 | `handleSearchBlur` is one `Next` blur step |
| `Landing.Home.CloseFullscreenSearch` | src/app/page.tsx:189-192 | the close button is one `Next` close step |
| `Landing.Home.TapSearchContainer` | src/app/page.tsx:280-282 | the container click opens fullscreen search only outside it and below width 640 |
| `Landing.Home.SetQuery` | src/app/page.tsx:290-292 | a textarea change sets the query and nothing else |
| `Landing.Home.ClickCurrentSuggestion` | src/app/page.tsx:319-320 | the shown suggestion becomes the query, which is then non-empty |
| `Landing.Home.ChooseListedSuggestion` | src/app/page.tsx:246-250 | a listed suggestion in the fullscreen overlay becomes the query, which is then non-empty |
| `Landing.Home.SetActiveTab` | src/app/page.tsx:148-163 | a stay-type button changes only the tab |

## Left out

- Rendering, animation variants and styling (JSX, framer-motion, Tailwind classes and `tailwind.config.js`): presentation only.
- `src/components/Navbar.tsx`, `src/components/Footer.tsx`, `src/app/layout.tsx` and `src/app/properties/page.tsx` are not part of this model. They hold static link tables, layout and a literal catalog, with only menu-open and hover toggles as state.
- `src/components/MapView.tsx` and `src/components/SearchBox.tsx` are not part of this model. The first only logs its props; the second's submit handler is a logging stub.
- The neighborhood page's view toggle, selected area and filter-panel toggle (`isMapView`, `selectedArea`, `isFilterOpen`), and every card's hover flag: they select what is drawn and do not affect any list.
- Real timers: `setInterval`/`clearInterval` and the 3000 ms period are replaced by an abstract tick. The restart of the interval when focus, query or tab changes is not modelled.
- The textarea auto-resize and the window resize/scroll handler (src/app/page.tsx:50-69): DOM plumbing with no state of the component.
- Number and date formatting (`toFixed`, `toLocaleString`, `toLocaleDateString`): floating point and locale libraries. Fractional fields (`baths`, `rating`, coordinates) are carried as `real` and never computed on.
- React's batching of state updates: each handler is modelled as applying its updates at once, which gives the same final state for these handlers.
- `Landing.Home.ChooseListedSuggestion` requires the position to be inside the active list, because the overlay renders one button per listed suggestion and no others.
