/**
 * The listings explorer (src/app/explore/page.tsx): a catalog of properties
 * narrowed by a category token, a search box whose text is held but never
 * applied, and a stats bar that counts premium listings.
 */
module Explore {
  import opened Filtering

  /** A listing; absent `isNew` and `isPremium` flags are `false`. */
  datatype Property = Property(
    id: string,
    title: string,
    location: string,
    price: int,
    images: seq<string>,
    beds: int,
    baths: real,
    sqft: int,
    propertyType: string,
    isNew: bool,
    isPremium: bool)

  const ALL: string := "all"
  const PREMIUM: string := "premium"

  /**
   * The category callback: the token is "all", or the token is "premium" and
   * the listing is flagged premium, or the listing's type equals the token.
   * The conjunction binds first, so the type test applies to "premium" too.
   */
  predicate Keeps(activeFilter: string, p: Property)
    ensures activeFilter == ALL ==> Keeps(activeFilter, p)
    ensures activeFilter == PREMIUM ==> (Keeps(activeFilter, p) <==> p.isPremium || p.propertyType == PREMIUM)
    ensures activeFilter != ALL && activeFilter != PREMIUM ==> (Keeps(activeFilter, p) <==> p.propertyType == activeFilter)
  {
    activeFilter == ALL || (activeFilter == PREMIUM && p.isPremium) || p.propertyType == activeFilter
  }

  function KeepsFor(activeFilter: string): Property -> bool
  {
    p => Keeps(activeFilter, p)
  }

  /** The explorer's local state: the selected category and the search text. */
  datatype ExploreState = ExploreState(activeFilter: string, searchQuery: string)

  const INITIAL_STATE := ExploreState(ALL, "")

  /** The listings the page renders for a state: only the category token takes part. */
  function FilteredProperties(properties: seq<Property>, state: ExploreState): (r: seq<Property>)
    ensures |r| <= |properties|
    ensures forall i :: 0 <= i < |r| ==> Keeps(state.activeFilter, r[i])
  {
    Filter(properties, KeepsFor(state.activeFilter))
  }

  /**
   * The stats bar's callback: a flagged listing also passes the "premium" token,
   * and an unflagged one passes that token only through its type.
   */
  function IsPremiumListing(p: Property): (b: bool)
    ensures b ==> Keeps(PREMIUM, p)
    ensures !b ==> (Keeps(PREMIUM, p) <==> p.propertyType == PREMIUM)
  {
    p.isPremium
  }

  /** The "Premium Listings" figure in the stats bar: the listings flagged premium. */
  function PremiumCount(properties: seq<Property>): (n: nat)
    ensures n <= |properties|
    ensures n == Count(properties, IsPremiumListing)
  {
    FilterLength(properties, IsPremiumListing);
    |Filter(properties, IsPremiumListing)|
  }

  /** Token "all" shows every listing, in catalog order; so does the page's initial state. */
  lemma AllShowsEverything(properties: seq<Property>, searchQuery: string)
    ensures FilteredProperties(properties, ExploreState(ALL, searchQuery)) == properties
    ensures FilteredProperties(properties, INITIAL_STATE) == properties
  {
    FilterAllPass(properties, KeepsFor(ALL));
  }

  /** Token "premium" keeps a listing iff it is flagged premium or its type is literally "premium". */
  lemma PremiumMembership(properties: seq<Property>, p: Property, searchQuery: string)
    ensures p in FilteredProperties(properties, ExploreState(PREMIUM, searchQuery))
        <==> p in properties && (p.isPremium || p.propertyType == PREMIUM)
  {
    Membership(properties, p, ExploreState(PREMIUM, searchQuery));
  }

  /** Any other token keeps a listing iff its type equals the token exactly, premium or not. */
  lemma CategoryMembership(properties: seq<Property>, p: Property, category: string, searchQuery: string)
    requires category != ALL && category != PREMIUM
    ensures p in FilteredProperties(properties, ExploreState(category, searchQuery))
        <==> p in properties && p.propertyType == category
  {
    Membership(properties, p, ExploreState(category, searchQuery));
  }

  /** A category token that no listing's type equals (matching is case-sensitive) shows nothing. */
  lemma UnmatchedCategoryShowsNothing(properties: seq<Property>, category: string, searchQuery: string)
    requires category != ALL && category != PREMIUM
    requires forall p :: p in properties ==> p.propertyType != category
    ensures FilteredProperties(properties, ExploreState(category, searchQuery)) == []
  {
    FilterNonePass(properties, KeepsFor(category));
  }

  /** Membership in the rendered list is membership in the catalog plus the callback. */
  lemma Membership(properties: seq<Property>, p: Property, state: ExploreState)
    ensures p in FilteredProperties(properties, state) <==> p in properties && Keeps(state.activeFilter, p)
  {
    FilterMembership(properties, KeepsFor(state.activeFilter));
  }

  /** The rendered list is an order-preserving subsequence of the catalog. */
  lemma FilteredIsSubsequence(properties: seq<Property>, state: ExploreState)
    ensures IsSubsequence(FilteredProperties(properties, state), properties)
  {
    FilterIsSubsequence(properties, KeepsFor(state.activeFilter));
  }

  /** The search text never changes what is rendered. */
  lemma SearchQueryIgnored(properties: seq<Property>, activeFilter: string, q1: string, q2: string)
    ensures FilteredProperties(properties, ExploreState(activeFilter, q1))
         == FilteredProperties(properties, ExploreState(activeFilter, q2))
  {
  }

  /**
   * When no listing has the literal type "premium", the stats-bar count equals
   * the number of listings shown under the "premium" token.
   */
  lemma PremiumCountMatchesPremiumFilter(properties: seq<Property>, searchQuery: string)
    requires forall p :: p in properties ==> p.propertyType != PREMIUM
    ensures PremiumCount(properties) == |FilteredProperties(properties, ExploreState(PREMIUM, searchQuery))|
  {
    FilterCongruent(properties, KeepsFor(PREMIUM), IsPremiumListing);
  }

  /** A listing whose type is "premium" but is not flagged premium still passes the "premium" token. */
  lemma PremiumTypeWithoutFlagPasses(p: Property)
    requires p.propertyType == PREMIUM && !p.isPremium
    ensures FilteredProperties([p], ExploreState(PREMIUM, "")) == [p]
    ensures PremiumCount([p]) == 0
  {
    FilterCons(p, [], KeepsFor(PREMIUM));
    FilterCons(p, [], IsPremiumListing);
    assert [p] + [] == [p];
  }

  // ---- The page's seed catalog ----

  const PENTHOUSE := Property("1", "Luxury Penthouse with Ocean View", "Banana Island, Ikoyi", 15000000,
    ["/luxury-penthouse.jpg"], 4, 4.5, 3200, "apartment", false, true)
  const VILLA := Property("2", "Modern Villa with Pool", "Lekki Phase 1", 8500000,
    ["/modern-villa.jpg"], 5, 5.0, 4500, "villa", true, false)
  const STUDIO := Property("3", "Cozy Studio Apartment", "Victoria Island", 2500000,
    ["/studio-apt.jpg"], 1, 1.0, 650, "apartment", false, false)
  const DUPLEX := Property("4", "Waterfront Duplex", "Osborne, Ikoyi", 12000000,
    ["/waterfront-duplex.jpg"], 4, 4.0, 3800, "duplex", false, true)

  const SEED_PROPERTIES: seq<Property> := [PENTHOUSE, VILLA, STUDIO, DUPLEX]

  lemma SeedCatalogFiltered(activeFilter: string)
    ensures FilteredProperties(SEED_PROPERTIES, ExploreState(activeFilter, ""))
         == (if Keeps(activeFilter, PENTHOUSE) then [PENTHOUSE] else [])
          + (if Keeps(activeFilter, VILLA) then [VILLA] else [])
          + (if Keeps(activeFilter, STUDIO) then [STUDIO] else [])
          + (if Keeps(activeFilter, DUPLEX) then [DUPLEX] else [])
  {
    FilterFour(PENTHOUSE, VILLA, STUDIO, DUPLEX, KeepsFor(activeFilter));
  }

  /**
   * On the seed catalog: "premium" shows the two flagged listings whatever
   * their type, "duplex" shows the premium duplex, matching is case-sensitive,
   * and the stats bar counts two premium listings.
   */
  lemma SeedCatalogCategories()
    ensures FilteredProperties(SEED_PROPERTIES, ExploreState(PREMIUM, "")) == [PENTHOUSE, DUPLEX]
    ensures FilteredProperties(SEED_PROPERTIES, ExploreState("duplex", "")) == [DUPLEX]
    ensures FilteredProperties(SEED_PROPERTIES, ExploreState("apartment", "")) == [PENTHOUSE, STUDIO]
    ensures FilteredProperties(SEED_PROPERTIES, ExploreState("Apartment", "")) == []
    ensures PremiumCount(SEED_PROPERTIES) == 2
  {
    SeedCatalogFiltered(PREMIUM);
    SeedCatalogFiltered("duplex");
    SeedCatalogFiltered("apartment");
    SeedCatalogFiltered("Apartment");
    PremiumCountMatchesPremiumFilter(SEED_PROPERTIES, "");
  }
}
