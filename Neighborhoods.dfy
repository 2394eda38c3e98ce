/**
 * The neighborhood browser (src/app/neighborhoods/page.tsx): a catalog of
 * neighborhoods narrowed by a price-range token and an amenity token.
 */
module Neighborhoods {
  import opened Filtering

  datatype Stats = Stats(avgPrice: int, properties: int, rating: real)

  datatype Coordinates = Coordinates(lat: real, lng: real)

  /** A neighborhood record; an absent `trending` flag is `false`. */
  datatype Neighborhood = Neighborhood(
    id: string,
    name: string,
    description: string,
    image: string,
    stats: Stats,
    features: seq<string>,
    trending: bool,
    coordinates: Coordinates,
    amenities: seq<string>,
    schools: int,
    safety: int)

  // Price-range tokens offered by the filter panel, and the amenity token that disables the amenity test.
  const ALL: string := "all"
  const UNDER_5M: string := "under-5m"
  const FROM_5M_TO_10M: string := "5m-10m"
  const ABOVE_10M: string := "above-10m"

  const FIVE_MILLION: int := 5000000
  const TEN_MILLION: int := 10000000

  /**
   * The page's filter callback, one early return per test: a price-range
   * token other than the three bucket ids falls through every price test.
   * A record is kept iff every test its tokens switch on passes.
   */
  predicate Keeps(priceRange: string, amenityFilter: string, n: Neighborhood)
    ensures Keeps(priceRange, amenityFilter, n) <==>
      (priceRange == UNDER_5M ==> n.stats.avgPrice < FIVE_MILLION)
      && (priceRange == FROM_5M_TO_10M ==> FIVE_MILLION <= n.stats.avgPrice <= TEN_MILLION)
      && (priceRange == ABOVE_10M ==> n.stats.avgPrice > TEN_MILLION)
      && (amenityFilter != ALL ==> amenityFilter in n.amenities)
  {
    if priceRange == UNDER_5M && n.stats.avgPrice >= FIVE_MILLION then false
    else if priceRange == FROM_5M_TO_10M
            && (n.stats.avgPrice < FIVE_MILLION || n.stats.avgPrice > TEN_MILLION) then false
    else if priceRange == ABOVE_10M && n.stats.avgPrice <= TEN_MILLION then false
    else if amenityFilter != ALL && amenityFilter !in n.amenities then false
    else true
  }

  // ---- Reference reading of the filter: buckets and set membership ----

  datatype PriceBucket = Under5M | From5MTo10M | Above10M

  datatype Option<T> = None | Some(value: T)

  /** The bucket a price-range token selects; "all" and unknown tokens select none. */
  function SelectedBucket(priceRange: string): (b: Option<PriceBucket>)
    ensures b.Some? <==> priceRange in {UNDER_5M, FROM_5M_TO_10M, ABOVE_10M}
  {
    if priceRange == UNDER_5M then Some(Under5M)
    else if priceRange == FROM_5M_TO_10M then Some(From5MTo10M)
    else if priceRange == ABOVE_10M then Some(Above10M)
    else None
  }

  predicate InBucket(price: int, b: PriceBucket)
  {
    match b
    case Under5M => price < FIVE_MILLION
    case From5MTo10M => FIVE_MILLION <= price <= TEN_MILLION
    case Above10M => TEN_MILLION < price
  }

  predicate PriceAdmits(priceRange: string, price: int)
  {
    match SelectedBucket(priceRange)
    case None => true
    case Some(b) => InBucket(price, b)
  }

  predicate AmenityAdmits(amenityFilter: string, amenities: seq<string>)
  {
    amenityFilter == ALL || amenityFilter in amenities
  }

  /** The three buckets partition the integers: every price lies in exactly one. */
  lemma BucketsPartition(price: int)
    ensures InBucket(price, Under5M) || InBucket(price, From5MTo10M) || InBucket(price, Above10M)
    ensures !(InBucket(price, Under5M) && InBucket(price, From5MTo10M))
    ensures !(InBucket(price, Under5M) && InBucket(price, Above10M))
    ensures !(InBucket(price, From5MTo10M) && InBucket(price, Above10M))
  {
  }

  /** The early-return callback is the conjunction of the price test and the amenity test. */
  lemma KeepsIsConjunction(priceRange: string, amenityFilter: string, n: Neighborhood)
    ensures Keeps(priceRange, amenityFilter, n)
        <==> PriceAdmits(priceRange, n.stats.avgPrice) && AmenityAdmits(amenityFilter, n.amenities)
  {
  }

  // ---- The filtered list the page renders ----

  /** The callback handed to the list filter for the current pair of tokens. */
  function KeepsFor(priceRange: string, amenityFilter: string): Neighborhood -> bool
  {
    n => Keeps(priceRange, amenityFilter, n)
  }

  function FilteredNeighborhoods(neighborhoods: seq<Neighborhood>, priceRange: string, amenityFilter: string)
    : (r: seq<Neighborhood>)
    ensures |r| <= |neighborhoods|
    ensures forall i :: 0 <= i < |r| ==>
              PriceAdmits(priceRange, r[i].stats.avgPrice) && AmenityAdmits(amenityFilter, r[i].amenities)
  {
    Filter(neighborhoods, KeepsFor(priceRange, amenityFilter))
  }

  /** With both tokens at "all" the page shows the whole catalog, in order. */
  lemma AllTokensKeepEverything(neighborhoods: seq<Neighborhood>)
    ensures FilteredNeighborhoods(neighborhoods, ALL, ALL) == neighborhoods
  {
    FilterAllPass(neighborhoods, KeepsFor(ALL, ALL));
  }

  /** Filtering the filtered list again with the same tokens changes nothing. */
  lemma FilterTwiceIsFilterOnce(neighborhoods: seq<Neighborhood>, priceRange: string, amenityFilter: string)
    ensures FilteredNeighborhoods(FilteredNeighborhoods(neighborhoods, priceRange, amenityFilter), priceRange, amenityFilter)
         == FilteredNeighborhoods(neighborhoods, priceRange, amenityFilter)
  {
    FilterIdempotent(neighborhoods, KeepsFor(priceRange, amenityFilter));
  }

  /** "under-5m" keeps exactly the prices strictly below 5,000,000. */
  lemma UnderFiveMillionExact(neighborhoods: seq<Neighborhood>, n: Neighborhood)
    ensures n in FilteredNeighborhoods(neighborhoods, UNDER_5M, ALL)
        <==> n in neighborhoods && n.stats.avgPrice < FIVE_MILLION
  {
    Membership(neighborhoods, n, UNDER_5M, ALL);
  }

  /** "5m-10m" keeps exactly the prices from 5,000,000 to 10,000,000, both ends included. */
  lemma FiveToTenMillionExact(neighborhoods: seq<Neighborhood>, n: Neighborhood)
    ensures n in FilteredNeighborhoods(neighborhoods, FROM_5M_TO_10M, ALL)
        <==> n in neighborhoods && FIVE_MILLION <= n.stats.avgPrice <= TEN_MILLION
  {
    Membership(neighborhoods, n, FROM_5M_TO_10M, ALL);
  }

  /** "above-10m" keeps exactly the prices strictly above 10,000,000. */
  lemma AboveTenMillionExact(neighborhoods: seq<Neighborhood>, n: Neighborhood)
    ensures n in FilteredNeighborhoods(neighborhoods, ABOVE_10M, ALL)
        <==> n in neighborhoods && n.stats.avgPrice > TEN_MILLION
  {
    Membership(neighborhoods, n, ABOVE_10M, ALL);
  }

  /** A non-"all" amenity token keeps a record iff its amenity list holds that exact string, and the price test still applies. */
  lemma AmenityExactMembership(neighborhoods: seq<Neighborhood>, n: Neighborhood, priceRange: string, amenity: string)
    requires amenity != ALL
    ensures n in FilteredNeighborhoods(neighborhoods, priceRange, amenity)
        <==> n in neighborhoods && amenity in n.amenities && PriceAdmits(priceRange, n.stats.avgPrice)
  {
    Membership(neighborhoods, n, priceRange, amenity);
  }

  /** Membership in the filtered list, stated with the reference predicates. */
  lemma Membership(neighborhoods: seq<Neighborhood>, n: Neighborhood, priceRange: string, amenityFilter: string)
    ensures n in FilteredNeighborhoods(neighborhoods, priceRange, amenityFilter)
        <==> n in neighborhoods && PriceAdmits(priceRange, n.stats.avgPrice) && AmenityAdmits(amenityFilter, n.amenities)
  {
    FilterMembership(neighborhoods, KeepsFor(priceRange, amenityFilter));
    KeepsIsConjunction(priceRange, amenityFilter, n);
  }

  /** The filtered list is an order-preserving subsequence of the catalog. */
  lemma FilteredIsSubsequence(neighborhoods: seq<Neighborhood>, priceRange: string, amenityFilter: string)
    ensures IsSubsequence(FilteredNeighborhoods(neighborhoods, priceRange, amenityFilter), neighborhoods)
  {
    FilterIsSubsequence(neighborhoods, KeepsFor(priceRange, amenityFilter));
  }

  /** A price-range token that is none of the bucket ids imposes no price constraint at all. */
  lemma UnknownPriceTokenIgnored(neighborhoods: seq<Neighborhood>, priceRange: string, amenityFilter: string)
    requires priceRange !in {UNDER_5M, FROM_5M_TO_10M, ABOVE_10M}
    ensures FilteredNeighborhoods(neighborhoods, priceRange, amenityFilter)
         == FilteredNeighborhoods(neighborhoods, ALL, amenityFilter)
  {
    FilterCongruent(neighborhoods, KeepsFor(priceRange, amenityFilter), KeepsFor(ALL, amenityFilter));
  }

  /** The page's filter is the price filter followed by the amenity filter. */
  lemma PriceThenAmenity(neighborhoods: seq<Neighborhood>, priceRange: string, amenityFilter: string)
    ensures FilteredNeighborhoods(neighborhoods, priceRange, amenityFilter)
         == Filter(Filter(neighborhoods, (n: Neighborhood) => PriceAdmits(priceRange, n.stats.avgPrice)),
                   (n: Neighborhood) => AmenityAdmits(amenityFilter, n.amenities))
  {
    FilterConjunction(neighborhoods,
      (n: Neighborhood) => PriceAdmits(priceRange, n.stats.avgPrice),
      (n: Neighborhood) => AmenityAdmits(amenityFilter, n.amenities),
      KeepsFor(priceRange, amenityFilter));
  }

  // ---- The page's seed catalog ----

  const IKOYI := Neighborhood(
    "ikoyi", "Ikoyi",
    "Luxurious residential area with waterfront properties and upscale amenities", "/ikoyi.jpg",
    Stats(12000000, 150, 4.8),
    ["Waterfront Views", "Luxury Homes", "Private Schools", "Golf Clubs"], true,
    Coordinates(6.5244, 3.3792),
    ["Waterfront", "Luxury Homes", "Private Schools", "Golf Clubs"], 5, 4)

  const VICTORIA_ISLAND := Neighborhood(
    "vi", "Victoria Island",
    "Prime business district with modern apartments and vibrant nightlife", "/vi.jpg",
    Stats(8500000, 200, 4.6),
    ["Beach Access", "Shopping Malls", "Restaurants", "Nightlife"], false,
    Coordinates(6.5244, 3.3792),
    ["Beach Access", "Shopping Malls", "Restaurants", "Nightlife"], 3, 5)

  const LEKKI_PHASE_1 := Neighborhood(
    "lekki1", "Lekki Phase 1",
    "Modern residential area with excellent infrastructure and family-friendly environment", "/lekki.jpg",
    Stats(5000000, 300, 4.5),
    ["Gated Estates", "Modern Infrastructure", "Schools", "Shopping Centers"], true,
    Coordinates(6.5244, 3.3792),
    ["Gated Estates", "Modern Infrastructure", "Schools", "Shopping Centers"], 4, 3)

  const SEED_NEIGHBORHOODS: seq<Neighborhood> := [IKOYI, VICTORIA_ISLAND, LEKKI_PHASE_1]

  /** The seed catalog filtered by any pair of tokens, one record at a time. */
  lemma SeedCatalogFiltered(priceRange: string, amenityFilter: string)
    ensures FilteredNeighborhoods(SEED_NEIGHBORHOODS, priceRange, amenityFilter)
         == (if Keeps(priceRange, amenityFilter, IKOYI) then [IKOYI] else [])
          + (if Keeps(priceRange, amenityFilter, VICTORIA_ISLAND) then [VICTORIA_ISLAND] else [])
          + (if Keeps(priceRange, amenityFilter, LEKKI_PHASE_1) then [LEKKI_PHASE_1] else [])
  {
    var p := KeepsFor(priceRange, amenityFilter);
    FilterCons(IKOYI, [VICTORIA_ISLAND, LEKKI_PHASE_1], p);
    FilterCons(VICTORIA_ISLAND, [LEKKI_PHASE_1], p);
    FilterCons(LEKKI_PHASE_1, [], p);
  }

  /**
   * On the seed catalog: Lekki Phase 1, priced at exactly 5,000,000, falls in
   * "5m-10m" and not in "under-5m"; and the amenity "Schools" does not match
   * Ikoyi's "Private Schools".
   */
  lemma SeedCatalogBoundaries()
    ensures FilteredNeighborhoods(SEED_NEIGHBORHOODS, UNDER_5M, ALL) == []
    ensures FilteredNeighborhoods(SEED_NEIGHBORHOODS, FROM_5M_TO_10M, ALL) == [VICTORIA_ISLAND, LEKKI_PHASE_1]
    ensures FilteredNeighborhoods(SEED_NEIGHBORHOODS, ABOVE_10M, ALL) == [IKOYI]
    ensures FilteredNeighborhoods(SEED_NEIGHBORHOODS, ALL, "Schools") == [LEKKI_PHASE_1]
    ensures FilteredNeighborhoods(SEED_NEIGHBORHOODS, FROM_5M_TO_10M, "Schools") == [LEKKI_PHASE_1]
  {
    SeedCatalogFiltered(UNDER_5M, ALL);
    SeedCatalogFiltered(FROM_5M_TO_10M, ALL);
    SeedCatalogFiltered(ABOVE_10M, ALL);
    SeedCatalogFiltered(ALL, "Schools");
    SeedCatalogFiltered(FROM_5M_TO_10M, "Schools");
    assert "Schools" !in IKOYI.amenities;
    assert "Schools" !in VICTORIA_ISLAND.amenities;
    assert "Schools" == LEKKI_PHASE_1.amenities[2];
  }
}
