/**
 * The product-listing query engine of js/products.js: `applyFilters` keeps the
 * catalog records that pass the category, price and search tests, applies the
 * chosen sort and resets the page to 1; `renderProducts` shows an 8-record slice;
 * `renderPagination` and `goToPage` work with `ceil(n / 8)` pages.
 */
module Listing {
  import opened Wrappers
  import opened Seqs
  import opened Catalog
  import opened Sorting

  const PRODUCTS_PER_PAGE: nat := 8
  /** The price bound used when the page has no price slider. */
  const DEFAULT_MAX_PRICE: int := 15000

  /** What `applyFilters` reads from the page. Strings use "" for "absent or empty":
      the `#productSearch` box, the `search` and `cat` URL parameters; `checked` is the
      values of the ticked category boxes; the price slider and the sort select may be
      missing from the page. */
  datatype FilterInput = FilterInput(searchBox: string, searchParam: string, catParam: string,
                                     checked: seq<string>, priceRange: Option<int>,
                                     sortSelect: Option<string>)

  /** `toLowerCase` on one character (ASCII letters). */
  function LowerChar(c: char): char
  {
    if 'A' <= c <= 'Z' then (c as int + 32) as char else c
  }

  function Lower(s: string): (r: string)
    ensures |r| == |s|
    ensures forall i :: 0 <= i < |s| ==> r[i] == LowerChar(s[i])
  {
    seq(|s|, i requires 0 <= i < |s| => LowerChar(s[i]))
  }

  /** `haystack.includes(needle)`. */
  predicate Contains(haystack: string, needle: string): (r: bool)
    ensures needle == "" ==> OccursAt(haystack, needle, 0) && r
    ensures r ==> |needle| <= |haystack|
    ensures forall i :: OccursAt(haystack, needle, i) ==> r
  {
    assert needle == "" ==> haystack[0..0] == needle && OccursAt(haystack, needle, 0);
    exists i | 0 <= i <= |haystack| - |needle| :: OccursAt(haystack, needle, i)
  }

  predicate OccursAt(haystack: string, needle: string, i: int)
  {
    0 <= i <= |haystack| - |needle| && haystack[i..i + |needle|] == needle
  }

  /** The lower-cased query: the search box, else the `search` parameter, else "". */
  function SearchQuery(input: FilterInput): (q: string)
    ensures input.searchBox != "" ==> q == Lower(input.searchBox)
    ensures input.searchBox == "" ==> q == Lower(input.searchParam)
    ensures q == "" <==> input.searchBox == "" && input.searchParam == ""
  {
    Lower(if input.searchBox != "" then input.searchBox else input.searchParam)
  }

  /** `params.get('cat') || 'all'`. */
  function CatFilter(input: FilterInput): (c: string)
    ensures c != ""
    ensures input.catParam != "" ==> c == input.catParam
    ensures input.catParam == "" ==> c == "all"
  {
    if input.catParam != "" then input.catParam else "all"
  }

  /** The slider's value, or 15000 when the page has no slider. */
  function MaxPrice(input: FilterInput): (m: int)
    ensures input.priceRange.Some? ==> m == input.priceRange.value
    ensures input.priceRange.None? ==> m == DEFAULT_MAX_PRICE
  {
    match input.priceRange
    case None => DEFAULT_MAX_PRICE
    case Some(v) => v
  }

  /** The sort select's value, or 'default' when the page has no sort select. */
  function SortBy(input: FilterInput): (v: string)
    ensures input.sortSelect.Some? ==> v == input.sortSelect.value
    ensures input.sortSelect.None? ==> v == "default"
  {
    match input.sortSelect
    case None => "default"
    case Some(v) => v
  }

  /** The sort option values that trigger a `.sort`; any other value keeps catalog order. */
  function OrderOf(sortBy: string): (r: Option<Order>)
    ensures r.None? <==> sortBy !in {"price-asc", "price-desc", "rating", "discount"}
    ensures sortBy == "price-asc" ==> r == Some(PriceAsc)
    ensures sortBy == "price-desc" ==> r == Some(PriceDesc)
    ensures sortBy == "rating" ==> r == Some(RatingDesc)
    ensures sortBy == "discount" ==> r == Some(DiscountDesc)
  {
    if sortBy == "price-asc" then Some(PriceAsc)
    else if sortBy == "price-desc" then Some(PriceDesc)
    else if sortBy == "rating" then Some(RatingDesc)
    else if sortBy == "discount" then Some(DiscountDesc)
    else None
  }

  /** A `cat` parameter other than 'all' demands that exact category; otherwise the ticked
      boxes restrict the category, and no ticked box lets every category through. */
  predicate MatchCat(catFilter: string, checked: seq<string>, p: Product): (b: bool)
    ensures catFilter != "all" ==> (b <==> p.cat == catFilter)
    ensures catFilter == "all" && checked == [] ==> b
    ensures catFilter == "all" && checked != [] ==> (b <==> p.cat in checked)
  {
    if catFilter != "all" then p.cat == catFilter else |checked| == 0 || p.cat in checked
  }

  /** `!searchQuery || name.includes(searchQuery) || cat.includes(searchQuery)`, lower-cased. */
  predicate MatchSearch(query: string, p: Product): (b: bool)
    ensures query == "" ==> b
    ensures query != "" ==> (b <==> Contains(Lower(p.name), query) || Contains(Lower(p.cat), query))
  {
    query == "" || Found(query, p)
  }

  /** The lower-cased name or category contains the query. */
  predicate Found(query: string, p: Product)
  {
    Contains(Lower(p.name), query) || Contains(Lower(p.cat), query)
  }

  /** The filter callback of `applyFilters`. */
  predicate Matches(input: FilterInput, p: Product): (b: bool)
    ensures b ==> p.price <= MaxPrice(input)
    ensures b && CatFilter(input) != "all" ==> p.cat == CatFilter(input)
    ensures b && SearchQuery(input) != "" ==> Found(SearchQuery(input), p)
    ensures (MatchCat(CatFilter(input), input.checked, p) && p.price <= MaxPrice(input) &&
             MatchSearch(SearchQuery(input), p)) ==> b
  {
    MatchCat(CatFilter(input), input.checked, p) && p.price <= MaxPrice(input) &&
    MatchSearch(SearchQuery(input), p)
  }

  function Passes(input: FilterInput): Product -> bool
  {
    (p: Product) => Matches(input, p)
  }

  /** `PRODUCTS.filter(...)`, before sorting. */
  function Filtered(catalog: seq<Product>, input: FilterInput): seq<Product>
  {
    Filter(catalog, Passes(input))
  }

  /** The value `applyFilters` leaves in `filteredProducts`. */
  function Query(catalog: seq<Product>, input: FilterInput): (r: seq<Product>)
    ensures multiset(r) == multiset(Filtered(catalog, input))
    ensures |r| == |Filtered(catalog, input)| && |r| <= |catalog|
    ensures OrderOf(SortBy(input)).None? ==> r == Filtered(catalog, input)
  {
    match OrderOf(SortBy(input))
    case None => Filtered(catalog, input)
    case Some(o) => StableSort(o, Filtered(catalog, input))
  }

  // ---------------------------------------------------------------------------
  // Pagination
  // ---------------------------------------------------------------------------

  /** `Math.ceil(n / 8)`: the fewest 8-record pages that hold `n` records. */
  function PageCount(n: nat): (k: nat)
    ensures k * PRODUCTS_PER_PAGE >= n
    ensures k == 0 || (k - 1) * PRODUCTS_PER_PAGE < n
  {
    (n + PRODUCTS_PER_PAGE - 1) / PRODUCTS_PER_PAGE
  }

  /** How `slice` resolves an index: negative counts from the end, then clamp to the list. */
  function SliceIndex(len: nat, k: int): (r: nat)
    ensures r <= len
    ensures 0 <= k <= len ==> r == k
    ensures k > len ==> r == len
    ensures -(len as int) <= k < 0 ==> r == len + k
    ensures k < -(len as int) ==> r == 0
  {
    if k < 0 then (if len + k < 0 then 0 else len + k) else if k > len then len else k
  }

  /** `s.slice(start, end)`. */
  function JsSlice<T>(s: seq<T>, start: int, end: int): (r: seq<T>)
    ensures |r| <= |s|
    ensures |r| == if SliceIndex(|s|, start) < SliceIndex(|s|, end)
                   then SliceIndex(|s|, end) - SliceIndex(|s|, start) else 0
    ensures 0 <= start <= end <= |s| ==> r == s[start..end]
    ensures forall i :: 0 <= i < |r| ==> SliceIndex(|s|, start) + i < |s| && r[i] == s[SliceIndex(|s|, start) + i]
  {
    var from, to := SliceIndex(|s|, start), SliceIndex(|s|, end);
    if from < to then s[from..to] else []
  }

  /** The records `renderProducts` shows for a page: at most 8, consecutive from
      `(page - 1) * 8`, clipped to the list. */
  function PageItems<T>(s: seq<T>, page: int): (r: seq<T>)
    ensures page >= 1 ==> |r| <= PRODUCTS_PER_PAGE
    ensures page >= 1 ==> |r| == if (page - 1) * PRODUCTS_PER_PAGE >= |s| then 0
                                 else Min(PRODUCTS_PER_PAGE, |s| - (page - 1) * PRODUCTS_PER_PAGE)
    ensures page >= 1 ==> forall i :: 0 <= i < |r| ==> r[i] == s[(page - 1) * PRODUCTS_PER_PAGE + i]
  {
    var start := (page - 1) * PRODUCTS_PER_PAGE;
    JsSlice(s, start, start + PRODUCTS_PER_PAGE)
  }

  function Min(a: int, b: int): int { if a < b then a else b }

  /** A page at or after 1 shows something exactly when it is one of the `ceil(n / 8)` pages. */
  lemma PageNonEmptyIff<T>(s: seq<T>, page: int)
    ensures page >= 1 ==> (PageItems(s, page) != [] <==> page <= PageCount(|s|))
  {
    var k := PageCount(|s|);
    if page < 1 {
    } else if page <= k {
      assert (page - 1) * PRODUCTS_PER_PAGE <= (k - 1) * PRODUCTS_PER_PAGE;
      assert |PageItems(s, page)| > 0;
    } else {
      assert (page - 1) * PRODUCTS_PER_PAGE >= k * PRODUCTS_PER_PAGE;
    }
  }

  /** Every record appears on page `i / 8 + 1`, at position `i % 8`: the pages cover the list. */
  lemma ItemOnItsPage<T>(s: seq<T>, i: nat)
    requires i < |s|
    ensures 1 <= i / PRODUCTS_PER_PAGE + 1 <= PageCount(|s|)
    ensures i % PRODUCTS_PER_PAGE < |PageItems(s, i / PRODUCTS_PER_PAGE + 1)|
    ensures PageItems(s, i / PRODUCTS_PER_PAGE + 1)[i % PRODUCTS_PER_PAGE] == s[i]
  {
    var page := i / PRODUCTS_PER_PAGE + 1;
    assert (page - 1) * PRODUCTS_PER_PAGE + i % PRODUCTS_PER_PAGE == i;
    PageNonEmptyIff(s, page);
  }

  // ---------------------------------------------------------------------------
  // Properties of the query
  // ---------------------------------------------------------------------------

  /** The result holds exactly the catalog records that pass all three tests, whatever the sort. */
  lemma QueryMembers(catalog: seq<Product>, input: FilterInput)
    ensures forall i :: 0 <= i < |Query(catalog, input)| ==>
      Query(catalog, input)[i] in catalog && Matches(input, Query(catalog, input)[i])
    ensures forall i :: 0 <= i < |catalog| && Matches(input, catalog[i]) ==>
      catalog[i] in Query(catalog, input)
    ensures multiset(Query(catalog, input)) == multiset(Filtered(catalog, input))
  {
    var f := Filtered(catalog, input);
    FilterMembers(catalog, Passes(input));
    var r := Query(catalog, input);
    assert multiset(r) == multiset(f);
    forall i | 0 <= i < |r| ensures r[i] in f {
      assert r[i] in multiset(r);
    }
    forall i | 0 <= i < |catalog| && Matches(input, catalog[i]) ensures catalog[i] in r {
      assert catalog[i] in multiset(f);
    }
  }

  /** With the default sort the result is the passing records in catalog order. */
  lemma DefaultKeepsCatalogOrder(catalog: seq<Product>, input: FilterInput)
    requires OrderOf(SortBy(input)).None?
    ensures Query(catalog, input) == Filtered(catalog, input)
    ensures IsSubseq(Query(catalog, input), catalog)
  {
    FilterIsSubseq(catalog, Passes(input));
  }

  /** Each sort option orders the result by its comparator and keeps records the comparator
      ties in catalog order (`Array.prototype.sort` is stable). */
  lemma QuerySorted(catalog: seq<Product>, input: FilterInput)
    ensures var r := Query(catalog, input);
      match OrderOf(SortBy(input))
      case None => true
      case Some(o) => (SortedBy(o, r) &&
        forall k :: Filter(r, TiedWith(o, k)) == Filter(Filtered(catalog, input), TiedWith(o, k)))
  {
    match OrderOf(SortBy(input))
    case None =>
    case Some(o) =>
      SortSpec(o, Filtered(catalog, input));
  }

  /** What each sort option promises about any two records of the result, in terms of the
      record fields. */
  lemma SortOptionsMeaning(catalog: seq<Product>, input: FilterInput)
    ensures var r := Query(catalog, input);
      SortBy(input) == "price-asc" ==> forall i, j :: 0 <= i < j < |r| ==> r[i].price <= r[j].price
    ensures var r := Query(catalog, input);
      SortBy(input) == "price-desc" ==> forall i, j :: 0 <= i < j < |r| ==> r[i].price >= r[j].price
    ensures var r := Query(catalog, input);
      SortBy(input) == "rating" ==> forall i, j :: 0 <= i < j < |r| ==> r[i].rating >= r[j].rating
    ensures var r := Query(catalog, input);
      SortBy(input) == "discount" ==> forall i, j :: 0 <= i < j < |r| ==>
        (r[i].oldPrice > 0 && r[j].oldPrice > 0 ==>
          (r[i].oldPrice - r[i].price) * r[j].oldPrice >= (r[j].oldPrice - r[j].price) * r[i].oldPrice) &&
        (r[i].oldPrice <= 0 ==> r[j].oldPrice <= 0)
  {
    QuerySorted(catalog, input);
  }

  /** Raising the price bound never drops a record: the old result is a subsequence of the
      new one before sorting, and contained in it after. */
  lemma MaxPriceMonotonic(catalog: seq<Product>, input: FilterInput, lo: int, hi: int)
    requires lo <= hi
    ensures IsSubseq(Filtered(catalog, input.(priceRange := Some(lo))),
                     Filtered(catalog, input.(priceRange := Some(hi))))
    ensures forall i :: 0 <= i < |Query(catalog, input.(priceRange := Some(lo)))| ==>
      Query(catalog, input.(priceRange := Some(lo)))[i] in Query(catalog, input.(priceRange := Some(hi)))
  {
    var a, b := input.(priceRange := Some(lo)), input.(priceRange := Some(hi));
    forall i | 0 <= i < |catalog| && Passes(a)(catalog[i]) ensures Passes(b)(catalog[i]) {
      MatchesMonotonic(input, lo, hi, catalog[i]);
    }
    FilterMonotonic(catalog, Passes(a), Passes(b));
    QueryMembers(catalog, a);
    QueryMembers(catalog, b);
    forall i | 0 <= i < |Query(catalog, a)| ensures Query(catalog, a)[i] in Query(catalog, b) {
      var x := Query(catalog, a)[i];
      var m :| 0 <= m < |catalog| && catalog[m] == x;
      MatchesMonotonic(input, lo, hi, x);
    }
  }

  lemma MatchesMonotonic(input: FilterInput, lo: int, hi: int, p: Product)
    requires lo <= hi
    ensures Matches(input.(priceRange := Some(lo)), p) ==> Matches(input.(priceRange := Some(hi)), p)
  {
  }

  /** Every record shown has a price within the bound. */
  lemma WithinMaxPrice(catalog: seq<Product>, input: FilterInput)
    ensures forall i :: 0 <= i < |Query(catalog, input)| ==> Query(catalog, input)[i].price <= MaxPrice(input)
  {
    QueryMembers(catalog, input);
  }

  /** A `cat` parameter other than 'all' admits only that category; without one, ticked
      boxes admit only their categories. */
  lemma CategoryResults(catalog: seq<Product>, input: FilterInput)
    ensures forall i :: 0 <= i < |Query(catalog, input)| ==>
      var p := Query(catalog, input)[i];
      (input.catParam != "" && input.catParam != "all" ==> p.cat == input.catParam) &&
      (CatFilter(input) == "all" && |input.checked| > 0 ==> p.cat in input.checked)
  {
    QueryMembers(catalog, input);
  }

  /** A non-empty query admits exactly the records, among those passing the category and
      price tests, whose lower-cased name or category contains it. */
  lemma SearchResults(catalog: seq<Product>, input: FilterInput)
    requires SearchQuery(input) != ""
    ensures forall i :: 0 <= i < |Query(catalog, input)| ==> Found(SearchQuery(input), Query(catalog, input)[i])
    ensures forall i | 0 <= i < |catalog| ::
      (MatchCat(CatFilter(input), input.checked, catalog[i]) && catalog[i].price <= MaxPrice(input) &&
       Found(SearchQuery(input), catalog[i])) ==> catalog[i] in Query(catalog, input)
  {
    QueryMembers(catalog, input);
  }

  /** With no category restriction, no search text and a bound no record exceeds, the result
      before sorting is the whole catalog. */
  lemma NoFiltersKeepAll(catalog: seq<Product>, input: FilterInput)
    requires CatFilter(input) == "all" && input.checked == [] && SearchQuery(input) == ""
    requires forall i :: 0 <= i < |catalog| ==> catalog[i].price <= MaxPrice(input)
    ensures Filtered(catalog, input) == catalog
  {
    FilterAll(catalog, Passes(input));
  }

  /** The search is case-insensitive: two non-empty search texts that lower-case alike give
      the same result. */
  lemma SearchIgnoresCase(catalog: seq<Product>, input: FilterInput, text: string)
    requires input.searchBox != "" && text != "" && Lower(text) == Lower(input.searchBox)
    ensures Query(catalog, input.(searchBox := text)) == Query(catalog, input)
  {
    var other := input.(searchBox := text);
    assert SearchQuery(other) == SearchQuery(input);
    FilterAgree(catalog, Passes(other), Passes(input));
  }

  lemma LowerSlice(s: string, i: nat, j: nat)
    requires i <= j <= |s|
    ensures Lower(s)[i..j] == Lower(s[i..j])
  {
  }

  /** A record whose name contains the typed text verbatim is found, whatever its case. */
  lemma NameHitIsFound(input: FilterInput, p: Product)
    requires SearchQuery(input) != ""
    requires Contains(p.name, if input.searchBox != "" then input.searchBox else input.searchParam)
    ensures MatchSearch(SearchQuery(input), p)
  {
    var q := if input.searchBox != "" then input.searchBox else input.searchParam;
    var i :| 0 <= i <= |p.name| - |q| && OccursAt(p.name, q, i);
    LowerSlice(p.name, i, i + |q|);
    assert OccursAt(Lower(p.name), SearchQuery(input), i);
  }

  // ---------------------------------------------------------------------------
  // The listing page's state
  // ---------------------------------------------------------------------------

  class ListingPage {
    var filteredProducts: seq<Product>
    var currentPage: int

    ghost predicate Valid()
      reads this
    {
      currentPage >= 1
    }

    /** The module-level `let filteredProducts = []; let currentPage = 1;`. */
    constructor ()
      ensures filteredProducts == [] && currentPage == 1 && Valid()
    {
      filteredProducts := [];
      currentPage := 1;
    }

    function TotalPages(): nat
      reads this
    {
      PageCount(|filteredProducts|)
    }

    /** The slice `renderProducts` shows. */
    function PageProducts(): (r: seq<Product>)
      reads this
      ensures Valid() ==> |r| <= PRODUCTS_PER_PAGE && (r == [] <==> currentPage > TotalPages())
    {
      PageNonEmptyIff(filteredProducts, currentPage);
      PageItems(filteredProducts, currentPage)
    }

    method ApplyFilters(input: FilterInput)
      modifies this
      ensures filteredProducts == Query(PRODUCTS, input)
      ensures currentPage == 1 && Valid()
      ensures PageProducts() == PageItems(Query(PRODUCTS, input), 1)
    {
      filteredProducts := Filter(PRODUCTS, Passes(input));
      var sortBy := SortBy(input);
      match OrderOf(sortBy) {
        case Some(o) => filteredProducts := StableSort(o, filteredProducts);
        case None =>
      }
      currentPage := 1;
    }

    /** Out-of-range page numbers are ignored. */
    method GoToPage(page: int)
      modifies this`currentPage
      ensures currentPage == if 1 <= page <= TotalPages() then page else old(currentPage)
      ensures old(Valid()) ==> Valid()
    {
      var totalPages := PageCount(|filteredProducts|);
      if page < 1 || page > totalPages {
        return;
      }
      currentPage := page;
    }
  }

  // ---------------------------------------------------------------------------
  // The reference catalog
  // ---------------------------------------------------------------------------

  /** The page state after following a `?cat=chargers` link: no search, the chargers box
      ticked by the page on load, no price slider, no sort select. */
  const CHARGERS_LINK := FilterInput("", "", "chargers", ["chargers"], None, None)

  /** What the page shows after arriving with `?cat=chargers`: the four chargers (the
      records with ids 2, 7, 10 and 14, see `Catalog.CatalogIds`), in catalog order, all on
      page 1. */
  lemma ChargersCategory()
    ensures Query(PRODUCTS, CHARGERS_LINK) == [PRODUCTS[1], PRODUCTS[6], PRODUCTS[9], PRODUCTS[13]]
  {
    ChargersFiltered();
    NoSortResult(PRODUCTS, CHARGERS_LINK, [PRODUCTS[1], PRODUCTS[6], PRODUCTS[9], PRODUCTS[13]]);
  }

  /** The four chargers fit on one page. */
  lemma ChargersOnePage()
    ensures PageCount(|Query(PRODUCTS, CHARGERS_LINK)|) == 1
  {
    ChargersCategory();
    PagesOfFour(Query(PRODUCTS, CHARGERS_LINK), [PRODUCTS[1], PRODUCTS[6], PRODUCTS[9], PRODUCTS[13]]);
  }

  lemma PagesOfFour<T>(r: seq<T>, expected: seq<T>)
    requires r == expected && |expected| == 4
    ensures PageCount(|r|) == 1
  {
  }

  lemma NoSortResult(catalog: seq<Product>, input: FilterInput, expected: seq<Product>)
    requires input.sortSelect == None && Filtered(catalog, input) == expected
    ensures Query(catalog, input) == expected
  {
    assert OrderOf("default") == None;
  }

  /** Without a sort select the records keep their filtered order. */
  lemma NoSortSelect(input: FilterInput)
    requires input.sortSelect == None
    ensures Query(PRODUCTS, input) == Filtered(PRODUCTS, input)
  {
    assert OrderOf("default") == None;
  }

  lemma ChargersFiltered()
    ensures Filtered(PRODUCTS, CHARGERS_LINK) == [PRODUCTS[1], PRODUCTS[6], PRODUCTS[9], PRODUCTS[13]]
  {
    var f := Passes(CHARGERS_LINK);
    ChargersFirstHalf();
    ChargersSecondHalf();
    ChargerPositions(PRODUCTS, f);
  }

  lemma ChargersFirstHalf()
    ensures var f, P := Passes(CHARGERS_LINK), PRODUCTS;
      !f(P[0]) && f(P[1]) && !f(P[2]) && !f(P[3]) && !f(P[4]) && !f(P[5]) && f(P[6]) && !f(P[7])
  {
    ChargersFirstQuarter();
  }

  lemma ChargersFirstQuarter()
    ensures var f, P := Passes(CHARGERS_LINK), PRODUCTS;
      !f(P[0]) && f(P[1]) && !f(P[2]) && !f(P[3])
  {
  }

  lemma ChargersSecondHalf()
    ensures var f, P := Passes(CHARGERS_LINK), PRODUCTS;
      !f(P[8]) && f(P[9]) && !f(P[10]) && !f(P[11]) && !f(P[12]) && f(P[13]) && !f(P[14]) && !f(P[15])
  {
  }

  /** Filtering 16 records of which exactly those at 1, 6, 9 and 13 pass. */
  lemma ChargerPositions<T>(s: seq<T>, f: T -> bool)
    requires |s| == 16
    requires !f(s[0]) && f(s[1]) && !f(s[2]) && !f(s[3]) && !f(s[4]) && !f(s[5]) && f(s[6]) && !f(s[7])
    requires !f(s[8]) && f(s[9]) && !f(s[10]) && !f(s[11]) && !f(s[12]) && f(s[13]) && !f(s[14]) && !f(s[15])
    ensures Filter(s, f) == [s[1], s[6], s[9], s[13]]
  {
    ChargerPositionsTail(s, f);
    FilterSuffix(s, 7, f);
    assert Filter(s[7..], f) == [s[9], s[13]];
    FilterSuffix(s, 6, f);
    assert Filter(s[6..], f) == [s[6], s[9], s[13]];
    FilterSuffix(s, 5, f);
    assert Filter(s[5..], f) == [s[6], s[9], s[13]];
    FilterSuffix(s, 4, f);
    assert Filter(s[4..], f) == [s[6], s[9], s[13]];
    FilterSuffix(s, 3, f);
    assert Filter(s[3..], f) == [s[6], s[9], s[13]];
    FilterSuffix(s, 2, f);
    assert Filter(s[2..], f) == [s[6], s[9], s[13]];
    FilterSuffix(s, 1, f);
    assert Filter(s[1..], f) == [s[1], s[6], s[9], s[13]];
    FilterSuffix(s, 0, f);
    assert Filter(s[0..], f) == [s[1], s[6], s[9], s[13]];
    assert s[0..] == s;
  }

  lemma ChargerPositionsTail<T>(s: seq<T>, f: T -> bool)
    requires |s| == 16
    requires !f(s[8]) && f(s[9]) && !f(s[10]) && !f(s[11]) && !f(s[12]) && f(s[13]) && !f(s[14]) && !f(s[15])
    ensures Filter(s[8..], f) == [s[9], s[13]]
  {
    assert s[16..] == [];
    FilterSuffix(s, 15, f);
    assert Filter(s[15..], f) == [];
    FilterSuffix(s, 14, f);
    assert Filter(s[14..], f) == [];
    FilterSuffix(s, 13, f);
    assert Filter(s[13..], f) == [s[13]];
    FilterSuffix(s, 12, f);
    assert Filter(s[12..], f) == [s[13]];
    FilterSuffix(s, 11, f);
    assert Filter(s[11..], f) == [s[13]];
    FilterSuffix(s, 10, f);
    assert Filter(s[10..], f) == [s[13]];
    FilterSuffix(s, 9, f);
    assert Filter(s[9..], f) == [s[9], s[13]];
    FilterSuffix(s, 8, f);
    assert Filter(s[8..], f) == [s[9], s[13]];
  }

  /** One step of `filter` on the suffix starting at `k`. */
  lemma FilterSuffix<T>(s: seq<T>, k: nat, f: T -> bool)
    requires k < |s|
    ensures Filter(s[k..], f) == (if f(s[k]) then [s[k]] else []) + Filter(s[k + 1..], f)
  {
    assert s[k..][0] == s[k] && s[k..][1..] == s[k + 1..];
  }

  /** The first visit, with no parameters, no ticked box, no slider and no sort select:
      the whole catalog in catalog order. */
  lemma FirstVisitShowsAll(input: FilterInput)
    requires input == FilterInput("", "", "", [], None, None)
    ensures Query(PRODUCTS, input) == PRODUCTS
  {
    NoSortSelect(input);
    CatalogPrices();
    NoFiltersKeepAll(PRODUCTS, input);
  }

  /** With all 16 records passing, page 1 holds records 1-8, page 2 records 9-16, and page 3
      is empty. */
  lemma FullCatalogPages()
    ensures PageCount(|PRODUCTS|) == 2
    ensures PageItems(PRODUCTS, 1) == PRODUCTS[..8]
    ensures PageItems(PRODUCTS, 2) == PRODUCTS[8..]
    ensures PageItems(PRODUCTS, 3) == []
  {
  }
}
