# Mobile Zone storefront: cart, catalog query and page helpers

This project models the client-side logic of the Mobile Zone storefront in Dafny and
proves properties of that model. It covers three parts, with module names given in
parentheses.

- **The cart** (`Cart`, from `js/cart.js`). The cart is a list of lines stored under the key
  `mz_cart`. Adding a product merges it into the line with the same id or appends a new line.
  Removing filters the line out. Updating a quantity either sets it or removes the line.
  Clearing deletes the key. The module also computes the badge count and the order summary
  (subtotal, savings, delivery fee, total). The class `CartStore` holds the stored value and
  the badge number and changes them exactly where the page does.
- **The listing page** (`Listing` and `Sorting`, from `js/products.js`). `applyFilters` keeps
  the catalog records that pass the category, maximum-price and case-insensitive search tests.
  It then applies one of four stable sorts and resets the page to 1. `renderProducts` shows an
  8-record slice. `renderPagination` and `goToPage` work with `ceil(n / 8)` pages. The class
  `ListingPage` holds `filteredProducts` and `currentPage`.
- **The helpers of `js/main.js`** (`Catalog` and `Site`). These are the static 16-record
  catalog `PRODUCTS`, the cart count read at page load, the empty-query guard of the header
  search, the quantity stepper of the quick-view modal, and the hours/minutes/seconds split of
  the deal countdown.

`Seqs` holds the generic list operations: `filter`, a summing `reduce`, and "is a subsequence
of". `Wrappers` holds `Option`.

How JavaScript values are represented:

- Integers are unbounded. Every price and reduce in the source is an integer-valued
  JavaScript number (a double), which is exact up to 2^53. The cart's sums stay far below
  that bound for any realistic cart, so the model computes them as integers. The discount
  comparator is the exception (see below).
- JavaScript's `x || d` picks `d` exactly when `x` is falsy. A missing numeric property is
  written as 0 and a missing string as "", so `q || 1` is `OrOne(q)`.
- Local storage is an in-memory `Option<seq<CartLine>>`, where `None` means the key is absent.
- URL parameters and form controls are inputs to the listing query: a string, "" when absent,
  or an `Option` when the control may be missing from the page.

The discount sort divides floating-point numbers. The model compares the two ratios exactly
by cross-multiplying the positive original prices, and `DiscountAtLeast` proves this agrees
with the exact ratios. A record with original price 0 and a positive price has ratio
`-Infinity` in the source, so the model puts it after every record with a positive original
price. The model ranks every record whose original price is not positive that way; the cases
where the source's ratio differs are listed under "Left out".

The catalog is split into two tables. `PRODUCTS` holds the fields the listing query reads.
`MEDIA` holds each record's image URL and description at the same position, because the
query logic never reads them. The cart does copy an `img`: it takes it from the object
handed to `addToCart`, which the model represents as a `ProductInput` with its own `img`.

Two behaviours of the code that are easy to assume otherwise:

- A corrupted stored payload does not read as an empty cart. `getCart` (`js/cart.js:14`)
  calls `JSON.parse` without a guard, so malformed data throws. The model has no malformed
  state.
- A missing price slider does not fall back to the catalog's maximum price. `applyFilters`
  falls back to the constant 15000 (`js/products.js:52`), and the model uses that constant.
  `CatalogPrices` shows this still admits every record.

## Model

| member | source | states |
|---|---|---|
| Seqs.Filter | js/cart.js:54 | `filter` never lengthens the list (its membership is stated by `FilterMembers`) |
| Seqs.Sum | js/cart.js:89 | `reduce((acc, x) => acc + g(x), 0)`: the empty list sums to 0 and a one-element list to that element's term |
| Seqs.FilterMembers | js/cart.js:54 | `filter` keeps exactly the elements satisfying the callback: every result element is from the input and passes, and every passing input element is in the result |
| Seqs.FilterIsSubseq | js/products.js:59-68 | the filtered list is a subsequence of the input, in the same relative order |
| Cart.OrOne | js/cart.js:33 | `q \|\| 1`: 1 for a missing or zero `q`, otherwise `q` itself |
| Cart.CartOf | js/cart.js:13-15 | `getCart`: an absent key reads as the empty list, otherwise the stored list |
| Cart.IndexOf | js/cart.js:30 | `cart.find` by id: the first line with that id, or none when no line has it |
| Cart.IndexOfIds | js/cart.js:30 | `find` succeeds exactly when the id is among the cart's ids |
| Cart.NewLine | js/cart.js:35-43 | the pushed object copies id, name, price and img; `oldPrice \|\| 0` keeps the original price; its qty is `qty \|\| 1`, so 1 for a missing qty and the input qty otherwise; the category is `category`, or `cat` when `category` is empty |
| Cart.AddLine | js/cart.js:30-43 | a present id: same length, that line's qty `(qty \|\| 1) + (product.qty \|\| 1)`, all other lines unchanged; an absent id: old lines unchanged plus one new line at the end with `oldPrice \|\| 0`, `category \|\| cat \|\| ''` and `qty \|\| 1`; either way the ids become the old ids plus the product's id |
| Cart.AddKeepsUnique | js/cart.js:28-46 | adding never creates a second line for an id |
| Cart.AddKeepsPositive | js/cart.js:30-43 | with a non-negative input qty, every stored qty stays at least 1 |
| Cart.AddCount | js/cart.js:28-46 | the badge count grows by exactly `product.qty \|\| 1`, whether the line merged or was appended |
| Cart.AddSubtotal | js/cart.js:30-43 | a merge keeps the existing line's snapshot price: the subtotal grows by that price (the product's own price for a new line) times the added quantity |
| Cart.RepeatedAdds | js/cart.js:28-46 | any number of adds of one id leave exactly one line for it, whose qty is its starting qty (0 if absent) plus the sum of the added `qty \|\| 1` |
| Cart.Without | js/cart.js:54 | after `removeFromCart` no line has the id, and every other line is still there |
| Cart.RemoveAbsent | js/cart.js:54 | removing an id no line has leaves the list unchanged |
| Cart.RemoveSplices | js/cart.js:53-55 | with unique ids, removing cuts out exactly the one matching line and keeps the rest in order |
| Cart.RemoveKeepsValid | js/cart.js:53-55 | removing keeps ids unique and quantities positive |
| Cart.RemoveCount | js/cart.js:53-55 | the badge count drops by exactly the removed line's `qty \|\| 1` |
| Cart.SetQty | js/cart.js:62-72 | `updateCartQty`: an absent id leaves the list unchanged; `qty <= 0` on a present id removes its line; `qty > 0` sets exactly that line's qty and changes nothing else |
| Cart.SetQtyKeepsValid | js/cart.js:62-74 | updating a quantity keeps ids unique and quantities positive |
| Cart.ItemCount | js/cart.js:89 | the badge count: with positive quantities it is at least the number of lines, and 0 exactly for an empty cart |
| Cart.CountAtLeastLines | js/cart.js:89 | with positive quantities, the sum of `qty \|\| 1` is at least the number of lines |
| Cart.LineSubtotal | js/cart.js:153 | `price * (qty \|\| 1)`: a missing qty counts once, and non-negative prices and quantities give a non-negative amount |
| Cart.LineSavings | js/cart.js:154 | `((oldPrice \|\| price) - price) * (qty \|\| 1)`: 0 for a line without an original price, and non-negative when the original price is not below the price |
| Cart.Subtotal | js/cart.js:153 | the empty cart's subtotal is 0; with non-negative prices and quantities the subtotal is non-negative |
| Cart.Savings | js/cart.js:154 | a cart without original prices saves nothing; with original prices unset or not below the price, the savings are non-negative |
| Cart.Delivery | js/cart.js:155 | delivery is free exactly when the subtotal reaches 499, and is otherwise 49 |
| Cart.Totals | js/cart.js:153-156 | the summary holds the subtotal and savings sums, the delivery fee is `Delivery(subtotal)` (0 from 499 up, otherwise 49), and total = subtotal + delivery, which equals the subtotal exactly when the subtotal reaches 499 |
| Cart.CartPageSummary | js/cart.js:120-125 | the cart page computes no summary for an empty cart, because it returns early; for any other cart it shows `Totals`, whose total covers the subtotal |
| Cart.SavingsOnlyFromDiscountedLines | js/cart.js:154 | lines with oldPrice 0 contribute nothing to the savings |
| Cart.TotalsNonNegative | js/cart.js:153-156 | with non-negative prices, original prices unset or not below the price, and positive quantities, subtotal and savings are non-negative and the total covers the subtotal |
| Cart.SummaryExamples | js/cart.js:153-156 | worked examples: 1299 ships free, 399 pays 49 for a total of 448, and 8999 reduced from 12999 saves 4000 |
| Cart.CartStore.constructor | js/cart.js:167-168 | page load: storage as found, badges refreshed from it |
| Cart.CartStore.SaveCart | js/cart.js:20-23 | `saveCart` stores the list and refreshes the badges |
| Cart.CartStore.UpdateAllCartBadges | js/cart.js:87-93 | the badges show the sum of `qty \|\| 1` over the stored cart; only the badge changes |
| Cart.CartStore.AddToCart | js/cart.js:28-46 | stores `AddLine` of the old cart and refreshes the badges; the count grows by `product.qty \|\| 1`; one line per id and positive quantities are preserved |
| Cart.CartStore.RemoveFromCart | js/cart.js:53-57 | stores the old cart without the id and refreshes the badges; an absent key becomes a stored empty list; preserves the invariant |
| Cart.CartStore.UpdateCartQty | js/cart.js:62-74 | stores `SetQty` of the old cart, either directly or through `removeFromCart`, and refreshes the badges; preserves the invariant |
| Cart.CartStore.ClearCart | js/cart.js:79-82 | the key is removed, `getCart` gives the empty list, and the badge shows 0 |
| Sorting.DiscountAtLeast | js/products.js:74 | for positive original prices, `a` may stay ahead of `b` exactly when the source's comparator value `ratio(b) - ratio(a)`, over exact rationals, is not positive |
| Sorting.Le | js/products.js:71-74 | `cmp(a, b) <= 0` for each option: `a.price - b.price`, `b.price - a.price`, `b.rating - a.rating`, and the discount comparator |
| Sorting.LeTotal | js/products.js:71-74 | each comparator orders any two records one way or the other |
| Sorting.DiscountTransitive | js/products.js:74 | the cross-multiplied discount order is transitive, including for records without an original price |
| Sorting.LeTransitive | js/products.js:71-74 | all four comparators are transitive |
| Sorting.StableSort | js/products.js:71-74 | `sort` returns a permutation of its input |
| Sorting.StableSortSorted | js/products.js:71-74 | the sorted list is ordered by the comparator at every pair of positions |
| Sorting.StableSortStable | js/products.js:71-74 | records the comparator ties keep their input order (ES2019 stability) |
| Sorting.SortSpec | js/products.js:71-74 | the sort is a permutation, ordered, and stable for every tie class |
| Listing.SearchQuery | js/products.js:44 | the lower-cased search box, else the lower-cased `search` parameter; empty exactly when both are empty |
| Listing.CatFilter | js/products.js:45 | `params.get('cat') \|\| 'all'`: never empty, the parameter when it is given, otherwise 'all' |
| Listing.MaxPrice | js/products.js:51-52 | the slider's value, or 15000 when the page has no slider |
| Listing.SortBy | js/products.js:55-56 | the sort select's value, or 'default' when the page has no sort select |
| Listing.MatchCat | js/products.js:60-62 | a `cat` other than 'all' admits exactly that category; otherwise no ticked box admits everything and ticked boxes admit exactly their categories |
| Listing.MatchSearch | js/products.js:64-66 | an empty query admits everything; otherwise exactly the records whose lower-cased name or category contains it |
| Listing.Matches | js/products.js:59-67 | a passing record is within the price bound, in the `cat` category when one is given, and found by a non-empty query; a record meeting all three tests passes |
| Listing.Query | js/products.js:59-74 | the result is a permutation of the filtered list (same multiset), so no longer than the catalog, and with no sort option it is the filtered list itself |
| Listing.JsSlice | js/products.js:90 | `slice(start, end)`: the records between the resolved indices, so its length is their difference when start resolves below end and 0 otherwise; `s[start..end]` for in-range indices |
| Listing.OrderOf | js/products.js:71-74 | the four option values 'price-asc', 'price-desc', 'rating' and 'discount' each pick their comparator; any other value sorts nothing |
| Listing.Contains | js/products.js:65-66 | `includes`: true when the needle occurs at some position; the empty needle always occurs; a hit needs a needle no longer than the text |
| Listing.Lower | js/products.js:44 | `toLowerCase` keeps the length and lower-cases each character |
| Listing.QueryMembers | js/products.js:59-68 | whatever the sort, the result holds exactly the catalog records passing all three tests, as a permutation of the filtered list |
| Listing.CategoryResults | js/products.js:60-62 | a `cat` parameter other than 'all' admits only that category; otherwise ticked boxes admit only their categories |
| Listing.WithinMaxPrice | js/products.js:63 | every record shown costs at most the price bound |
| Listing.MaxPriceMonotonic | js/products.js:63 | raising the bound never drops a record: a subsequence before sorting, and contained after |
| Listing.SearchResults | js/products.js:64-66 | a non-empty query admits exactly the records, among those passing category and price, whose lower-cased name or category contains it |
| Listing.NameHitIsFound | js/products.js:65 | a name that contains the typed text verbatim is found, whatever the case of either |
| Listing.SearchIgnoresCase | js/products.js:44 | two non-empty search texts that lower-case alike give the same result |
| Listing.NoFiltersKeepAll | js/products.js:59-68 | no category restriction, an empty search and a bound above every price let the whole catalog through |
| Listing.DefaultKeepsCatalogOrder | js/products.js:59-68 | with the default sort, the result is the filter's output, a subsequence of the catalog in catalog order |
| Listing.NoSortSelect | js/products.js:56 | with no sort select on the page, the result keeps the filtered order |
| Listing.QuerySorted | js/products.js:70-74 | each sort option orders the result by its comparator and keeps tied records in catalog order |
| Listing.SortOptionsMeaning | js/products.js:71-74 | 'price-asc' gives non-decreasing prices, 'price-desc' non-increasing prices, 'rating' non-increasing ratings, and 'discount' non-increasing discount ratios with records lacking an original price last |
| Listing.PageCount | js/products.js:184 | `Math.ceil(n / 8)`: the fewest 8-record pages that hold n records |
| Listing.SliceIndex | js/products.js:90 | `slice` index resolution: an index within the list is kept, one beyond it becomes the length, a negative one counts from the end (`len + k`), and one below `-len` becomes 0 |
| Listing.PageItems | js/products.js:89-90 | page p holds at most 8 records, namely the records from `(p - 1) * 8` onwards, clipped to the list |
| Listing.PageNonEmptyIff | js/products.js:89-92 | a page from 1 onwards shows something exactly when it is at most `ceil(n / 8)` |
| Listing.ItemOnItsPage | js/products.js:89-90 | record i appears on page `i / 8 + 1` at position `i % 8`, so the pages cover the list |
| Listing.ListingPage.constructor | js/products.js:8-9 | initial state: no records, page 1 |
| Listing.ListingPage.PageProducts | js/products.js:89-90 | the records `renderProducts` shows: at most 8 for a page from 1 onwards, and none exactly when the page is beyond `ceil(n / 8)` |
| Listing.ListingPage.ApplyFilters | js/products.js:40-80 | `filteredProducts` becomes the query result, the page resets to 1, and page 1 of the result is what is shown |
| Listing.ListingPage.GoToPage | js/products.js:200-203 | the page changes only to a number from 1 to `ceil(n / 8)`; other numbers leave it unchanged |
| Listing.FirstVisitShowsAll | js/products.js:44-68 | with no parameters, no ticked box, no slider and no sort select, the result set (`filteredProducts`) is the whole catalog in catalog order |
| Listing.ChargersCategory | js/products.js:59-68 | `?cat=chargers` gives exactly catalog records 2, 7, 10 and 14, in that order |
| Listing.ChargersOnePage | js/products.js:184 | the four chargers fit on a single page |
| Listing.FullCatalogPages | js/products.js:184 | the 16-record catalog fills pages 1 and 2 exactly, and page 3 is empty |
| Catalog.CatalogIds | js/main.js:272-289 | the catalog has 16 records with ids 1 to 16 in order, so the ids are unique |
| Catalog.CatalogEntriesSound | js/main.js:273-288 | every record has 0 < price <= oldPrice, a rating from 0 to 5, and one of the six categories |
| Catalog.CatalogPrices | js/main.js:273-288 | the highest price in the catalog is 8999 |
| Site.InitCartCount | js/main.js:211-213 | the count read at page load: 0 for an absent key, otherwise the badge count of the stored cart |
| Site.InitCartCountAgrees | js/main.js:211-213 | the count at page load is the cart module's badge count (0 for an absent key); with positive quantities it is at least the number of lines, and 0 exactly for an empty cart |
| Site.InitCartCountMatchesBadge | js/main.js:211-213 | after any cart operations, a fresh page shows the number on the badges |
| Site.DoSearch | js/main.js:134-136 | an empty query does nothing; any other query navigates with that query |
| Site.SearchReachesListing | js/main.js:134-136 | the listing page reached by a search, with the search box empty or pre-filled with the query, applies the lower-cased query, and every record it shows matches that query |
| Site.StepQty | js/main.js:264 | `Math.max(1, q + delta)`: at least 1, at least `q + delta`, and equal to one of them |
| Site.StepQtyUndo | js/main.js:263-264 | "-" at 1 stays at 1, and "-" after "+" returns to the starting quantity |
| Site.StepQtyComposes | js/main.js:263-264 | from any quantity of at least 1, steps up add together |
| Site.ProductModal.constructor | js/main.js:221-222 | the stepper starts at 1 with no product shown |
| Site.ProductModal.Open | js/main.js:224-228 | a missing list or an index naming no product changes nothing; otherwise that product is shown with the quantity reset to 1 |
| Site.ProductModal.ChangeQty | js/main.js:263-267 | the quantity becomes `max(1, quantity + delta)`, so it is always at least 1 |
| Site.ProductModal.AddToCartClicked | js/main.js:249-251 | adds the shown product with the stepper's quantity and leaves the badges in step with storage; the badge count grows by exactly that quantity |
| Site.Tick | js/main.js:189-198 | for `diff <= 0` all zeros; otherwise minutes and seconds below 60, and `h:m:s` is `diff` rounded down to a whole second |
| Site.TickUnique | js/main.js:196-198 | the split is the only one with minutes and seconds below 60 that rounds `diff` down to a whole second, so h = diff div 3600000 |

## Left out

- Everything the page writes to the DOM is not modelled: product and cart markup, badge text,
  the pagination buttons `renderPagination` emits (including the empty markup for one page)
  and the result-count line. These are presentation through browser APIs. Only the numbers
  the markup is built from are modelled.
- `showCartToast`, Bootstrap modals and toasts, `scrollIntoView`, `IntersectionObserver`,
  `setInterval`, `setTimeout` and the search debounce are not modelled. These are timers and
  event-loop behaviour.
- JSON encoding of storage is not modelled. Storage holds the list itself, so a malformed
  payload cannot be represented. `getCart` would throw on one.
- URL handling is not modelled: `URLSearchParams`, `encodeURIComponent`, `window.location`
  navigation. Parameters are plain string inputs, and `DoSearch` returns the query that would
  be sent instead of the encoded URL.
- `parseInt` of the price slider is modelled as an integer. A non-numeric slider value
  (`NaN`) is not modelled; in the source it would make every price test fail.
- `Lower` lower-cases ASCII letters only. JavaScript's `toLowerCase` follows Unicode case
  mapping. The catalog's names and categories contain no non-ASCII letters (the only
  non-ASCII character is the degree sign of '360° Protection Cover', which has no case).
- Sorting.DiscountAtLeast: does not model the comparator for a record with price 0 and
  oldPrice 0, where the ratio is `NaN` and the source's order is engine-defined; no catalog
  record has either field 0.
- Sorting.DiscountAtLeast: ranks every record with a non-positive original price last, but
  in the source a negative original price gives a finite ratio (price 50 and oldPrice -100
  give 1.5), and oldPrice 0 with a negative price gives `+Infinity`. No catalog record has a
  non-positive original price (`CatalogEntriesSound`).
- `Array.prototype.sort` reorders the array in place with an algorithm the source does not
  show. The model reassigns `filteredProducts` with the result of a stable insertion sort,
  and proves of it what the language requires of `sort`: a permutation, ordered by the
  comparator, that keeps tied records in their input order.
- `typeof PRODUCTS === 'undefined'` in `applyFilters` and `typeof renderCartPage ===
  'function'` in the cart are not modelled. The catalog is always present, and rendering is
  presentation.
- `openQuickView` in `js/products.js` reads the quantity back from the page text with
  `parseInt(...) || 1` and is not modelled. The modal of `js/main.js` is modelled through
  `ProductModal`.
- `Math.round` discount percentages and `toLocaleString('en-IN')` price formatting are not
  modelled. These are display-only floating-point work.
- `padStart(2, '0')` formatting in `tick` is not modelled; `Tick` returns the three numbers.
- The `Date` arithmetic of `initCountdownTimer` is not modelled: the midnight deadline and
  its storage under `mz_deal_end`. `Tick` takes the remaining milliseconds as its input.
