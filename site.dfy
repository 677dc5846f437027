/**
 * The pieces of js/main.js that compute something: the header cart count read at
 * page load, the header search hand-off to the listing page, the quantity stepper
 * of the product quick-view modal, and the hours/minutes/seconds split of the
 * deal countdown. The catalog `PRODUCTS` itself is in module Catalog.
 */
module Site {
  import opened Wrappers
  import opened Cart
  import opened Listing
  import Catalog

  // ---------------------------------------------------------------------------
  // Header cart count
  // ---------------------------------------------------------------------------

  /** `initCartCount`: the stored cart (the empty list when the key is absent), each line
      counted with `item.qty || 1`. */
  function InitCartCount(stored: Option<seq<CartLine>>): (n: int)
    ensures stored.None? ==> n == 0
    ensures n == ItemCount(CartOf(stored))
  {
    match stored
    case None => 0
    case Some(cart) => ItemCount(cart)
  }

  /** The number shown at page load is the one the cart operations keep on the badges,
      and for a well-formed cart it is 0 exactly when the cart is empty. */
  lemma InitCartCountAgrees(stored: Option<seq<CartLine>>)
    ensures InitCartCount(stored) == ItemCount(CartOf(stored))
    ensures PositiveQtys(CartOf(stored)) ==>
      InitCartCount(stored) >= |CartOf(stored)| && (InitCartCount(stored) == 0 <==> CartOf(stored) == [])
  {
    if stored.Some? {
      var cart := stored.value;
      if PositiveQtys(cart) {
        CountAtLeastLines(cart);
      }
    }
  }

  /** After any sequence of cart operations a fresh page shows the same count as the badge. */
  lemma InitCartCountMatchesBadge(store: CartStore)
    requires store.Synced()
    ensures InitCartCount(store.storage) == store.badge
  {
    InitCartCountAgrees(store.storage);
  }

  // ---------------------------------------------------------------------------
  // Header search
  // ---------------------------------------------------------------------------

  /** `doSearch`: an empty query does nothing; any other query navigates to the listing page
      with that query as its `search` parameter (its URL encoding is not modelled). */
  function DoSearch(query: string): (target: Option<string>)
    ensures target.None? <==> query == ""
    ensures target.Some? ==> target.value == query
  {
    if query == "" then None else Some(query)
  }

  /** On the listing page reached by a header search (the search box empty, or pre-filled
      with the `search` parameter as the listing page does on load) the query applied is
      the lower-cased text that was typed, and every record shown matches it. */
  lemma SearchReachesListing(query: string, input: FilterInput)
    requires DoSearch(query).Some? && input.searchParam == DoSearch(query).value
    requires input.searchBox == "" || input.searchBox == query
    ensures SearchQuery(input) == Lower(query) && SearchQuery(input) != ""
    ensures forall i :: 0 <= i < |Query(Catalog.PRODUCTS, input)| ==>
      MatchSearch(Lower(query), Query(Catalog.PRODUCTS, input)[i])
  {
    QueryMembers(Catalog.PRODUCTS, input);
  }

  // ---------------------------------------------------------------------------
  // Product quick-view modal
  // ---------------------------------------------------------------------------

  /** `Math.max(1, q + delta)`. */
  function StepQty(q: int, delta: int): (r: int)
    ensures r >= 1 && r >= q + delta
    ensures r == q + delta || r == 1
  {
    if q + delta > 1 then q + delta else 1
  }

  /** Stepping never goes below 1, and steps that stay above 1 add up. */
  lemma StepQtyComposes(q: int, d1: int, d2: int)
    requires q >= 1 && d1 >= 0 && d2 >= 0
    ensures StepQty(StepQty(q, d1), d2) == q + d1 + d2
  {
  }

  /** Pressing "-" at quantity 1 leaves it at 1; pressing "-" after "+" returns to the start. */
  lemma StepQtyUndo(q: int)
    requires q >= 1
    ensures StepQty(1, -1) == 1
    ensures StepQty(StepQty(q, 1), -1) == q
  {
  }

  /** The modal's module-level state: the quantity on its stepper and the product it shows. */
  class ProductModal {
    var currentModalQty: int
    var currentModalProduct: Option<ProductInput>

    ghost predicate Valid()
      reads this
    {
      currentModalQty >= 1
    }

    constructor ()
      ensures currentModalQty == 1 && currentModalProduct == None && Valid()
    {
      currentModalQty := 1;
      currentModalProduct := None;
    }

    /** `openProductModal`: ignored when the page has no featured products or the index
        names none; otherwise shows that product with the quantity reset to 1. */
    method Open(featuredProducts: Option<seq<ProductInput>>, index: int)
      modifies this
      ensures match featuredProducts
        case Some(ps) =>
          if 0 <= index < |ps| then currentModalProduct == Some(ps[index]) && currentModalQty == 1
          else currentModalProduct == old(currentModalProduct) && currentModalQty == old(currentModalQty)
        case None =>
          currentModalProduct == old(currentModalProduct) && currentModalQty == old(currentModalQty)
      ensures old(Valid()) ==> Valid()
    {
      if featuredProducts.None? || !(0 <= index < |featuredProducts.value|) {
        return;
      }
      var p := featuredProducts.value[index];
      currentModalProduct := Some(p);
      currentModalQty := 1;
    }

    /** `changeQty`: the stepper buttons. */
    method ChangeQty(delta: int)
      modifies this`currentModalQty
      ensures currentModalQty == StepQty(old(currentModalQty), delta)
      ensures Valid()
    {
      currentModalQty := StepQty(currentModalQty, delta);
    }

    /** The modal's "Add to cart" button: the shown product with the stepper's quantity. The
        count on the badges goes up by exactly that quantity. */
    method AddToCartClicked(store: CartStore)
      requires currentModalProduct.Some? && Valid()
      modifies store
      ensures store.storage ==
        Some(AddLine(old(store.GetCart()), currentModalProduct.value.(qty := currentModalQty)))
      ensures store.Synced()
      ensures old(PositiveQtys(store.GetCart())) ==> store.badge == old(ItemCount(store.GetCart())) + currentModalQty
      ensures old(store.Valid()) ==> store.Valid()
    {
      var item := currentModalProduct.value.(qty := currentModalQty);
      store.AddToCart(item);
    }
  }

  // ---------------------------------------------------------------------------
  // Deal countdown
  // ---------------------------------------------------------------------------

  datatype Hms = Hms(h: int, m: int, s: int)

  /** One `tick` of the countdown for `diff` milliseconds left: zeros once the deadline has
      passed, otherwise whole hours, minutes and seconds. */
  function Tick(diff: int): (r: Hms)
    ensures diff <= 0 ==> r == Hms(0, 0, 0)
    ensures diff > 0 ==> 0 <= r.h && 0 <= r.m < 60 && 0 <= r.s < 60
    ensures diff > 0 ==> r.h * 3600000 + r.m * 60000 + r.s * 1000 <= diff < r.h * 3600000 + r.m * 60000 + r.s * 1000 + 1000
  {
    if diff <= 0 then Hms(0, 0, 0)
    else
      TickSplit(diff);
      Hms(diff / 3600000, (diff % 3600000) / 60000, (diff % 60000) / 1000)
  }

  lemma TickSplit(diff: int)
    requires diff > 0
    ensures var h, m, s := diff / 3600000, (diff % 3600000) / 60000, (diff % 60000) / 1000;
      0 <= h && 0 <= m < 60 && 0 <= s < 60 &&
      h * 3600000 + m * 60000 + s * 1000 <= diff < h * 3600000 + m * 60000 + s * 1000 + 1000
  {
    var h, r1 := diff / 3600000, diff % 3600000;
    assert diff == h * 3600000 + r1 && 0 <= r1 < 3600000;
    var m, r2 := r1 / 60000, r1 % 60000;
    assert r1 == m * 60000 + r2 && 0 <= r2 < 60000 && 0 <= m < 60;
    assert diff == (h * 60 + m) * 60000 + r2;
    assert diff % 60000 == r2;
    var s, r3 := r2 / 1000, r2 % 1000;
    assert r2 == s * 1000 + r3 && 0 <= r3 < 1000 && 0 <= s < 60;
  }

  /** The split is the only one with minutes and seconds below 60 that rounds `diff` down to
      a whole second. */
  lemma TickUnique(diff: int, h: int, m: int, s: int)
    requires diff > 0 && 0 <= h && 0 <= m < 60 && 0 <= s < 60
    requires h * 3600000 + m * 60000 + s * 1000 <= diff < h * 3600000 + m * 60000 + s * 1000 + 1000
    ensures Tick(diff) == Hms(h, m, s)
  {
    var r := Tick(diff);
    var a, b := r.h * 3600 + r.m * 60 + r.s, h * 3600 + m * 60 + s;
    assert a * 1000 <= diff < a * 1000 + 1000;
    assert b * 1000 <= diff < b * 1000 + 1000;
    assert a == b;
    assert r.h == h;
  }
}
