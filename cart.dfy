/**
 * The shopping cart of js/cart.js: an ordered list of lines kept under the
 * storage key `mz_cart`, merged by product id, with the badge count and the
 * order summary (subtotal, savings, delivery fee, grand total) derived from it.
 *
 * JavaScript's `x || d` on a number yields `d` exactly when `x` is falsy; a
 * missing numeric property is written here as 0 and a missing string as "".
 */
module Cart {
  import opened Wrappers
  import opened Seqs

  /** A subtotal of at least this many currency units ships free. */
  const FREE_DELIVERY_THRESHOLD: int := 499
  const DELIVERY_FEE: int := 49

  /** A stored cart line: a snapshot of the product at the time it was added, plus a quantity. */
  datatype CartLine = CartLine(id: int, name: string, price: int, oldPrice: int,
                               img: string, category: string, qty: int)

  /** The object handed to `addToCart`: a catalog record (category under `cat`), a featured
      product (category under `category`), or either spread with a `qty`. */
  datatype ProductInput = ProductInput(id: int, name: string, price: int, oldPrice: int,
                                       img: string, category: string, cat: string, qty: int)

  /** The order summary shown on the cart page. */
  datatype Summary = Summary(subtotal: int, savings: int, delivery: int, total: int)

  /** `q || 1` for a number `q`. */
  function OrOne(q: int): (r: int)
    ensures q == 0 ==> r == 1
    ensures q != 0 ==> r == q
  {
    if q == 0 then 1 else q
  }

  /** `getCart`: the stored list, or the empty list when the key is absent. */
  function CartOf(stored: Option<seq<CartLine>>): (cart: seq<CartLine>)
    ensures stored.None? ==> cart == []
    ensures stored.Some? ==> cart == stored.value
  {
    match stored
    case None => []
    case Some(lines) => lines
  }

  ghost function Ids(cart: seq<CartLine>): set<int>
  {
    set i | 0 <= i < |cart| :: cart[i].id
  }

  /** At most one line per product id. */
  ghost predicate UniqueIds(cart: seq<CartLine>)
  {
    forall i, j :: 0 <= i < j < |cart| ==> cart[i].id != cart[j].id
  }

  ghost predicate PositiveQtys(cart: seq<CartLine>)
  {
    forall i :: 0 <= i < |cart| ==> cart[i].qty >= 1
  }

  /** `cart.find(item => item.id === id)`: the index of the FIRST line with that id. */
  function IndexOf(cart: seq<CartLine>, id: int): (r: Option<nat>)
    ensures r.Some? ==> r.value < |cart| && cart[r.value].id == id &&
                        forall j :: 0 <= j < r.value ==> cart[j].id != id
    ensures r.None? ==> forall j :: 0 <= j < |cart| ==> cart[j].id != id
  {
    if cart == [] then None
    else if cart[0].id == id then Some(0)
    else match IndexOf(cart[1..], id)
         case None => None
         case Some(k) => Some(k + 1)
  }

  /** The object `addToCart` pushes for a product not yet in the cart. */
  function NewLine(p: ProductInput): (l: CartLine)
    ensures l.id == p.id && l.name == p.name && l.price == p.price && l.img == p.img
    ensures l.oldPrice == p.oldPrice
    ensures l.qty == OrOne(p.qty) && (p.qty == 0 ==> l.qty == 1) && (p.qty != 0 ==> l.qty == p.qty)
    ensures p.category != "" ==> l.category == p.category
    ensures p.category == "" ==> l.category == p.cat
  {
    CartLine(p.id, p.name, p.price, p.oldPrice, p.img,
             if p.category != "" then p.category else p.cat, OrOne(p.qty))
  }

  /** The list `addToCart` saves: merge into the existing line, or append a new one. */
  function AddLine(cart: seq<CartLine>, p: ProductInput): (r: seq<CartLine>)
    ensures Ids(r) == Ids(cart) + {p.id}
    ensures match IndexOf(cart, p.id)
            case Some(k) =>
              |r| == |cart| && r[k] == cart[k].(qty := OrOne(cart[k].qty) + OrOne(p.qty)) &&
              forall j :: 0 <= j < |cart| && j != k ==> r[j] == cart[j]
            case None =>
              |r| == |cart| + 1 && r[..|cart|] == cart && r[|cart|] == NewLine(p)
  {
    match IndexOf(cart, p.id)
    case Some(k) =>
      var r := cart[k := cart[k].(qty := OrOne(cart[k].qty) + OrOne(p.qty))];
      assert forall i :: 0 <= i < |r| ==> r[i].id == cart[i].id;
      r
    case None =>
      var r := cart + [NewLine(p)];
      assert forall i :: 0 <= i < |cart| ==> r[i] == cart[i];
      assert r[|cart|].id == p.id;
      assert forall i :: 0 <= i < |r| ==> r[i].id in Ids(cart) + {p.id};
      r
  }

  /** The filter callback `item => item.id !== id`. */
  function KeepOther(id: int): CartLine -> bool
  {
    (l: CartLine) => l.id != id
  }

  /** `cart.filter(item => item.id !== id)`. */
  function Without(cart: seq<CartLine>, id: int): (r: seq<CartLine>)
    ensures forall i :: 0 <= i < |r| ==> r[i].id != id && r[i] in cart
    ensures forall i :: 0 <= i < |cart| && cart[i].id != id ==> cart[i] in r
  {
    FilterMembers(cart, KeepOther(id));
    Filter(cart, KeepOther(id))
  }

  /** The list `updateCartQty(id, qty)` leaves in storage. */
  function SetQty(cart: seq<CartLine>, id: int, qty: int): (r: seq<CartLine>)
    ensures IndexOf(cart, id).None? ==> r == cart
    ensures IndexOf(cart, id).Some? && qty <= 0 ==> r == Without(cart, id)
    ensures IndexOf(cart, id).Some? && qty > 0 ==>
      var k := IndexOf(cart, id).value;
      |r| == |cart| && r[k] == cart[k].(qty := qty) &&
      forall j :: 0 <= j < |cart| && j != k ==> r[j] == cart[j]
  {
    match IndexOf(cart, id)
    case None => cart
    case Some(k) => if qty <= 0 then Without(cart, id) else cart[k := cart[k].(qty := qty)]
  }

  function LineCount(l: CartLine): int { OrOne(l.qty) }

  /** The badge number: the sum over lines of `qty || 1`. */
  function ItemCount(cart: seq<CartLine>): (n: int)
    ensures PositiveQtys(cart) ==> n >= |cart| && (n == 0 <==> cart == [])
  {
    CountAtLeastLines(cart);
    Sum(cart, LineCount)
  }

  /** `item.price * (item.qty || 1)`. */
  function LineSubtotal(l: CartLine): (r: int)
    ensures l.price >= 0 && l.qty >= 0 ==> r >= 0
    ensures l.qty == 0 ==> r == l.price
  {
    l.price * OrOne(l.qty)
  }

  /** `((item.oldPrice || item.price) - item.price) * (item.qty || 1)`: nothing for a line
      without an original price. */
  function LineSavings(l: CartLine): (r: int)
    ensures l.oldPrice == 0 ==> r == 0
    ensures l.qty >= 0 && (l.oldPrice == 0 || l.oldPrice >= l.price) ==> r >= 0
  {
    ((if l.oldPrice == 0 then l.price else l.oldPrice) - l.price) * OrOne(l.qty)
  }

  /** Every line has a non-negative price and quantity. */
  ghost predicate SanePrices(cart: seq<CartLine>)
  {
    forall i :: 0 <= i < |cart| ==> cart[i].price >= 0 && cart[i].qty >= 0
  }

  /** Every line's original price is unset or not below its price. */
  ghost predicate SaneDiscounts(cart: seq<CartLine>)
  {
    forall i :: 0 <= i < |cart| ==>
      cart[i].qty >= 0 && (cart[i].oldPrice == 0 || cart[i].oldPrice >= cart[i].price)
  }

  /** The subtotal: the sum of price times quantity over the lines. */
  function Subtotal(cart: seq<CartLine>): (s: int)
    ensures cart == [] ==> s == 0
    ensures SanePrices(cart) ==> s >= 0
  {
    SubtotalNonNegative(cart);
    Sum(cart, LineSubtotal)
  }

  /** The savings: the sum over lines of what the original price saves. */
  function Savings(cart: seq<CartLine>): (s: int)
    ensures (forall i :: 0 <= i < |cart| ==> cart[i].oldPrice == 0) ==> s == 0
    ensures SaneDiscounts(cart) ==> s >= 0
  {
    SavingsBounds(cart);
    Sum(cart, LineSavings)
  }

  lemma SubtotalNonNegative(cart: seq<CartLine>)
    ensures SanePrices(cart) ==> Sum(cart, LineSubtotal) >= 0
  {
    if SanePrices(cart) {
      forall i | 0 <= i < |cart| ensures LineSubtotal(cart[i]) >= 0 {
      }
      SumAtLeast(cart, LineSubtotal, 0);
    }
  }

  lemma SavingsBounds(cart: seq<CartLine>)
    ensures (forall i :: 0 <= i < |cart| ==> cart[i].oldPrice == 0) ==> Sum(cart, LineSavings) == 0
    ensures SaneDiscounts(cart) ==> Sum(cart, LineSavings) >= 0
  {
    if forall i :: 0 <= i < |cart| ==> cart[i].oldPrice == 0 {
      SumZero(cart, LineSavings);
    }
    if SaneDiscounts(cart) {
      forall i | 0 <= i < |cart| ensures LineSavings(cart[i]) >= 0 {
      }
      SumAtLeast(cart, LineSavings, 0);
    }
  }

  /** The delivery fee is waived exactly when the subtotal reaches the threshold. */
  function Delivery(subtotal: int): (fee: int)
    ensures fee == 0 <==> subtotal >= FREE_DELIVERY_THRESHOLD
    ensures fee == 0 || fee == DELIVERY_FEE
  {
    if subtotal >= FREE_DELIVERY_THRESHOLD then 0 else DELIVERY_FEE
  }

  /** The summary block of the cart page. */
  function Totals(cart: seq<CartLine>): (t: Summary)
    ensures t.subtotal == Subtotal(cart) && t.savings == Savings(cart)
    ensures t.delivery == Delivery(t.subtotal)
    ensures t.total == t.subtotal + t.delivery
    ensures t.total == t.subtotal <==> t.subtotal >= FREE_DELIVERY_THRESHOLD
  {
    var sub := Subtotal(cart);
    Summary(sub, Savings(cart), Delivery(sub), sub + Delivery(sub))
  }

  /** The summary `renderCartPage` computes: none for an empty cart, where it shows the
      empty-cart block and returns first, otherwise `Totals`. */
  function CartPageSummary(cart: seq<CartLine>): (r: Option<Summary>)
    ensures r.None? <==> cart == []
    ensures r.Some? ==> r.value == Totals(cart) && r.value.total >= r.value.subtotal
  {
    if |cart| == 0 then None else Some(Totals(cart))
  }

  // ---------------------------------------------------------------------------
  // Properties of the list operations
  // ---------------------------------------------------------------------------

  lemma IndexOfIds(cart: seq<CartLine>, id: int)
    ensures IndexOf(cart, id).Some? <==> id in Ids(cart)
  {
    if id in Ids(cart) {
      var i :| 0 <= i < |cart| && cart[i].id == id;
    }
  }

  /** Adding never creates a second line for an id. */
  lemma AddKeepsUnique(cart: seq<CartLine>, p: ProductInput)
    requires UniqueIds(cart)
    ensures UniqueIds(AddLine(cart, p))
  {
    var r := AddLine(cart, p);
    match IndexOf(cart, p.id)
    case Some(k) =>
      assert forall i :: 0 <= i < |r| ==> r[i].id == cart[i].id;
    case None =>
      assert forall i :: 0 <= i < |cart| ==> r[i] == cart[i];
  }

  /** With non-negative input quantities every stored quantity stays at least 1. */
  lemma AddKeepsPositive(cart: seq<CartLine>, p: ProductInput)
    requires PositiveQtys(cart) && p.qty >= 0
    ensures PositiveQtys(AddLine(cart, p))
  {
    var r := AddLine(cart, p);
    match IndexOf(cart, p.id)
    case Some(k) =>
    case None =>
      assert forall i :: 0 <= i < |cart| ==> r[i] == cart[i];
  }

  /** The badge grows by the added quantity (`qty || 1`), whether the line merged or was appended. */
  lemma AddCount(cart: seq<CartLine>, p: ProductInput)
    requires PositiveQtys(cart) && p.qty >= 0
    ensures ItemCount(AddLine(cart, p)) == ItemCount(cart) + OrOne(p.qty)
  {
    var r := AddLine(cart, p);
    match IndexOf(cart, p.id)
    case Some(k) =>
      assert r == cart[k := r[k]];
      SumUpdate(cart, k, r[k], LineCount);
    case None =>
      assert r == cart + [NewLine(p)];
      assert (cart + [NewLine(p)])[..|cart|] == cart;
  }

  /** Merging keeps the snapshot price of the existing line: the subtotal grows by
      that line's price, not the new product's, times the added quantity. */
  lemma AddSubtotal(cart: seq<CartLine>, p: ProductInput)
    requires PositiveQtys(cart) && p.qty >= 0
    ensures Subtotal(AddLine(cart, p)) == Subtotal(cart) +
      (match IndexOf(cart, p.id) case Some(k) => cart[k].price case None => p.price) * OrOne(p.qty)
  {
    var r := AddLine(cart, p);
    match IndexOf(cart, p.id)
    case Some(k) =>
      assert r == cart[k := r[k]];
      SumUpdate(cart, k, r[k], LineSubtotal);
      var pr, q, d := cart[k].price, cart[k].qty, OrOne(p.qty);
      assert q >= 1 && d >= 1 && OrOne(q) == q && OrOne(q + d) == q + d;
      assert LineSubtotal(r[k]) == pr * (q + d);
      MulAdd(pr, q, d);
    case None =>
      assert r == cart + [NewLine(p)];
      assert (cart + [NewLine(p)])[..|cart|] == cart;
  }

  lemma MulAdd(a: int, b: int, c: int)
    ensures a * (b + c) == a * b + a * c
  {
  }

  /** Removing an id leaves no line with it; an absent id leaves the list as it was. */
  lemma RemoveAbsent(cart: seq<CartLine>, id: int)
    requires id !in Ids(cart)
    ensures Without(cart, id) == cart
  {
    FilterAll(cart, KeepOther(id));
  }

  /** With unique ids, removing cuts exactly that one line out and keeps the others in order. */
  lemma RemoveSplices(cart: seq<CartLine>, id: int, k: nat)
    requires UniqueIds(cart) && IndexOf(cart, id) == Some(k)
    ensures Without(cart, id) == cart[..k] + cart[k + 1..]
  {
    FilterDropsOne(cart, k, KeepOther(id));
  }

  /** Removing one of the lines of a well-formed cart keeps ids unique and quantities positive. */
  lemma RemoveKeepsValid(cart: seq<CartLine>, id: int)
    requires UniqueIds(cart) && PositiveQtys(cart)
    ensures UniqueIds(Without(cart, id)) && PositiveQtys(Without(cart, id))
  {
    match IndexOf(cart, id)
    case None =>
      IndexOfIds(cart, id);
      RemoveAbsent(cart, id);
    case Some(k) =>
      RemoveSplices(cart, id, k);
      SpliceKeepsValid(cart, k);
  }

  lemma SpliceKeepsValid(cart: seq<CartLine>, k: nat)
    requires k < |cart| && UniqueIds(cart) && PositiveQtys(cart)
    ensures UniqueIds(cart[..k] + cart[k + 1..]) && PositiveQtys(cart[..k] + cart[k + 1..])
  {
    var r := cart[..k] + cart[k + 1..];
    assert forall i :: 0 <= i < |r| ==> r[i] == cart[if i < k then i else i + 1];
    forall i, j | 0 <= i < j < |r| ensures r[i].id != r[j].id {
      var i', j' := if i < k then i else i + 1, if j < k then j else j + 1;
      assert r[i] == cart[i'] && r[j] == cart[j'] && i' < j';
    }
  }

  /** The badge drops by exactly the removed line's quantity. */
  lemma RemoveCount(cart: seq<CartLine>, id: int, k: nat)
    requires UniqueIds(cart) && IndexOf(cart, id) == Some(k)
    ensures ItemCount(Without(cart, id)) == ItemCount(cart) - OrOne(cart[k].qty)
  {
    RemoveSplices(cart, id, k);
    SumCut(cart, k, LineCount);
  }

  /** `updateCartQty` keeps ids unique and quantities positive. */
  lemma SetQtyKeepsValid(cart: seq<CartLine>, id: int, qty: int)
    requires UniqueIds(cart) && PositiveQtys(cart)
    ensures UniqueIds(SetQty(cart, id, qty)) && PositiveQtys(SetQty(cart, id, qty))
  {
    match IndexOf(cart, id)
    case None =>
    case Some(k) =>
      if qty <= 0 {
        RemoveKeepsValid(cart, id);
      } else {
        var r := SetQty(cart, id, qty);
        assert forall i :: 0 <= i < |r| ==> r[i].id == cart[i].id;
      }
  }

  // ---------------------------------------------------------------------------
  // Repeated adds
  // ---------------------------------------------------------------------------

  /** The cart after calling `addToCart` with each of `ps` in turn. */
  function AddAll(cart: seq<CartLine>, ps: seq<ProductInput>): seq<CartLine>
  {
    if ps == [] then cart else AddLine(AddAll(cart, ps[..|ps| - 1]), ps[|ps| - 1])
  }

  function InputCount(p: ProductInput): int { OrOne(p.qty) }

  /** Adds of one id, in any number, leave exactly one line for it whose quantity is
      its starting quantity (0 when absent) plus every added `qty || 1`. */
  lemma {:induction false} RepeatedAdds(cart: seq<CartLine>, ps: seq<ProductInput>, x: int)
    requires UniqueIds(cart) && PositiveQtys(cart)
    requires |ps| > 0 && forall i :: 0 <= i < |ps| ==> ps[i].id == x && ps[i].qty >= 0
    ensures UniqueIds(AddAll(cart, ps)) && PositiveQtys(AddAll(cart, ps))
    ensures |AddAll(cart, ps)| == |cart| + (if x in Ids(cart) then 0 else 1)
    ensures IndexOf(AddAll(cart, ps), x).Some?
    ensures AddAll(cart, ps)[IndexOf(AddAll(cart, ps), x).value].qty ==
      (match IndexOf(cart, x) case Some(k) => cart[k].qty case None => 0) + Sum(ps, InputCount)
  {
    var init := ps[..|ps| - 1];
    var p := ps[|ps| - 1];
    IndexOfIds(cart, x);
    if init == [] {
      assert ps == [p];
      assert AddAll(cart, ps) == AddLine(cart, p);
      assert Sum(ps, InputCount) == OrOne(p.qty) by { assert ps[..0] == []; }
      AddKeepsUnique(cart, p);
      AddKeepsPositive(cart, p);
      IndexOfIds(AddLine(cart, p), x);
    } else {
      assert forall i :: 0 <= i < |init| ==> init[i] == ps[i];
      RepeatedAdds(cart, init, x);
      var mid := AddAll(cart, init);
      var k :| IndexOf(mid, x) == Some(k);
      AddKeepsUnique(mid, p);
      AddKeepsPositive(mid, p);
      IndexOfIds(mid, x);
      IndexOfIds(AddLine(mid, p), x);
    }
  }

  // ---------------------------------------------------------------------------
  // The order summary
  // ---------------------------------------------------------------------------

  /** Lines with no original price (0) contribute nothing to the savings. */
  lemma SavingsOnlyFromDiscountedLines(cart: seq<CartLine>)
    ensures Savings(cart) == Savings(Filter(cart, (l: CartLine) => l.oldPrice != 0))
  {
    SumFilter(cart, (l: CartLine) => l.oldPrice != 0, LineSavings);
  }

  /** With non-negative prices, original prices that are unset or not below the price, and
      positive quantities, every amount is non-negative and the total covers the subtotal. */
  lemma TotalsNonNegative(cart: seq<CartLine>)
    requires PositiveQtys(cart)
    requires forall i :: 0 <= i < |cart| ==>
      cart[i].price >= 0 && (cart[i].oldPrice == 0 || cart[i].oldPrice >= cart[i].price)
    ensures var t := Totals(cart); t.subtotal >= 0 && t.savings >= 0 && t.total >= t.subtotal
  {
    forall i | 0 <= i < |cart| ensures LineSubtotal(cart[i]) >= 0 && LineSavings(cart[i]) >= 0 {
      assert OrOne(cart[i].qty) >= 1;
    }
    SumAtLeast(cart, LineSubtotal, 0);
    SumAtLeast(cart, LineSavings, 0);
  }

  /** With positive quantities the badge is at least the number of lines. */
  lemma CountAtLeastLines(cart: seq<CartLine>)
    ensures PositiveQtys(cart) ==> Sum(cart, LineCount) >= |cart|
  {
    if PositiveQtys(cart) {
      SumAtLeast(cart, LineCount, 1);
    }
  }

  /** The worked examples of the cart page: a 1299 charger ships free, a 399 case pays 49,
      and headphones at 8999 reduced from 12999 save 4000. */
  lemma SummaryExamples()
    ensures Totals([CartLine(2, "65W GaN Fast Charger", 1299, 1999, "", "chargers", 1)]) ==
            Summary(1299, 700, 0, 1299)
    ensures Totals([CartLine(3, "Armor Phone Case", 399, 0, "", "covers", 1)]) ==
            Summary(399, 0, 49, 448)
    ensures Savings([CartLine(1, "Sony WH-1000XM5", 8999, 12999, "", "headphones", 1)]) == 4000
  {
  }

  // ---------------------------------------------------------------------------
  // The stored cart
  // ---------------------------------------------------------------------------

  /** The cart as the page sees it: the value under `mz_cart` and the number last shown on
      the cart badges. */
  class CartStore {
    /** The value stored under `mz_cart`; None once the key has been removed. */
    var storage: Option<seq<CartLine>>
    /** The count last written to the `#cartCount` badges. */
    var badge: int

    function GetCart(): seq<CartLine>
      reads this
    {
      CartOf(storage)
    }

    /** The invariant the cart operations keep. */
    ghost predicate Valid()
      reads this
    {
      UniqueIds(GetCart()) && PositiveQtys(GetCart())
    }

    /** The badges show the current count. */
    predicate Synced()
      reads this
    {
      badge == ItemCount(GetCart())
    }

    /** Page load: whatever is stored, and the badges refreshed from it. */
    constructor (stored: Option<seq<CartLine>>)
      ensures storage == stored && Synced()
    {
      storage := stored;
      badge := ItemCount(CartOf(stored));
    }

    /** `saveCart`: store the list and refresh the badges. */
    method SaveCart(cart: seq<CartLine>)
      modifies this
      ensures storage == Some(cart) && Synced()
    {
      storage := Some(cart);
      UpdateAllCartBadges();
    }

    /** `updateAllCartBadges`: recompute the count from storage. */
    method UpdateAllCartBadges()
      modifies this`badge
      ensures Synced()
    {
      var cart := GetCart();
      badge := ItemCount(cart);
    }

    method AddToCart(p: ProductInput)
      modifies this
      ensures storage == Some(AddLine(old(GetCart()), p)) && Synced()
      ensures old(PositiveQtys(GetCart())) && p.qty >= 0 ==>
              ItemCount(GetCart()) == old(ItemCount(GetCart())) + OrOne(p.qty)
      ensures old(Valid()) && p.qty >= 0 ==> Valid()
    {
      var cart := GetCart();
      ghost var before := cart;
      match IndexOf(cart, p.id) {
        case Some(k) =>
          var existing := cart[k];
          cart := cart[k := existing.(qty := OrOne(existing.qty) + OrOne(p.qty))];
        case None =>
          cart := cart + [NewLine(p)];
      }
      SaveCart(cart);
      if PositiveQtys(before) && p.qty >= 0 {
        AddCount(before, p);
        AddKeepsPositive(before, p);
        if UniqueIds(before) { AddKeepsUnique(before, p); }
      }
    }

    method RemoveFromCart(id: int)
      modifies this
      ensures storage == Some(Without(old(GetCart()), id)) && Synced()
      ensures old(Valid()) ==> Valid()
    {
      ghost var before := GetCart();
      var cart := Without(GetCart(), id);
      SaveCart(cart);
      if UniqueIds(before) && PositiveQtys(before) { RemoveKeepsValid(before, id); }
    }

    method UpdateCartQty(id: int, qty: int)
      modifies this
      ensures storage == Some(SetQty(old(GetCart()), id, qty)) && Synced()
      ensures old(Valid()) ==> Valid()
    {
      var cart := GetCart();
      ghost var before := cart;
      if UniqueIds(before) && PositiveQtys(before) { SetQtyKeepsValid(before, id, qty); }
      var item := IndexOf(cart, id);
      if item.Some? {
        if qty <= 0 {
          RemoveFromCart(id);
          return;
        }
        cart := cart[item.value := cart[item.value].(qty := qty)];
      }
      SaveCart(cart);
    }

    /** `clearCart` removes the key itself rather than storing an empty list. */
    method ClearCart()
      modifies this
      ensures storage == None && GetCart() == [] && badge == 0 && Valid()
    {
      storage := None;
      UpdateAllCartBadges();
    }
  }
}
