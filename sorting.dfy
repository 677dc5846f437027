/**
 * The four orderings the listing page offers (js/products.js), each applied with
 * `Array.prototype.sort`, which is stable. The comparator `cmp(a, b)` lets `a` stay
 * ahead of `b` when it is not positive; `Le(o, a, b)` is that condition.
 */
module Sorting {
  import opened Seqs
  import opened Catalog

  datatype Order = PriceAsc | PriceDesc | RatingDesc | DiscountDesc

  /** The discount ratio `(p.oldPrice - p.price) / p.oldPrice` of a record with a positive
      original price, as an exact rational. */
  function Ratio(p: Product): real
    requires p.oldPrice > 0
  {
    (p.oldPrice - p.price) as real / p.oldPrice as real
  }

  /** `cmp(a, b) <= 0` for the discount comparator `Ratio(b) - Ratio(a)`, compared exactly by
      cross-multiplying the positive denominators. A record whose original price is not
      positive ranks below every record whose original price is positive, and level with
      every other such record. For an original price of 0 and a positive price this is the
      source's ratio `-Infinity`; the other non-positive cases are listed as not modelled. */
  predicate DiscountAtLeast(a: Product, b: Product): (r: bool)
    ensures a.oldPrice > 0 && b.oldPrice > 0 ==> (r <==> Ratio(b) - Ratio(a) <= 0.0)
  {
    if a.oldPrice > 0 && b.oldPrice > 0 then
      RatioCompare(a.oldPrice - a.price, a.oldPrice, b.oldPrice - b.price, b.oldPrice);
      CrossAtLeast(a, b)
    else CrossAtLeast(a, b)
  }

  /** The integer test behind `DiscountAtLeast`. */
  predicate CrossAtLeast(a: Product, b: Product)
  {
    if b.oldPrice <= 0 then true
    else if a.oldPrice <= 0 then false
    else (a.oldPrice - a.price) * b.oldPrice >= (b.oldPrice - b.price) * a.oldPrice
  }

  /** Comparing two fractions with positive denominators by cross-multiplication. */
  lemma RatioCompare(x: int, ao: int, y: int, bo: int)
    requires ao > 0 && bo > 0
    ensures y as real / bo as real <= x as real / ao as real <==> y * ao <= x * bo
  {
    var p, q := x as real / ao as real, y as real / bo as real;
    var A, B := ao as real, bo as real;
    assert p * A == x as real;
    assert q * B == y as real;
    assert (y * ao) as real == q * B * A;
    assert (x * bo) as real == p * A * B;
    if q <= p { assert q * (A * B) <= p * (A * B); }
    else { assert p * (A * B) < q * (A * B); }
  }

  /** `cmp(a, b) <= 0` for the comparator of each sort option. */
  predicate Le(o: Order, a: Product, b: Product): (r: bool)
    ensures o == PriceAsc ==> (r <==> a.price - b.price <= 0)
    ensures o == PriceDesc ==> (r <==> b.price - a.price <= 0)
    ensures o == RatingDesc ==> (r <==> b.rating - a.rating <= 0)
    ensures o == DiscountDesc ==> (r <==> DiscountAtLeast(a, b))
  {
    match o
    case PriceAsc => a.price <= b.price        // a.price - b.price
    case PriceDesc => b.price <= a.price       // b.price - a.price
    case RatingDesc => b.rating <= a.rating    // b.rating - a.rating
    case DiscountDesc => DiscountAtLeast(a, b)
  }

  /** The comparator treats `a` and `b` as equal. */
  predicate Tied(o: Order, a: Product, b: Product)
  {
    Le(o, a, b) && Le(o, b, a)
  }

  /** The records the comparator ties with `k`. */
  function TiedWith(o: Order, k: Product): Product -> bool
  {
    (e: Product) => Tied(o, e, k)
  }

  ghost predicate SortedBy(o: Order, s: seq<Product>)
  {
    forall i, j :: 0 <= i < j < |s| ==> Le(o, s[i], s[j])
  }

  lemma LeTotal(o: Order, a: Product, b: Product)
    ensures Le(o, a, b) || Le(o, b, a)
  {
  }

  lemma MulLe(x: int, y: int, c: int)
    requires x <= y && c > 0
    ensures x * c <= y * c
  {
  }

  lemma DiscountTransitive(a: Product, b: Product, c: Product)
    requires DiscountAtLeast(a, b) && DiscountAtLeast(b, c)
    ensures DiscountAtLeast(a, c)
  {
    CrossTransitive(a, b, c);
  }

  lemma CrossTransitive(a: Product, b: Product, c: Product)
    requires CrossAtLeast(a, b) && CrossAtLeast(b, c)
    ensures CrossAtLeast(a, c)
  {
    if c.oldPrice > 0 && a.oldPrice > 0 {
      assert b.oldPrice > 0;
      var da, db, dc := a.oldPrice - a.price, b.oldPrice - b.price, c.oldPrice - c.price;
      // da / ao >= db / bo >= dc / co, so da * co * bo >= dc * ao * bo
      MulLe(db * a.oldPrice, da * b.oldPrice, c.oldPrice);
      MulLe(dc * b.oldPrice, db * c.oldPrice, a.oldPrice);
      assert db * a.oldPrice * c.oldPrice == db * c.oldPrice * a.oldPrice;
      assert (dc * a.oldPrice) * b.oldPrice <= (da * c.oldPrice) * b.oldPrice;
      if dc * a.oldPrice > da * c.oldPrice {
        MulLe(da * c.oldPrice + 1, dc * a.oldPrice, b.oldPrice);
        assert false;
      }
    }
  }

  lemma LeTransitive(o: Order, a: Product, b: Product, c: Product)
    requires Le(o, a, b) && Le(o, b, c)
    ensures Le(o, a, c)
  {
    if o == DiscountDesc { DiscountTransitive(a, b, c); }
  }

  // ---------------------------------------------------------------------------
  // A stable sort: insertion from the right keeps equal records in input order
  // ---------------------------------------------------------------------------

  /** Place `x` after every record of the sorted `r` that may precede it. */
  function Insert(o: Order, r: seq<Product>, x: Product): (t: seq<Product>)
    ensures multiset(t) == multiset(r) + multiset{x}
    ensures |t| == |r| + 1
  {
    if r == [] then [x]
    else if Le(o, r[|r| - 1], x) then r + [x]
    else
      var r' := r[..|r| - 1];
      assert r == r' + [r[|r| - 1]];
      Insert(o, r', x) + [r[|r| - 1]]
  }

  /** `s.sort(cmp)`: a stable sort under the comparator of `o`. */
  function StableSort(o: Order, s: seq<Product>): (r: seq<Product>)
    ensures multiset(r) == multiset(s)
    ensures |r| == |s|
  {
    if s == [] then []
    else
      assert s == s[..|s| - 1] + [s[|s| - 1]];
      Insert(o, StableSort(o, s[..|s| - 1]), s[|s| - 1])
  }

  lemma {:induction false} InsertSorted(o: Order, r: seq<Product>, x: Product)
    requires SortedBy(o, r)
    ensures SortedBy(o, Insert(o, r, x))
  {
    if r != [] {
      var last := r[|r| - 1];
      var r' := r[..|r| - 1];
      if Le(o, last, x) {
        var t := r + [x];
        forall i, j | 0 <= i < j < |t| ensures Le(o, t[i], t[j]) {
          if j == |r| && i < |r| - 1 {
            LeTransitive(o, r[i], last, x);
          }
        }
      } else {
        LeTotal(o, last, x);
        assert SortedBy(o, r');
        InsertSorted(o, r', x);
        var u := Insert(o, r', x);
        var t := u + [last];
        forall i | 0 <= i < |u| ensures Le(o, u[i], last) {
          assert u[i] in multiset(u);
          if u[i] != x {
            assert u[i] in multiset(r');
            var m :| 0 <= m < |r'| && r'[m] == u[i];
            assert r[m] == u[i];
          }
        }
        assert forall i, j :: 0 <= i < j < |t| ==> Le(o, t[i], t[j]) by {
          forall i, j | 0 <= i < j < |t| ensures Le(o, t[i], t[j]) {
            if j < |u| { assert t[i] == u[i] && t[j] == u[j]; } else { assert t[i] == u[i]; }
          }
        }
      }
    }
  }

  lemma {:induction false} StableSortSorted(o: Order, s: seq<Product>)
    ensures SortedBy(o, StableSort(o, s))
  {
    if s != [] {
      StableSortSorted(o, s[..|s| - 1]);
      InsertSorted(o, StableSort(o, s[..|s| - 1]), s[|s| - 1]);
    }
  }

  /** Inserting `x` adds it at the end of its tie class and leaves every other class alone. */
  lemma {:induction false} InsertStable(o: Order, r: seq<Product>, x: Product, k: Product)
    ensures Filter(Insert(o, r, x), TiedWith(o, k)) ==
            Filter(r, TiedWith(o, k)) + Filter([x], TiedWith(o, k))
  {
    var f := TiedWith(o, k);
    if r == [] {
      assert [] + [x] == [x];
    } else if Le(o, r[|r| - 1], x) {
      FilterConcat(r, [x], f);
    } else {
      var last := r[|r| - 1];
      var r' := r[..|r| - 1];
      InsertStable(o, r', x, k);
      assert Insert(o, r, x) == Insert(o, r', x) + [last];
      FilterConcat(Insert(o, r', x), [last], f);
      SplitLast(r);
      FilterConcat(r', [last], f);
      FilterSingleton(x, f);
      FilterSingleton(last, f);
      if f(x) && f(last) {
        // last ~ k ~ x would give Le(last, x)
        LeTransitive(o, last, k, x);
        assert false;
      }
      SwapEmpty(Filter(r', f), Filter([x], f), Filter([last], f));
    }
  }

  lemma SwapEmpty<T>(b: seq<T>, x: seq<T>, l: seq<T>)
    requires x == [] || l == []
    ensures (b + x) + l == (b + l) + x
  {
  }

  /** Stability: within every tie class the sorted list keeps the input order. */
  lemma {:induction false} StableSortStable(o: Order, s: seq<Product>, k: Product)
    ensures Filter(StableSort(o, s), TiedWith(o, k)) == Filter(s, TiedWith(o, k))
  {
    if s != [] {
      var s', x := s[..|s| - 1], s[|s| - 1];
      StableSortStable(o, s', k);
      InsertStable(o, StableSort(o, s'), x, k);
      SplitLast(s);
      FilterConcat(s', [x], TiedWith(o, k));
    }
  }

  /** `s.sort(cmp)` gives a permutation of `s`, ordered by the comparator, and stable. */
  lemma SortSpec(o: Order, s: seq<Product>)
    ensures multiset(StableSort(o, s)) == multiset(s)
    ensures SortedBy(o, StableSort(o, s))
    ensures forall k :: Filter(StableSort(o, s), TiedWith(o, k)) == Filter(s, TiedWith(o, k))
  {
    StableSortSorted(o, s);
    forall k ensures Filter(StableSort(o, s), TiedWith(o, k)) == Filter(s, TiedWith(o, k)) {
      StableSortStable(o, s, k);
    }
  }
}
