/**
 * Generic sequence operations that the storefront uses in several places:
 * `Array.prototype.filter`, the left-to-right `reduce` that sums a field,
 * and the notion of "subsequence in the same relative order".
 */
module Seqs {

  /** `s.filter(f)`: the elements of `s` satisfying `f`, in their original order. */
  function Filter<T(==)>(s: seq<T>, f: T -> bool): (r: seq<T>)
    ensures |r| <= |s|
  {
    if s == [] then [] else (if f(s[0]) then [s[0]] else []) + Filter(s[1..], f)
  }

  /** Filtering keeps exactly the elements that satisfy the predicate. */
  lemma {:induction false} FilterMembers<T>(s: seq<T>, f: T -> bool)
    ensures forall i :: 0 <= i < |Filter(s, f)| ==> Filter(s, f)[i] in s && f(Filter(s, f)[i])
    ensures forall i :: 0 <= i < |s| && f(s[i]) ==> s[i] in Filter(s, f)
  {
    if s != [] {
      FilterMembers(s[1..], f);
      var x, rest := if f(s[0]) then [s[0]] else [], Filter(s[1..], f);
      assert Filter(s, f) == x + rest;
      assert forall i :: 0 <= i < |x + rest| ==> (x + rest)[i] in s && f((x + rest)[i]) by {
        forall i | 0 <= i < |x + rest| ensures (x + rest)[i] in s && f((x + rest)[i]) {
          if i >= |x| { assert (x + rest)[i] == rest[i - |x|]; assert rest[i - |x|] in s[1..]; }
        }
      }
      forall i | 0 <= i < |s| && f(s[i]) ensures s[i] in x + rest {
        if i > 0 { assert s[i] == s[1..][i - 1]; }
      }
    }
  }

  /** `s.reduce((acc, x) => acc + g(x), 0)`, folded from the left as `reduce` does. */
  function Sum<T>(s: seq<T>, g: T -> int): (r: int)
    ensures s == [] ==> r == 0
    ensures |s| == 1 ==> r == g(s[0])
  {
    if s == [] then 0 else Sum(s[..|s| - 1], g) + g(s[|s| - 1])
  }

  /** `r` is obtained from `s` by deleting elements: same relative order. */
  predicate IsSubseq<T(==)>(r: seq<T>, s: seq<T>)
    decreases |s|
  {
    r == [] || (s != [] && ((r[0] == s[0] && IsSubseq(r[1..], s[1..])) || IsSubseq(r, s[1..])))
  }

  lemma {:induction false} FilterIsSubseq<T>(s: seq<T>, f: T -> bool)
    ensures IsSubseq(Filter(s, f), s)
  {
    if s != [] {
      FilterIsSubseq(s[1..], f);
      var rest := Filter(s[1..], f);
      if f(s[0]) {
        assert Filter(s, f) == [s[0]] + rest;
        assert ([s[0]] + rest)[1..] == rest;
      } else {
        assert Filter(s, f) == rest;
      }
    }
  }

  /** A weaker predicate keeps everything a stronger one keeps, in the same order. */
  lemma {:induction false} FilterMonotonic<T>(s: seq<T>, f: T -> bool, g: T -> bool)
    requires forall i :: 0 <= i < |s| && f(s[i]) ==> g(s[i])
    ensures IsSubseq(Filter(s, f), Filter(s, g))
  {
    if s != [] {
      FilterMonotonic(s[1..], f, g);
      var rf, rg := Filter(s[1..], f), Filter(s[1..], g);
      if f(s[0]) {
        assert Filter(s, f) == [s[0]] + rf && Filter(s, g) == [s[0]] + rg;
        assert ([s[0]] + rf)[1..] == rf && ([s[0]] + rg)[1..] == rg;
      } else if g(s[0]) {
        assert Filter(s, f) == rf && Filter(s, g) == [s[0]] + rg;
        assert ([s[0]] + rg)[1..] == rg;
      } else {
        assert Filter(s, f) == rf && Filter(s, g) == rg;
      }
    }
  }

  lemma {:induction false} FilterAll<T>(s: seq<T>, f: T -> bool)
    requires forall i :: 0 <= i < |s| ==> f(s[i])
    ensures Filter(s, f) == s
  {
    if s != [] {
      FilterAll(s[1..], f);
      assert [s[0]] + s[1..] == s;
    }
  }

  lemma {:induction false} FilterConcat<T>(a: seq<T>, b: seq<T>, f: T -> bool)
    ensures Filter(a + b, f) == Filter(a, f) + Filter(b, f)
  {
    if a == [] {
      assert a + b == b;
    } else {
      var x := if f(a[0]) then [a[0]] else [];
      assert (a + b)[0] == a[0] && (a + b)[1..] == a[1..] + b;
      FilterConcat(a[1..], b, f);
      calc {
        Filter(a + b, f);
        x + Filter(a[1..] + b, f);
        x + (Filter(a[1..], f) + Filter(b, f));
        (x + Filter(a[1..], f)) + Filter(b, f);
        Filter(a, f) + Filter(b, f);
      }
    }
  }

  lemma FilterSingleton<T>(x: T, f: T -> bool)
    ensures Filter([x], f) == if f(x) then [x] else []
  {
    assert [x][1..] == [];
  }

  /** When exactly the element at `k` fails `f`, filtering cuts out that one element. */
  lemma FilterDropsOne<T>(s: seq<T>, k: nat, f: T -> bool)
    requires k < |s| && !f(s[k])
    requires forall i :: 0 <= i < |s| && i != k ==> f(s[i])
    ensures Filter(s, f) == s[..k] + s[k + 1..]
  {
    var pre, post := s[..k], s[k + 1..];
    assert Filter(pre, f) == pre by {
      assert forall i :: 0 <= i < |pre| ==> pre[i] == s[i];
      FilterAll(pre, f);
    }
    assert Filter(post, f) == post by {
      assert forall i :: 0 <= i < |post| ==> post[i] == s[k + 1 + i];
      FilterAll(post, f);
    }
    FilterCut(s, k, f);
  }

  lemma FilterCut<T>(s: seq<T>, k: nat, f: T -> bool)
    requires k < |s| && !f(s[k])
    requires Filter(s[..k], f) == s[..k] && Filter(s[k + 1..], f) == s[k + 1..]
    ensures Filter(s, f) == s[..k] + s[k + 1..]
  {
    FilterSingleton(s[k], f);
    FilterAround(s, k, f);
    assert [] + s[k + 1..] == s[k + 1..];
  }

  lemma FilterAround<T>(s: seq<T>, k: nat, f: T -> bool)
    requires k < |s|
    ensures Filter(s, f) == Filter(s[..k], f) + (Filter([s[k]], f) + Filter(s[k + 1..], f))
  {
    SplitAt(s, k);
    FilterConcat(s[..k], [s[k]] + s[k + 1..], f);
    FilterConcat([s[k]], s[k + 1..], f);
  }

  lemma SplitAt<T>(s: seq<T>, k: nat)
    requires k < |s|
    ensures s == s[..k] + ([s[k]] + s[k + 1..])
  {
  }

  lemma SplitLast<T>(s: seq<T>)
    requires s != []
    ensures s == s[..|s| - 1] + [s[|s| - 1]]
  {
  }

  lemma {:induction false} SumConcat<T>(a: seq<T>, b: seq<T>, g: T -> int)
    ensures Sum(a + b, g) == Sum(a, g) + Sum(b, g)
    decreases |b|
  {
    if b == [] {
      assert a + b == a;
    } else {
      var b' := b[..|b| - 1];
      assert (a + b)[..|a + b| - 1] == a + b';
      SumConcat(a, b', g);
    }
  }

  /** Replacing one element changes the sum by the difference of the two terms. */
  lemma SumUpdate<T>(s: seq<T>, k: nat, x: T, g: T -> int)
    requires k < |s|
    ensures Sum(s[k := x], g) == Sum(s, g) - g(s[k]) + g(x)
  {
    UpdateAt(s, k, x);
    SumAround(s, k, g);
    SumAround(s[k := x], k, g);
  }

  /** Cutting out one element lowers the sum by its term. */
  lemma SumCut<T>(s: seq<T>, k: nat, g: T -> int)
    requires k < |s|
    ensures Sum(s[..k] + s[k + 1..], g) == Sum(s, g) - g(s[k])
  {
    SumAround(s, k, g);
    SumConcat(s[..k], s[k + 1..], g);
  }

  lemma SumAround<T>(s: seq<T>, k: nat, g: T -> int)
    requires k < |s|
    ensures Sum(s, g) == Sum(s[..k], g) + g(s[k]) + Sum(s[k + 1..], g)
  {
    SplitAt(s, k);
    SumConcat(s[..k], [s[k]] + s[k + 1..], g);
    SumConcat([s[k]], s[k + 1..], g);
    assert Sum([s[k]], g) == g(s[k]) by { assert [s[k]][..0] == []; }
  }

  lemma UpdateAt<T>(s: seq<T>, k: nat, x: T)
    requires k < |s|
    ensures s[k := x][..k] == s[..k] && s[k := x][k + 1..] == s[k + 1..]
  {
  }

  /** Dropping elements on whose terms `g` is zero does not change the sum. */
  lemma {:induction false} SumFilter<T>(s: seq<T>, f: T -> bool, g: T -> int)
    requires forall i :: 0 <= i < |s| && !f(s[i]) ==> g(s[i]) == 0
    ensures Sum(Filter(s, f), g) == Sum(s, g)
  {
    if s != [] {
      var x, rest := if f(s[0]) then [s[0]] else [], s[1..];
      assert Filter(s, f) == x + Filter(rest, f);
      SumFilter(rest, f, g);
      SumConcat(x, Filter(rest, f), g);
      assert s == [s[0]] + rest;
      SumConcat([s[0]], rest, g);
      assert Sum([s[0]], g) == g(s[0]) by { assert [s[0]][..0] == []; }
      assert Sum(x, g) == Sum([s[0]], g) by { if x == [] { assert g(s[0]) == 0; } }
    }
  }

  /** Every term at least `lo` (non-negative): the sum is at least `lo` per element. */
  lemma {:induction false} SumAtLeast<T>(s: seq<T>, g: T -> int, lo: nat)
    requires forall i :: 0 <= i < |s| ==> g(s[i]) >= lo
    ensures Sum(s, g) >= lo * |s|
  {
    if s != [] {
      SumAtLeast(s[..|s| - 1], g, lo);
    }
  }

  /** A sum of zero terms is zero. */
  lemma {:induction false} SumZero<T>(s: seq<T>, g: T -> int)
    requires forall i :: 0 <= i < |s| ==> g(s[i]) == 0
    ensures Sum(s, g) == 0
  {
    if s != [] {
      SumZero(s[..|s| - 1], g);
    }
  }

  /** Two predicates that agree on the elements of `s` filter it alike. */
  lemma {:induction false} FilterAgree<T>(s: seq<T>, f: T -> bool, g: T -> bool)
    requires forall i :: 0 <= i < |s| ==> f(s[i]) == g(s[i])
    ensures Filter(s, f) == Filter(s, g)
  {
    if s != [] {
      FilterAgree(s[1..], f, g);
    }
  }
}
