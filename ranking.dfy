/**
 * `products.sort((a, b) => b.sold - a.sold)`: the best sellers first.
 * `Array.prototype.sort` is stable (ECMAScript 2019 onwards), so products
 * that sold equally keep their store order and the result is determined:
 * `SortBySold` is that result, and `SortBySoldInPlace` sorts an array in
 * place into it, as both the chatbot and the products route do.
 */
module Ranking {
  import opened Wrappers
  import opened Store

  /** Descending by `sold`. */
  predicate SortedBySold(s: seq<Product>)
  {
    forall i, j :: 0 <= i < j < |s| ==> s[i].sold >= s[j].sold
  }

  /** Inserts `x` after every element that sold at least as much as it. */
  function InsertBySold(x: Product, s: seq<Product>): seq<Product>
    decreases |s|
  {
    if |s| == 0 then [x]
    else if s[0].sold >= x.sold then [s[0]] + InsertBySold(x, s[1..])
    else [x] + s
  }

  /** The stable sort by `sold`, descending: each element goes in after the earlier ones that sold as much. */
  function SortBySold(s: seq<Product>): seq<Product>
    decreases |s|
  {
    if |s| == 0 then [] else InsertBySold(s[|s| - 1], SortBySold(s[..|s| - 1]))
  }

  lemma {:induction false} InsertBySoldBounded(x: Product, s: seq<Product>, bound: int)
    requires x.sold <= bound
    requires forall k :: 0 <= k < |s| ==> s[k].sold <= bound
    ensures |InsertBySold(x, s)| == |s| + 1
    ensures forall k :: 0 <= k < |InsertBySold(x, s)| ==> InsertBySold(x, s)[k].sold <= bound
    decreases |s|
  {
    if |s| > 0 && s[0].sold >= x.sold {
      InsertBySoldBounded(x, s[1..], bound);
    }
  }

  lemma {:induction false} InsertBySoldSorted(x: Product, s: seq<Product>)
    requires SortedBySold(s)
    ensures SortedBySold(InsertBySold(x, s))
    decreases |s|
  {
    if |s| > 0 && s[0].sold >= x.sold {
      InsertBySoldSorted(x, s[1..]);
      InsertBySoldBounded(x, s[1..], s[0].sold);
    }
  }

  lemma {:induction false} InsertBySoldMultiset(x: Product, s: seq<Product>)
    ensures multiset(InsertBySold(x, s)) == multiset(s) + multiset{x}
    decreases |s|
  {
    if |s| > 0 && s[0].sold >= x.sold {
      InsertBySoldMultiset(x, s[1..]);
      assert s == [s[0]] + s[1..];
    }
  }

  /** The sort puts the products in descending order of `sold`. */
  lemma {:induction false} SortBySoldOrdered(s: seq<Product>)
    ensures SortedBySold(SortBySold(s))
    decreases |s|
  {
    if |s| > 0 {
      var front, last := s[..|s| - 1], s[|s| - 1];
      SortBySoldOrdered(front);
      InsertBySoldSorted(last, SortBySold(front));
    }
  }

  /** The sort only reorders: it keeps every product as often as it occurs. */
  lemma {:induction false} SortBySoldPermutation(s: seq<Product>)
    ensures multiset(SortBySold(s)) == multiset(s)
    decreases |s|
  {
    if |s| > 0 {
      var front, last := s[..|s| - 1], s[|s| - 1];
      assert s == front + [last];
      calc {
        multiset(SortBySold(s));
        multiset(InsertBySold(last, SortBySold(front)));
        { InsertBySoldMultiset(last, SortBySold(front)); }
        multiset(SortBySold(front)) + multiset{last};
        { SortBySoldPermutation(front); }
        multiset(front) + multiset{last};
        multiset(s);
      }
    }
  }

  /** The sort is sorted and a permutation of its input. */
  lemma SortBySoldSorted(s: seq<Product>)
    ensures SortedBySold(SortBySold(s))
    ensures multiset(SortBySold(s)) == multiset(s)
    ensures |SortBySold(s)| == |s|
  {
    SortBySoldOrdered(s);
    SortBySoldPermutation(s);
    assert |SortBySold(s)| == |multiset(SortBySold(s))|;
  }

  /** Where the insertion lands when the sorted sequence is scanned from its end, as the array sort does. */
  lemma {:induction false} InsertBySoldAt(x: Product, s: seq<Product>, j: nat)
    requires SortedBySold(s) && j <= |s|
    requires forall m :: j <= m < |s| ==> s[m].sold < x.sold
    requires j == 0 || s[j - 1].sold >= x.sold
    ensures InsertBySold(x, s) == s[..j] + [x] + s[j..]
    decreases |s|
  {
    if |s| > 0 && j > 0 {
      assert s[0].sold >= s[j - 1].sold;
      InsertBySoldAt(x, s[1..], j - 1);
      assert s[..j] == [s[0]] + s[1..][..j - 1];
      assert s[j..] == s[1..][j - 1..];
    }
  }

  /** The inner loop of the insertion sort: the elements of `a[..i]` that sold less than `x`, at its end, move one place right. */
  method ShiftSmaller(a: array<Product>, i: nat, x: Product) returns (j: nat)
    requires i < a.Length
    modifies a
    ensures j <= i
    ensures forall m :: 0 <= m < j ==> a[m] == old(a[m])
    ensures forall m :: j < m <= i ==> a[m] == old(a[m - 1])
    ensures forall m :: j <= m < i ==> old(a[m]).sold < x.sold
    ensures j == 0 || old(a[j - 1]).sold >= x.sold
    ensures forall m :: i < m < a.Length ==> a[m] == old(a[m])
  {
    ghost var before := a[..];
    j := i;
    while j > 0 && a[j - 1].sold < x.sold
      invariant 0 <= j <= i && |before| == a.Length
      invariant forall m :: 0 <= m < j ==> a[m] == before[m]
      invariant forall m :: j < m <= i ==> a[m] == before[m - 1]
      invariant forall m :: j <= m < i ==> before[m].sold < x.sold
      invariant forall m :: i < m < a.Length ==> a[m] == before[m]
    {
      a[j] := a[j - 1];
      j := j - 1;
    }
  }

  /** One step of the insertion sort: `a[i]` moves left past the elements of the sorted `a[..i]` that sold less. */
  method InsertIntoPrefix(a: array<Product>, i: nat)
    requires i < a.Length && SortedBySold(a[..i])
    modifies a
    ensures a[..i + 1] == InsertBySold(old(a[i]), old(a[..i]))
    ensures a[i + 1..] == old(a[i + 1..])
  {
    ghost var sorted := a[..i];
    ghost var rest := a[i + 1..];
    var x := a[i];
    var j := ShiftSmaller(a, i, x);
    a[j] := x;
    InsertBySoldAt(x, sorted, j);
    ShiftedIsInserted(a[..], sorted, x, j);
    assert a[i + 1..] == rest;
  }

  lemma ShiftedIsInserted(after: seq<Product>, sorted: seq<Product>, x: Product, j: nat)
    requires j <= |sorted| < |after|
    requires forall m :: 0 <= m < j ==> after[m] == sorted[m]
    requires after[j] == x
    requires forall m :: j < m <= |sorted| ==> after[m] == sorted[m - 1]
    ensures after[..|sorted| + 1] == sorted[..j] + [x] + sorted[j..]
  {
    ghost var inserted := sorted[..j] + [x] + sorted[j..];
    forall m | 0 <= m <= |sorted|
      ensures after[m] == inserted[m]
    {
      if m < j {
        assert inserted[m] == sorted[m];
      } else if m > j {
        assert inserted[m] == sorted[m - 1];
      }
    }
  }

  /** One more element of the input: the sort of a longer prefix inserts that element into the sort of the shorter one. */
  lemma SortBySoldStep(s: seq<Product>, i: nat)
    requires i < |s|
    ensures SortBySold(s[..i + 1]) == InsertBySold(s[i], SortBySold(s[..i]))
  {
    assert s[..i + 1][..i] == s[..i];
  }

  /** The sort step of both handlers, in place: an insertion sort. */
  method SortBySoldInPlace(a: array<Product>)
    modifies a
    ensures a[..] == SortBySold(old(a[..]))
  {
    ghost var input := a[..];
    var i := 0;
    while i < a.Length
      invariant 0 <= i <= a.Length
      invariant a[..i] == SortBySold(input[..i])
      invariant a[i..] == input[i..]
    {
      ghost var before := a[..];
      assert before[i] == a[i..][0] == input[i];
      assert before[i + 1..] == input[i + 1..] by {
        assert before[i + 1..] == a[i..][1..];
      }
      SortBySoldSorted(input[..i]);
      InsertIntoPrefix(a, i);
      SortBySoldStep(input, i);
      i := i + 1;
    }
    assert input[..a.Length] == input;
  }

  /** The `n` best sellers: `sort(...).slice(0, n)` for `n >= 0`. */
  function TopBySold(products: seq<Product>, n: nat): (r: seq<Product>)
    ensures |r| == Min(n, |products|)
  {
    SortBySoldSorted(products);
    SortBySold(products)[..Min(n, |products|)]
  }

  /** The best sellers are in descending order and come from the store. */
  lemma TopBySoldFromStore(products: seq<Product>, n: nat)
    ensures SortedBySold(TopBySold(products, n))
    ensures multiset(TopBySold(products, n)) <= multiset(products)
  {
    var sorted := SortBySold(products);
    SortBySoldSorted(products);
    var k := Min(n, |products|);
    assert sorted == sorted[..k] + sorted[k..];
    assert multiset(sorted) == multiset(sorted[..k]) + multiset(sorted[k..]);
  }

  /** The best sellers really are the best: every product left out sold no more than any product kept. */
  lemma TopBySoldIsTop(products: seq<Product>, n: nat)
    ensures forall p, q :: p in TopBySold(products, n) && q in products && q !in TopBySold(products, n) ==> p.sold >= q.sold
  {
    var sorted := SortBySold(products);
    SortBySoldSorted(products);
    var k := Min(n, |products|);
    forall p, q | p in sorted[..k] && q in products && q !in sorted[..k]
      ensures p.sold >= q.sold
    {
      assert q in multiset(products);
      var b :| 0 <= b < |sorted| && sorted[b] == q;
      var a :| 0 <= a < k && sorted[..k][a] == p;
      assert forall m :: 0 <= m < k ==> sorted[..k][m] == sorted[m];
      assert k <= b;
    }
  }
}
