/** `sortStrategies` and `sortProducts`: a copy of the list sorted with one of seven
    comparators by a stable sort. */
module ProductSort {
  import opened Products
  import Seqs

  datatype Strategy = PriceAsc | PriceDesc | Newest | Sale | Popularity | Rating | Default

  /** `sortStrategies[sortType] || sortStrategies.default`: an unknown sort type falls back
      to the default comparator. */
  function StrategyOf(sortType: string): Strategy {
    if sortType == "price-asc" then PriceAsc
    else if sortType == "price-desc" then PriceDesc
    else if sortType == "newest" then Newest
    else if sortType == "sale" then Sale
    else if sortType == "popularity" then Popularity
    else if sortType == "rating" then Rating
    else Default
  }

  /** Code-point lexicographic comparison with the sign convention of `localeCompare`. */
  function LexCompare(s: string, t: string): int {
    if s == [] && t == [] then 0
    else if s == [] then -1
    else if t == [] then 1
    else if s[0] < t[0] then -1
    else if s[0] > t[0] then 1
    else LexCompare(s[1..], t[1..])
  }

  function SaleRank(onSale: bool): int {
    if onSale then 1 else 0
  }

  /** The comparator of a strategy: negative when `a` goes first, positive when `b` does. */
  function Compare(st: Strategy, a: Product, b: Product): int {
    match st
    case PriceAsc => a.price - b.price
    case PriceDesc => b.price - a.price
    case Newest => LexCompare(b.id, a.id)
    case Sale => SaleRank(b.salesStatus) - SaleRank(a.salesStatus)
    case Popularity => b.popularity - a.popularity
    case Rating => b.rating - a.rating
    case Default => 0
  }

  lemma {:induction false} LexAntisymmetric(s: string, t: string)
    ensures LexCompare(s, t) == -LexCompare(t, s)
  {
    if s != [] && t != [] && s[0] == t[0] {
      LexAntisymmetric(s[1..], t[1..]);
    }
  }

  lemma {:induction false} LexTransitive(s: string, t: string, u: string)
    requires LexCompare(s, t) <= 0 && LexCompare(t, u) <= 0
    ensures LexCompare(s, u) <= 0
  {
    if s != [] && t != [] && u != [] && s[0] == t[0] && t[0] == u[0] {
      LexTransitive(s[1..], t[1..], u[1..]);
    }
  }

  /** Two strings compare equal exactly when they are the same string. */
  lemma {:induction false} LexEqual(s: string, t: string)
    ensures LexCompare(s, t) == 0 <==> s == t
  {
    if s != [] && t != [] && s[0] == t[0] {
      LexEqual(s[1..], t[1..]);
      assert s == [s[0]] + s[1..] && t == [t[0]] + t[1..];
    }
  }

  /** Every comparator is consistent: swapping the arguments negates it... */
  lemma CompareAntisymmetric(st: Strategy, a: Product, b: Product)
    ensures Compare(st, a, b) == -Compare(st, b, a)
  {
    if st == Newest {
      LexAntisymmetric(b.id, a.id);
    }
  }

  /** ...and "goes no later than" is transitive. */
  lemma CompareTransitive(st: Strategy, a: Product, b: Product, c: Product)
    requires Compare(st, a, b) <= 0 && Compare(st, b, c) <= 0
    ensures Compare(st, a, c) <= 0
  {
    if st == Newest {
      LexTransitive(c.id, b.id, a.id);
    }
  }

  /** Comparing equal is transitive. */
  lemma CompareEquivalent(st: Strategy, a: Product, b: Product, c: Product)
    requires Compare(st, a, b) == 0 && Compare(st, a, c) == 0
    ensures Compare(st, b, c) == 0
  {
    CompareAntisymmetric(st, a, b);
    CompareAntisymmetric(st, a, c);
    CompareAntisymmetric(st, b, c);
    CompareTransitive(st, b, a, c);
    CompareTransitive(st, c, a, b);
  }

  // ---------------------------------------------------------------------------
  // The stable sort
  // ---------------------------------------------------------------------------

  /** `x` placed before the first element it does not compare after. */
  function Insert(st: Strategy, x: Product, t: seq<Product>): (r: seq<Product>)
    ensures |r| == |t| + 1 && multiset(r) == multiset(t) + multiset{x}
  {
    if t == [] then [x]
    else if Compare(st, x, t[0]) <= 0 then [x] + t
    else
      var r := [t[0]] + Insert(st, x, t[1..]);
      assert t == [t[0]] + t[1..];
      r
  }

  /** Insertion sort: each element is inserted into the sorted rest of the list, ahead of the
      elements it ties with, which came later in the input. */
  function SortBy(st: Strategy, s: seq<Product>): (r: seq<Product>)
    ensures |r| == |s| && multiset(r) == multiset(s)
  {
    if s == [] then []
    else
      var r := Insert(st, s[0], SortBy(st, s[1..]));
      assert s == [s[0]] + s[1..];
      r
  }

  /** `sortProducts(products, sortType)`: a sorted copy, the input left as it is. */
  function SortProducts(products: seq<Product>, sortType: string): seq<Product> {
    SortBy(StrategyOf(sortType), products)
  }

  ghost predicate Sorted(st: Strategy, r: seq<Product>) {
    forall i, j :: 0 <= i < j < |r| ==> Compare(st, r[i], r[j]) <= 0
  }

  /** The products that compare equal to `c`: the ties among which a stable sort keeps the
      input order. */
  function TiesWith(st: Strategy, c: Product): Product -> bool {
    y => Compare(st, c, y) == 0
  }

  lemma {:induction false} InsertSorted(st: Strategy, x: Product, t: seq<Product>)
    requires Sorted(st, t)
    ensures Sorted(st, Insert(st, x, t))
  {
    if t == [] {
    } else if Compare(st, x, t[0]) <= 0 {
      forall j | 0 <= j < |t| ensures Compare(st, x, t[j]) <= 0 {
        if j > 0 {
          CompareTransitive(st, x, t[0], t[j]);
        }
      }
      ConsSorted(st, x, t);
    } else {
      InsertSorted(st, x, t[1..]);
      var rest := Insert(st, x, t[1..]);
      CompareAntisymmetric(st, x, t[0]);
      forall k | 0 <= k < |rest| ensures Compare(st, t[0], rest[k]) <= 0 {
        assert rest[k] in multiset(rest);
        if rest[k] != x {
          HeadFirst(st, t, rest[k]);
        }
      }
      ConsSorted(st, t[0], rest);
    }
  }

  /** A head that goes no later than any element of a sorted list keeps it sorted. */
  lemma ConsSorted(st: Strategy, h: Product, r: seq<Product>)
    requires Sorted(st, r)
    requires forall k :: 0 <= k < |r| ==> Compare(st, h, r[k]) <= 0
    ensures Sorted(st, [h] + r)
  {
    var s := [h] + r;
    forall i, j | 0 <= i < j < |s| ensures Compare(st, s[i], s[j]) <= 0 {
      if i == 0 {
        assert s[j] == r[j - 1];
      } else {
        assert s[i] == r[i - 1] && s[j] == r[j - 1];
      }
    }
  }

  /** The head of a sorted list goes no later than any product in its tail. */
  lemma HeadFirst(st: Strategy, t: seq<Product>, y: Product)
    requires Sorted(st, t) && t != [] && y in multiset(t[1..])
    ensures Compare(st, t[0], y) <= 0
  {
    var m :| 0 <= m < |t[1..]| && t[1..][m] == y;
    assert t[m + 1] == y;
  }

  lemma {:induction false} InsertStable(st: Strategy, c: Product, x: Product, t: seq<Product>)
    ensures Seqs.Filter(Insert(st, x, t), TiesWith(st, c))
            == (if Compare(st, c, x) == 0 then [x] else []) + Seqs.Filter(t, TiesWith(st, c))
  {
    var ties := TiesWith(st, c);
    if t == [] {
    } else if Compare(st, x, t[0]) <= 0 {
      Seqs.FilterCons(x, t, ties);
    } else {
      var h, tail := t[0], t[1..];
      assert t == [h] + tail;
      InsertStable(st, c, x, tail);
      Seqs.FilterCons(h, Insert(st, x, tail), ties);
      Seqs.FilterCons(h, tail, ties);
      if ties(x) && ties(h) {
        CompareEquivalent(st, c, x, h);
        assert false;
      }
    }
  }

  /** The sort's result is ordered by the comparator. */
  lemma {:induction false} SortSorted(st: Strategy, s: seq<Product>)
    ensures Sorted(st, SortBy(st, s))
  {
    if s != [] {
      SortSorted(st, s[1..]);
      InsertSorted(st, s[0], SortBy(st, s[1..]));
    }
  }

  /** The sort is stable: the products tied with any `c` appear in the result in exactly
      the order they had in the input. */
  lemma {:induction false} SortStable(st: Strategy, c: Product, s: seq<Product>)
    ensures Seqs.Filter(SortBy(st, s), TiesWith(st, c)) == Seqs.Filter(s, TiesWith(st, c))
  {
    if s != [] {
      SortStable(st, c, s[1..]);
      InsertStable(st, c, s[0], SortBy(st, s[1..]));
    }
  }

  /** The default comparator keeps the input order. */
  lemma {:induction false} SortDefaultKeepsOrder(s: seq<Product>)
    ensures SortBy(Default, s) == s
  {
    if s != [] {
      SortDefaultKeepsOrder(s[1..]);
      assert s == [s[0]] + s[1..];
    }
  }

  /** What `sortProducts` promises for each sort type: a permutation of the input, ordered by
      the chosen key, with "default" and unknown types keeping the input order. */
  lemma SortProductsOrder(products: seq<Product>, sortType: string)
    ensures multiset(SortProducts(products, sortType)) == multiset(products)
    ensures var r := SortProducts(products, sortType);
            forall i, j :: 0 <= i < j < |r| ==>
              && (sortType == "price-asc" ==> r[i].price <= r[j].price)
              && (sortType == "price-desc" ==> r[i].price >= r[j].price)
              && (sortType == "newest" ==> LexCompare(r[i].id, r[j].id) >= 0)
              && (sortType == "sale" ==> (r[j].salesStatus ==> r[i].salesStatus))
              && (sortType == "popularity" ==> r[i].popularity >= r[j].popularity)
              && (sortType == "rating" ==> r[i].rating >= r[j].rating)
    ensures StrategyOf(sortType) == Default ==> SortProducts(products, sortType) == products
  {
    var st := StrategyOf(sortType);
    SortSorted(st, products);
    var r := SortProducts(products, sortType);
    forall i, j | 0 <= i < j < |r| ensures sortType == "newest" ==> LexCompare(r[i].id, r[j].id) >= 0 {
      LexAntisymmetric(r[i].id, r[j].id);
    }
    if st == Default {
      SortDefaultKeepsOrder(products);
    }
  }
}
