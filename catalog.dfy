/** The catalog page: the "Top Best Sets" split, name search, attribute filters, sort,
    12-per-page slicing, the page guard, the "Showing a–b of n" range, and the page state
    (`catalogState`) its handlers update. */
module Catalog {
  import opened Wrappers
  import opened Products
  import opened Strings
  import opened ProductSort
  import Seqs

  const ITEMS_PER_PAGE: int := 12
  const BEST_SETS: string := "Top Best Sets"
  const DEFAULT_SORT: string := "default"

  // ---------------------------------------------------------------------------
  // Best sets and search
  // ---------------------------------------------------------------------------

  function InBlock(name: string): Product -> bool {
    (p: Product) => name in p.blocks
  }

  /** `filterProductsByCategory(products, name)`: the products tagged with block `name`. */
  function FilterByBlock(products: seq<Product>, name: string): seq<Product> {
    Seqs.Filter(products, InBlock(name))
  }

  /** The products not tagged "Top Best Sets": the ones the grid pages through. */
  function RemainingProducts(all: seq<Product>): seq<Product> {
    Seqs.Filter(all, Seqs.Not(InBlock(BEST_SETS)))
  }

  /** Every product is in exactly one of the best sets and the remaining products, both in
      catalog order. */
  lemma BestSetsPartition(all: seq<Product>)
    ensures multiset(FilterByBlock(all, BEST_SETS)) + multiset(RemainingProducts(all)) == multiset(all)
    ensures forall p :: p in FilterByBlock(all, BEST_SETS) ==> BEST_SETS in p.blocks
    ensures forall p :: p in RemainingProducts(all) ==> BEST_SETS !in p.blocks
    ensures Seqs.IsSubsequence(FilterByBlock(all, BEST_SETS), all)
    ensures Seqs.IsSubsequence(RemainingProducts(all), all)
  {
    Seqs.FilterPartition(all, InBlock(BEST_SETS));
    Seqs.FilterIsSubsequence(all, InBlock(BEST_SETS));
    Seqs.FilterIsSubsequence(all, Seqs.Not(InBlock(BEST_SETS)));
  }

  function NameMatches(term: string): Product -> bool {
    (p: Product) => Contains(ToLower(p.name), ToLower(term))
  }

  /** `filterProductsBySearch`: an empty term keeps everything; otherwise the products whose
      lower-cased name contains the lower-cased term. */
  function FilterBySearch(products: seq<Product>, term: string): seq<Product> {
    if term == "" then products else Seqs.Filter(products, NameMatches(term))
  }

  /** The search keeps, in order, each product whose name contains the term (ignoring ASCII
      case) exactly as often as the list holds it, and no other product. */
  lemma SearchSelects(products: seq<Product>, term: string)
    ensures term == "" ==> FilterBySearch(products, term) == products
    ensures term != "" ==> forall p ::
              p in FilterBySearch(products, term) <==> p in products && Contains(ToLower(p.name), ToLower(term))
    ensures term != "" ==> forall p ::
              multiset(FilterBySearch(products, term))[p]
              == if Contains(ToLower(p.name), ToLower(term)) then multiset(products)[p] else 0
    ensures Seqs.IsSubsequence(FilterBySearch(products, term), products)
  {
    if term == "" {
      Seqs.FilterAll(products, (p: Product) => true);
      Seqs.FilterIsSubsequence(products, (p: Product) => true);
    } else {
      Seqs.FilterIsSubsequence(products, NameMatches(term));
      Seqs.FilterCount(products, NameMatches(term));
    }
  }

  // ---------------------------------------------------------------------------
  // Attribute filters
  // ---------------------------------------------------------------------------

  /** `catalogState.filters`: an empty string or `None` puts no constraint. */
  datatype Filters = Filters(size: string, color: string, category: string, salesStatus: Option<bool>)

  /** What `resetFilters` installs. */
  const NoFilters: Filters := Filters("", "", "", None)

  predicate Matches(f: Filters, p: Product) {
    && (f.size == "" || p.size == f.size)
    && (f.color == "" || p.color == f.color)
    && (f.category == "" || p.category == f.category)
    && (f.salesStatus.None? || p.salesStatus == f.salesStatus.value)
  }

  function MatchesFilters(f: Filters): Product -> bool {
    (p: Product) => Matches(f, p)
  }

  /** `applyFiltersChain`. */
  function ApplyFilters(products: seq<Product>, f: Filters): seq<Product> {
    Seqs.Filter(products, MatchesFilters(f))
  }

  function SizeIs(size: string): Product -> bool {
    (p: Product) => size == "" || p.size == size
  }

  function ColorIs(color: string): Product -> bool {
    (p: Product) => color == "" || p.color == color
  }

  function CategoryIs(category: string): Product -> bool {
    (p: Product) => category == "" || p.category == category
  }

  function SalesIs(salesStatus: Option<bool>): Product -> bool {
    (p: Product) => salesStatus.None? || p.salesStatus == salesStatus.value
  }

  /** The four checks can be applied one after another in any order: size, color, category,
      sale gives the same list as sale, category, color, size, and as the single filter. */
  lemma FiltersOrderIndependent(products: seq<Product>, f: Filters)
    ensures ApplyFilters(products, f)
            == Seqs.Filter(Seqs.Filter(Seqs.Filter(Seqs.Filter(products,
                 SizeIs(f.size)), ColorIs(f.color)), CategoryIs(f.category)), SalesIs(f.salesStatus))
    ensures ApplyFilters(products, f)
            == Seqs.Filter(Seqs.Filter(Seqs.Filter(Seqs.Filter(products,
                 SalesIs(f.salesStatus)), CategoryIs(f.category)), ColorIs(f.color)), SizeIs(f.size))
  {
    var a, b, c, d := SizeIs(f.size), ColorIs(f.color), CategoryIs(f.category), SalesIs(f.salesStatus);
    var forward := Seqs.Both(Seqs.Both(Seqs.Both(a, b), c), d);
    var backward := Seqs.Both(Seqs.Both(Seqs.Both(d, c), b), a);
    forall p ensures forward(p) == Matches(f, p) && backward(p) == Matches(f, p) {
      assert forward(p) == (a(p) && b(p) && c(p) && d(p));
      assert backward(p) == (d(p) && c(p) && b(p) && a(p));
    }
    FourFilters(products, a, b, c, d);
    ChecksAgree(products, f, forward);
    FourFilters(products, d, c, b, a);
    ChecksAgree(products, f, backward);
  }

  /** A check that agrees with `Matches` on every product filters the same way. */
  lemma ChecksAgree(products: seq<Product>, f: Filters, check: Product -> bool)
    requires forall p :: check(p) == Matches(f, p)
    ensures ApplyFilters(products, f) == Seqs.Filter(products, check)
  {
    Seqs.FilterAgree(products, MatchesFilters(f), check);
  }

  /** Four filters one after another are one filter by the four checks together. */
  lemma FourFilters(products: seq<Product>, a: Product -> bool, b: Product -> bool,
                    c: Product -> bool, d: Product -> bool)
    ensures Seqs.Filter(Seqs.Filter(Seqs.Filter(Seqs.Filter(products, a), b), c), d)
            == Seqs.Filter(products, Seqs.Both(Seqs.Both(Seqs.Both(a, b), c), d))
  {
    Seqs.FilterFilter(products, a, b);
    Seqs.FilterFilter(Seqs.Filter(products, a), b, c);
    Seqs.FilterFilter(products, Seqs.Both(a, b), c);
    Seqs.FilterFilter(Seqs.Filter(Seqs.Filter(products, a), b), c, d);
    Seqs.FilterFilter(products, Seqs.Both(Seqs.Both(a, b), c), d);
  }

  /** After `resetFilters` nothing is filtered out. */
  lemma NoFiltersKeepAll(products: seq<Product>)
    ensures ApplyFilters(products, NoFilters) == products
  {
    Seqs.FilterAll(products, MatchesFilters(NoFilters));
  }

  // ---------------------------------------------------------------------------
  // The pipeline
  // ---------------------------------------------------------------------------

  /** `getProcessedProducts().processed`: search, then filters, then sort, over the products
      outside the best sets. */
  function Processed(all: seq<Product>, term: string, f: Filters, sortType: string): seq<Product> {
    SortProducts(ApplyFilters(FilterBySearch(RemainingProducts(all), term), f), sortType)
  }

  /** The processed list holds, as often as the catalog does, exactly the products outside
      the best sets that pass the search and the filters. */
  lemma ProcessedSelects(all: seq<Product>, term: string, f: Filters, sortType: string)
    ensures multiset(Processed(all, term, f, sortType))
            == multiset(ApplyFilters(FilterBySearch(RemainingProducts(all), term), f))
    ensures forall p :: p in Processed(all, term, f, sortType) <==>
              && p in all
              && BEST_SETS !in p.blocks
              && (term == "" || Contains(ToLower(p.name), ToLower(term)))
              && Matches(f, p)
  {
    var filtered := ApplyFilters(FilterBySearch(RemainingProducts(all), term), f);
    SortProductsOrder(filtered, sortType);
    SameMembers(Processed(all, term, f, sortType), filtered);
    FilteredMembers(all, term, f);
  }

  /** Before the sort, the pipeline holds exactly the products outside the best sets that
      pass the search and the filters. */
  lemma FilteredMembers(all: seq<Product>, term: string, f: Filters)
    ensures forall p :: p in ApplyFilters(FilterBySearch(RemainingProducts(all), term), f) <==>
              && p in all
              && BEST_SETS !in p.blocks
              && (term == "" || Contains(ToLower(p.name), ToLower(term)))
              && Matches(f, p)
  {
    var remaining := RemainingProducts(all);
    if term != "" {
      Seqs.FilterMembers(remaining, NameMatches(term));
    }
    Seqs.FilterMembers(all, Seqs.Not(InBlock(BEST_SETS)));
    Seqs.FilterMembers(FilterBySearch(remaining, term), MatchesFilters(f));
  }

  /** Two lists with the same multiset hold the same products. */
  lemma SameMembers(a: seq<Product>, b: seq<Product>)
    requires multiset(a) == multiset(b)
    ensures forall p :: p in a <==> p in b
  {
    forall p ensures p in a <==> p in b {
      assert p in a <==> p in multiset(a);
      assert p in b <==> p in multiset(b);
    }
  }

  /** On first load (empty search, no filters, default sort) the pipeline yields the
      remaining products in catalog order, which is what the initial render pages through. */
  lemma InitialProcessedIsRemaining(all: seq<Product>)
    ensures Processed(all, "", NoFilters, DEFAULT_SORT) == RemainingProducts(all)
  {
    var remaining := RemainingProducts(all);
    assert FilterBySearch(remaining, "") == remaining;
    NoFiltersKeepAll(remaining);
    assert StrategyOf(DEFAULT_SORT) == Default;
    SortDefaultKeepsOrder(remaining);
  }

  // ---------------------------------------------------------------------------
  // Pages
  // ---------------------------------------------------------------------------

  function Min(a: int, b: int): int {
    if a <= b then a else b
  }

  /** An index argument of `Array.prototype.slice`: negative counts from the end, and the
      result is clipped to `[0, len]`. */
  function SliceIndex(x: int, len: nat): nat {
    if x < 0 then (if len + x < 0 then 0 else len + x)
    else if x > len then len
    else x
  }

  /** `s.slice(start, end)`. */
  function Slice(s: seq<Product>, start: int, end: int): seq<Product> {
    var from := SliceIndex(start, |s|);
    var to := SliceIndex(end, |s|);
    if from < to then s[from..to] else []
  }

  /** `paginateProducts(products, page)`. */
  function Paginate(products: seq<Product>, page: int): seq<Product> {
    var start := (page - 1) * ITEMS_PER_PAGE;
    Slice(products, start, start + ITEMS_PER_PAGE)
  }

  /** `Math.ceil(n / ITEMS_PER_PAGE)`. */
  function TotalPages(n: nat): (pages: nat)
    ensures pages * ITEMS_PER_PAGE >= n
    ensures pages > 0 ==> (pages - 1) * ITEMS_PER_PAGE < n
    ensures pages == 0 <==> n == 0
  {
    (n + ITEMS_PER_PAGE - 1) / ITEMS_PER_PAGE
  }

  /** For a page from 1 on, the page is the slice [(page-1)*12, page*12) clipped to the
      list, so it holds at most 12 products. */
  lemma PaginateSlice(products: seq<Product>, page: int)
    requires page >= 1
    ensures Paginate(products, page)
            == products[Min((page - 1) * ITEMS_PER_PAGE, |products|)..Min(page * ITEMS_PER_PAGE, |products|)]
    ensures |Paginate(products, page)| <= ITEMS_PER_PAGE
  {
  }

  /** Pages 1 to `k` one after another. */
  function Pages(products: seq<Product>, k: nat): seq<Product> {
    if k == 0 then [] else Pages(products, k - 1) + Paginate(products, k)
  }

  lemma {:induction false} PagesPrefix(products: seq<Product>, k: nat)
    ensures Pages(products, k) == products[..Min(k * ITEMS_PER_PAGE, |products|)]
  {
    if k > 0 {
      PagesPrefix(products, k - 1);
      PaginateSlice(products, k);
      var a := Min((k - 1) * ITEMS_PER_PAGE, |products|);
      var b := Min(k * ITEMS_PER_PAGE, |products|);
      assert products[..a] + products[a..b] == products[..b];
    }
  }

  /** Pages 1 to `TotalPages(n)` put back together give the whole list: no gap, no repeat. */
  lemma PagesReassemble(products: seq<Product>)
    ensures Pages(products, TotalPages(|products|)) == products
  {
    PagesPrefix(products, TotalPages(|products|));
  }

  /** `handlePageChange` goes ahead only for a page in `[1, totalPages]`. */
  predicate PageAccepted(page: int, count: nat) {
    !(page < 1 || page > TotalPages(count))
  }


  /** The numbers of "Showing start–end of total Results". */
  datatype ResultsText = ResultsText(start: int, end: int, total: int)

  /** The range arithmetic of `updateResultsText`. */
  function ResultsRange(total: nat, page: int): ResultsText {
    ResultsText((page - 1) * ITEMS_PER_PAGE + 1, Min(page * ITEMS_PER_PAGE, total), total)
  }

  /** With no results there are no pages, so every page is refused and the text keeps what
      the last render wrote; the first render of an empty catalog reads "Showing 1–0 of 0". */
  lemma EmptyResultsRefuseEveryPage(page: int)
    ensures !PageAccepted(page, 0)
    ensures ResultsRange(0, 1) == ResultsText(1, 0, 0)
  {
  }

  /** For an accepted page the range lies inside the results and counts exactly the products
      on that page. */
  lemma ResultsRangeMatchesPage(products: seq<Product>, page: int)
    requires PageAccepted(page, |products|)
    ensures var r := ResultsRange(|products|, page);
            && 1 <= r.start <= r.end <= |products|
            && r.end - r.start + 1 == |Paginate(products, page)|
  {
    PaginateSlice(products, page);
  }

  // ---------------------------------------------------------------------------
  // The page state
  // ---------------------------------------------------------------------------

  /** What one render shows: the best-sets sidebar, the product grid, the results text and
      the pagination (page count and active page). */
  datatype View = View(bestSets: seq<Product>, items: seq<Product>, results: ResultsText,
                       totalPages: nat, currentPage: int)

  /** `catalogState`, without the hover flag of the filter panel. */
  class CatalogState {
    var allProducts: seq<Product>
    var currentPage: int
    var currentSortType: string
    var searchTerm: string
    var filters: Filters

    /** The state once the catalog has been fetched. */
    constructor (products: seq<Product>)
      ensures allProducts == products && currentPage == 1
      ensures currentSortType == DEFAULT_SORT && searchTerm == "" && filters == NoFilters
      ensures ProcessedProducts() == RemainingProducts(products)
    {
      allProducts := products;
      currentPage := 1;
      currentSortType := DEFAULT_SORT;
      searchTerm := "";
      filters := NoFilters;
      InitialProcessedIsRemaining(products);
    }

    function ProcessedProducts(): seq<Product>
      reads this
    {
      Processed(allProducts, searchTerm, filters, currentSortType)
    }

    /** What a render of `page` shows with the current search, filters and sort. */
    function PageView(page: int): View
      reads this
    {
      var processed := ProcessedProducts();
      View(FilterByBlock(allProducts, BEST_SETS), Paginate(processed, page),
           ResultsRange(|processed|, page), TotalPages(|processed|), page)
    }

    /** The render `initCatalog` does right after loading: page `currentPage` of the
        remaining products. */
    method InitialView() returns (view: View)
      ensures var remaining := RemainingProducts(allProducts);
              view == View(FilterByBlock(allProducts, BEST_SETS), Paginate(remaining, currentPage),
                           ResultsRange(|remaining|, currentPage), TotalPages(|remaining|), currentPage)
    {
      var bestSets := FilterByBlock(allProducts, BEST_SETS);
      var remaining := Seqs.Filter(allProducts, Seqs.Not(InBlock(BEST_SETS)));
      var totalPages := TotalPages(|remaining|);
      var items := Paginate(remaining, currentPage);
      view := View(bestSets, items, ResultsRange(|remaining|, currentPage), totalPages, currentPage);
    }

    /** `handlePageChange(page)`: signals "Product not found" when nothing passes, then
        refuses a page outside `[1, totalPages]` without touching the state; otherwise makes
        it the current page and renders it. */
    method HandlePageChange(page: int) returns (notFound: bool, view: Option<View>)
      modifies this`currentPage
      ensures notFound <==> ProcessedProducts() == []
      ensures !PageAccepted(page, |ProcessedProducts()|) ==> currentPage == old(currentPage) && view.None?
      ensures PageAccepted(page, |ProcessedProducts()|) ==> currentPage == page && view == Some(PageView(page))
    {
      var bestSets := FilterByBlock(allProducts, BEST_SETS);
      var processed := ProcessedProducts();
      var totalPages := TotalPages(|processed|);
      notFound := |processed| == 0;
      if page < 1 || page > totalPages {
        return notFound, None;
      }
      currentPage := page;
      var items := Paginate(processed, currentPage);
      view := Some(View(bestSets, items, ResultsRange(|processed|, currentPage), totalPages, currentPage));
    }

    /** `resetFilters`. */
    method ResetFilters()
      modifies this`filters
      ensures filters == NoFilters
    {
      filters := Filters("", "", "", None);
    }

    /** The search form's submit: the trimmed input (empty when there is no input field)
        becomes the search term, then page 1 is requested. */
    method SubmitSearch(input: Option<string>) returns (notFound: bool, view: Option<View>)
      modifies this`searchTerm, this`currentPage
      ensures searchTerm == (if input.Some? then Trim(input.value) else "")
      ensures notFound <==> ProcessedProducts() == []
      ensures currentPage == (if PageAccepted(1, |ProcessedProducts()|) then 1 else old(currentPage))
      ensures view == (if PageAccepted(1, |ProcessedProducts()|) then Some(PageView(1)) else None)
    {
      searchTerm := if input.Some? then Trim(input.value) else "";
      notFound, view := HandlePageChange(1);
    }

    /** A sort dropdown item: its value becomes the sort type, then page 1 is requested. */
    method SelectSort(value: string) returns (notFound: bool, view: Option<View>)
      modifies this`currentSortType, this`currentPage
      ensures currentSortType == value
      ensures notFound <==> ProcessedProducts() == []
      ensures currentPage == (if PageAccepted(1, |ProcessedProducts()|) then 1 else old(currentPage))
      ensures view == (if PageAccepted(1, |ProcessedProducts()|) then Some(PageView(1)) else None)
    {
      currentSortType := value;
      notFound, view := HandlePageChange(1);
    }

    /** A filter select's change: the select's label, trimmed and lower-cased, says which
        filter takes the value ("size", "color" or "category"; any other label changes
        none), then page 1 is requested. */
    method ChangeFilterSelect(labelText: Option<string>, value: string) returns (notFound: bool, view: Option<View>)
      modifies this`filters, this`currentPage
      ensures var kind := if labelText.Some? then ToLower(Trim(labelText.value)) else "";
              filters == if kind == "size" then old(filters).(size := value)
                         else if kind == "color" then old(filters).(color := value)
                         else if kind == "category" then old(filters).(category := value)
                         else old(filters)
      ensures notFound <==> ProcessedProducts() == []
      ensures currentPage == (if PageAccepted(1, |ProcessedProducts()|) then 1 else old(currentPage))
      ensures view == (if PageAccepted(1, |ProcessedProducts()|) then Some(PageView(1)) else None)
    {
      var kind := if labelText.Some? then ToLower(Trim(labelText.value)) else "";
      if kind == "size" {
        filters := filters.(size := value);
      }
      if kind == "color" {
        filters := filters.(color := value);
      }
      if kind == "category" {
        filters := filters.(category := value);
      }
      notFound, view := HandlePageChange(1);
    }

    /** The "on sale" checkbox: checked keeps only products on sale, unchecked puts no
        constraint; then page 1 is requested. */
    method ToggleSales(checked: bool) returns (notFound: bool, view: Option<View>)
      modifies this`filters, this`currentPage
      ensures filters == old(filters).(salesStatus := if checked then Some(true) else None)
      ensures notFound <==> ProcessedProducts() == []
      ensures currentPage == (if PageAccepted(1, |ProcessedProducts()|) then 1 else old(currentPage))
      ensures view == (if PageAccepted(1, |ProcessedProducts()|) then Some(PageView(1)) else None)
    {
      filters := filters.(salesStatus := if checked then Some(true) else None);
      notFound, view := HandlePageChange(1);
    }

    /** The clear button: every filter reset, then page 1 is requested. */
    method ClearFilters() returns (notFound: bool, view: Option<View>)
      modifies this`filters, this`currentPage
      ensures filters == NoFilters
      ensures notFound <==> ProcessedProducts() == []
      ensures currentPage == (if PageAccepted(1, |ProcessedProducts()|) then 1 else old(currentPage))
      ensures view == (if PageAccepted(1, |ProcessedProducts()|) then Some(PageView(1)) else None)
    {
      ResetFilters();
      notFound, view := HandlePageChange(1);
    }
  }
}
