/** The filter state of the products page (`src/app/products/page.tsx`,
    `ProductsPageContent`): the search box, the selected category and the
    sort order, the URL parameters that seed them, the filter pipeline that
    `useMemo` recomputes, and clearing the filters.

    `getAllProducts()` returns the bundled product array itself, so the page
    holds that one shared array: `catalogue`. Every catalogue query reads its
    current contents. */
module ProductsPage {
  import opened Text
  import opened Seqs
  import opened Catalog

  datatype SortOption = NameAsc | NameDesc | Popular

  // ---------------------------------------------------------------------------
  // The comparator of `products.sort`
  // ---------------------------------------------------------------------------

  /** `a` goes strictly before `b` under the comparator: `name-asc` compares
      names, `name-desc` compares them the other way round. */
  predicate Precedes(sortBy: SortOption, a: Product, b: Product) {
    match sortBy
    case NameAsc => StringLess(a.name, b.name)
    case NameDesc => StringLess(b.name, a.name)
    case Popular => false
  }

  /** Nothing is out of order: no element goes strictly before an earlier one. */
  predicate SortedBy(sortBy: SortOption, s: seq<Product>) {
    forall i, j | 0 <= i < j < |s| :: !Precedes(sortBy, s[j], s[i])
  }

  lemma PrecedesAsymmetric(sortBy: SortOption, a: Product, b: Product)
    ensures !(Precedes(sortBy, a, b) && Precedes(sortBy, b, a))
  {
    StringLessAsymmetric(a.name, b.name);
  }

  lemma NotPrecedesTransitive(sortBy: SortOption, a: Product, b: Product, c: Product)
    requires !Precedes(sortBy, a, b) && !Precedes(sortBy, b, c)
    ensures !Precedes(sortBy, a, c)
  {
    match sortBy
    case NameAsc => StringLessNegTransitive(a.name, b.name, c.name);
    case NameDesc => StringLessNegTransitive(c.name, b.name, a.name);
    case Popular =>
  }

  /** Inserts `x` before the first element that does not go strictly before it. */
  function InsertBy(sortBy: SortOption, x: Product, s: seq<Product>): (r: seq<Product>)
    ensures multiset(r) == multiset(s) + multiset{x}
    ensures |r| == |s| + 1
  {
    if s == [] then [x]
    else
      assert s == [s[0]] + s[1..];
      if Precedes(sortBy, s[0], x) then [s[0]] + InsertBy(sortBy, x, s[1..]) else [x] + s
  }

  /** A stable insertion sort under the comparator. */
  function SortBy(sortBy: SortOption, s: seq<Product>): (r: seq<Product>)
    ensures multiset(r) == multiset(s)
    ensures |r| == |s|
  {
    if s == [] then []
    else
      assert s == [s[0]] + s[1..];
      InsertBy(sortBy, s[0], SortBy(sortBy, s[1..]))
  }

  /** Prepending an element that nothing goes strictly before keeps the order. */
  lemma SortedCons(sortBy: SortOption, y: Product, t: seq<Product>)
    requires SortedBy(sortBy, t)
    requires forall z | z in t :: !Precedes(sortBy, z, y)
    ensures SortedBy(sortBy, [y] + t)
  {
    var r := [y] + t;
    forall i, j | 0 <= i < j < |r|
      ensures !Precedes(sortBy, r[j], r[i])
    {
      if i == 0 {
        assert r[j] == t[j - 1];
      } else {
        assert r[i] == t[i - 1] && r[j] == t[j - 1];
      }
    }
  }

  lemma SortedHead(sortBy: SortOption, s: seq<Product>)
    requires s != [] && SortedBy(sortBy, s)
    ensures SortedBy(sortBy, s[1..])
    ensures forall z | z in s[1..] :: !Precedes(sortBy, z, s[0])
  {
    assert forall i, j | 0 <= i < j < |s| - 1 :: s[1..][i] == s[i + 1] && s[1..][j] == s[j + 1];
    forall z | z in s[1..]
      ensures !Precedes(sortBy, z, s[0])
    {
      var j :| 0 <= j < |s| - 1 && s[1..][j] == z;
      assert s[j + 1] == z;
    }
  }

  lemma SortedAll(sortBy: SortOption, s: seq<Product>)
    requires s != [] && SortedBy(sortBy, s)
    ensures forall z | z in s :: !Precedes(sortBy, z, s[0])
  {
    forall z | z in s
      ensures !Precedes(sortBy, z, s[0])
    {
      var j :| 0 <= j < |s| && s[j] == z;
      if j == 0 {
        PrecedesAsymmetric(sortBy, z, z);
      }
    }
  }

  lemma {:induction false} InsertBySorted(sortBy: SortOption, x: Product, s: seq<Product>)
    requires SortedBy(sortBy, s)
    ensures SortedBy(sortBy, InsertBy(sortBy, x, s))
  {
    if s == [] {
    } else if Precedes(sortBy, s[0], x) {
      SortedHead(sortBy, s);
      InsertBySorted(sortBy, x, s[1..]);
      var t := InsertBy(sortBy, x, s[1..]);
      forall z | z in t
        ensures !Precedes(sortBy, z, s[0])
      {
        assert z in multiset(t);
        if z == x {
          PrecedesAsymmetric(sortBy, s[0], x);
        } else {
          assert z in multiset(s[1..]);
        }
      }
      SortedCons(sortBy, s[0], t);
    } else {
      SortedAll(sortBy, s);
      forall z | z in s
        ensures !Precedes(sortBy, z, x)
      {
        NotPrecedesTransitive(sortBy, z, s[0], x);
      }
      SortedCons(sortBy, x, s);
    }
  }

  /** The sort orders its input. */
  lemma {:induction false} SortBySorted(sortBy: SortOption, s: seq<Product>)
    ensures SortedBy(sortBy, SortBy(sortBy, s))
  {
    if s != [] {
      SortBySorted(sortBy, s[1..]);
      InsertBySorted(sortBy, s[0], SortBy(sortBy, s[1..]));
    }
  }

  /** Under `name-asc` the names never decrease, under `name-desc` they never
      increase. */
  lemma SortByNames(sortBy: SortOption, s: seq<Product>, i: nat, j: nat)
    requires i < j < |s|
    ensures var r := SortBy(sortBy, s);
      && |r| == |s|
      && (sortBy == NameAsc ==> r[i].name == r[j].name || StringLess(r[i].name, r[j].name))
      && (sortBy == NameDesc ==> r[i].name == r[j].name || StringLess(r[j].name, r[i].name))
  {
    var r := SortBy(sortBy, s);
    SortBySorted(sortBy, s);
    StringLessTotal(r[i].name, r[j].name);
  }

  /** `products.sort(...)`: the array is reordered in place into the sorted
      order of its old contents. */
  method SortInPlace(a: array<Product>, sortBy: SortOption)
    modifies a
    ensures a[..] == SortBy(sortBy, old(a[..]))
  {
    var sorted := SortBy(sortBy, a[..]);
    for i := 0 to a.Length
      invariant forall k | 0 <= k < i :: a[k] == sorted[k]
    {
      a[i] := sorted[i];
    }
    assert a[..] == sorted;
  }

  // ---------------------------------------------------------------------------
  // The filter pipeline
  // ---------------------------------------------------------------------------

  /** The second search of a selected category: lower-cased name or
      description containing the lower-cased query, which is not trimmed. */
  predicate NameOrDescriptionHit(query: string, p: Product) {
    Contains(Lower(p.name), Lower(query)) || Contains(Lower(p.description), Lower(query))
  }

  function NameOrDescriptionTest(query: string): Product -> bool {
    p => NameOrDescriptionHit(query, p)
  }

  /** The list `filteredProducts` sorts: the search results when the query is
      not blank; for a selected category, that category's products instead,
      searched again by name and description when the query is not blank. */
  function FilteredList(catalogue: seq<Product>, searchQuery: string, selectedCategory: string): seq<Product> {
    if selectedCategory != "all" then
      var inCategory := ProductsByCategory(catalogue, selectedCategory);
      if Trim(searchQuery) != [] then Filter(inCategory, NameOrDescriptionTest(searchQuery)) else inCategory
    else if Trim(searchQuery) != [] then SearchProducts(catalogue, searchQuery)
    else catalogue
  }

  /** With no category and a blank query the list is the whole catalogue. */
  lemma FilteredAllBlank(catalogue: seq<Product>, searchQuery: string)
    requires Trim(searchQuery) == []
    ensures FilteredList(catalogue, searchQuery, "all") == catalogue
  {
  }

  /** With no category the list is exactly the search result. */
  lemma FilteredAllIsSearch(catalogue: seq<Product>, searchQuery: string)
    ensures FilteredList(catalogue, searchQuery, "all") == SearchProducts(catalogue, searchQuery)
  {
  }

  /** With a category selected, every listed product is in that category and,
      for a non-blank query, has the untrimmed query in its name or
      description; the size is not searched. */
  lemma FilteredCategory(catalogue: seq<Product>, searchQuery: string, selectedCategory: string, p: Product)
    requires selectedCategory != "all"
    ensures p in FilteredList(catalogue, searchQuery, selectedCategory) <==>
      && p in ProductsByCategory(catalogue, selectedCategory)
      && (Trim(searchQuery) != [] ==> NameOrDescriptionHit(searchQuery, p))
  {
  }

  /** Whether a URL category parameter names one of the derived categories. */
  predicate KnownCategoryId(categories: seq<ProductCategory>, id: string) {
    exists c | c in categories :: c.id == id
  }

  /** A category adopted from the URL selects at least one product, and its
      count is the length of the list the category filter returns. */
  lemma AdoptedCategoryNonEmpty(catalogue: seq<Product>, id: string)
    requires KnownCategoryId(Categories(catalogue), id)
    ensures |ProductsByCategory(catalogue, id)| >= 1
  {
    var c :| c in Categories(catalogue) && c.id == id;
    CategoriesCountMatchesFilter(catalogue);
  }

  method NewArray(s: seq<Product>) returns (a: array<Product>)
    ensures fresh(a) && a[..] == s
  {
    a := new Product[|s|](i requires 0 <= i < |s| => s[i]);
  }

  class ProductsPageContent {
    var searchQuery: string
    var selectedCategory: string
    var sortBy: SortOption
    /** The bundled product array that `getAllProducts()` hands out. */
    const catalogue: array<Product>

    /** The initial state: no query, every category, names ascending. */
    constructor(catalogue: array<Product>)
      ensures this.catalogue == catalogue
      ensures searchQuery == "" && selectedCategory == "all" && sortBy == NameAsc
    {
      this.catalogue := catalogue;
      searchQuery := "";
      selectedCategory := "all";
      sortBy := NameAsc;
    }

    /** The `useEffect` that reads the URL: the category parameter is adopted
        only when it is the id of one of `categories`, the list
        `getCategories()` derived, and the search parameter only when it is
        not empty. An absent parameter is the empty string. */
    method ApplyUrlParameters(categories: seq<ProductCategory>, categoryParam: string, searchParam: string)
      modifies this
      ensures selectedCategory ==
        (if categoryParam != "" && KnownCategoryId(categories, categoryParam) then categoryParam
         else old(selectedCategory))
      ensures searchQuery == (if searchParam != "" then searchParam else old(searchQuery))
      ensures sortBy == old(sortBy)
    {
      if categoryParam != "" && KnownCategoryId(categories, categoryParam) {
        selectedCategory := categoryParam;
      }
      if searchParam != "" {
        searchQuery := searchParam;
      }
    }

    /** `clearFilters`: no query and every category; the sort order stays. */
    method ClearFilters()
      modifies this
      ensures searchQuery == "" && selectedCategory == "all" && sortBy == old(sortBy)
      ensures !HasActiveFilters()
    {
      searchQuery := "";
      selectedCategory := "all";
    }

    /** `hasActiveFilters`: a query is typed or a category is selected. */
    predicate HasActiveFilters()
      reads this
    {
      searchQuery != "" || selectedCategory != "all"
    }

    /** No filter applies, so the pipeline works on the shared array itself. */
    predicate Unfiltered()
      reads this
    {
      Trim(searchQuery) == [] && selectedCategory == "all"
    }

    /** The filter steps of `filteredProducts`, before the sort. When no
        filter applies, `products` is still the shared catalogue array;
        otherwise it is a new array. */
    method FilterSteps() returns (products: array<Product>)
      ensures products[..] == FilteredList(catalogue[..], searchQuery, selectedCategory)
      ensures Unfiltered() ==> products == catalogue
      ensures !Unfiltered() ==> fresh(products)
    {
      products := catalogue;
      if Trim(searchQuery) != [] {
        products := NewArray(SearchProducts(catalogue[..], searchQuery));
      }
      if selectedCategory != "all" {
        products := NewArray(ProductsByCategory(catalogue[..], selectedCategory));
        if Trim(searchQuery) != [] {
          products := NewArray(Filter(products[..], NameOrDescriptionTest(searchQuery)));
        }
      }
    }

    /** `filteredProducts` as written: the filtered list, sorted in place.
        When no filter applies, that sorts the shared catalogue array itself. */
    method FilteredProductsAsWritten() returns (products: array<Product>)
      modifies catalogue
      ensures products[..] == SortBy(sortBy, FilteredList(old(catalogue[..]), searchQuery, selectedCategory))
      ensures Unfiltered() ==> products == catalogue
      ensures !Unfiltered() ==> fresh(products) && catalogue[..] == old(catalogue[..])
    {
      products := FilterSteps();
      SortInPlace(products, sortBy);
    }

    /** `filteredProducts` sorting a copy of the filtered list: the same
        result, in a new array, with the catalogue left as it was. */
    method FilteredProducts() returns (products: array<Product>)
      ensures fresh(products)
      ensures products[..] == SortBy(sortBy, FilteredList(catalogue[..], searchQuery, selectedCategory))
    {
      var filtered := FilterSteps();
      products := NewArray(filtered[..]);
      SortInPlace(products, sortBy);
    }
  }

  /** Sorting the shared catalogue is visible to every later query: two
      products listed `b` before `a` come back `a` before `b` under
      `name-asc`, so the first featured product changes. */
  lemma SortReordersCatalogue()
    ensures var b := Product("1", "b", "", "");
      var a := Product("2", "a", "", "");
      SortBy(NameAsc, [b, a]) == [a, b]
      && FeaturedProducts(SortBy(NameAsc, [b, a]))[0] != FeaturedProducts([b, a])[0]
  {
    var b := Product("1", "b", "", "");
    var a := Product("2", "a", "", "");
    assert StringLess(a.name, b.name);
    assert !StringLess(b.name, a.name);
    assert SortBy(NameAsc, [a]) == [a];
    assert [b, a][1..] == [a];
  }
}
