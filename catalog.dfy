/** The catalogue query layer of the storefront (`src/lib/products.ts`).
    The bundled product list is not modelled as data: every query takes the
    catalogue as a parameter, so `getAllProducts()` is that parameter. */
module Catalog {
  import opened Text
  import opened Seqs
  import opened Wrappers
  import Sorting
  import Tally

  /** The fields of a catalogue record that the queries read.
      A missing name, description or size is the empty string. */
  datatype Product = Product(productId: string, name: string, description: string, size: string)

  datatype ProductCategory = ProductCategory(id: string, name: string, description: string, count: nat)

  // ---------------------------------------------------------------------------
  // getProductById
  // ---------------------------------------------------------------------------

  /** Position of the first product with the given id, or `|catalogue|`. */
  function FirstWithId(catalogue: seq<Product>, id: string): (k: nat)
    ensures k <= |catalogue|
    ensures k < |catalogue| ==> catalogue[k].productId == id
    ensures forall j | 0 <= j < k :: catalogue[j].productId != id
  {
    if catalogue == [] then 0
    else if catalogue[0].productId == id then 0
    else 1 + FirstWithId(catalogue[1..], id)
  }

  /** `find(p => p.product_id === id)`: the first product carrying the id, if any. */
  function ProductById(catalogue: seq<Product>, id: string): (r: Option<Product>)
    ensures r.None? <==> forall p | p in catalogue :: p.productId != id
    ensures r.Some? ==> r.value.productId == id
    ensures r.Some? ==> exists k | 0 <= k < |catalogue| ::
              catalogue[k] == r.value && forall j | 0 <= j < k :: catalogue[j].productId != id
  {
    var k := FirstWithId(catalogue, id);
    if k < |catalogue| then Some(catalogue[k]) else None
  }

  // ---------------------------------------------------------------------------
  // The two keyword-rule tables
  // ---------------------------------------------------------------------------

  /** Every rule of both tables has this shape: the lower-cased name includes
      one of `nameWords`, or the lower-cased description includes one of
      `descriptionWords`. */
  datatype KeywordRule = KeywordRule(nameWords: seq<string>, descriptionWords: seq<string>)

  predicate Holds(rule: KeywordRule, name: string, description: string) {
    || (exists w | w in rule.nameWords :: Contains(name, w))
    || (exists w | w in rule.descriptionWords :: Contains(description, w))
  }

  /** The `switch` of `getProductsByCategory`, keyed by category id. */
  function FilterTable(category: string): Option<KeywordRule> {
    if category == "temizleyiciler" then Some(KeywordRule(["cleanse", "temizley", "exfo"], []))
    else if category == "serumlar" then Some(KeywordRule(["serum", "vita", "age"], []))
    else if category == "kremler" then Some(KeywordRule(["cream", "krem", "recovery", "post"], []))
    else if category == "maskeler" then Some(KeywordRule(["mask", "maske", "clay"], []))
    else if category == "güneş-koruma" then Some(KeywordRule(["spf", "protect", "sun", "uv"], []))
    else if category == "bakım-kitleri" then Some(KeywordRule(["kit", "set"], ["kit"]))
    else if category == "özel-çözümler" then Some(KeywordRule(["solution", "çözüm", "active"], []))
    else if category == "leke-tedavisi" then Some(KeywordRule(["mela"], ["pigment", "leke"]))
    else if category == "akne-tedavisi" then Some(KeywordRule(["ac.", "akne"], ["akne", "sebum"]))
    else if category == "kızarıklık-tedavisi" then Some(KeywordRule(["cr."], ["kızarıklık", "hassas"]))
    else None
  }

  /** The filter of `getProductsByCategory` on the lower-cased name and
      description: the id's rule, or for an unknown id the fallback that looks
      for the id itself with every `-` turned into a space. */
  predicate FilterRule(category: string, name: string, description: string) {
    match FilterTable(category)
    case Some(rule) => Holds(rule, name, description)
    case None =>
      var term := FallbackTerm(category);
      Contains(name, term) || Contains(description, term)
  }

  /** `category.toLowerCase().replace(/-/g, ' ')`. */
  function FallbackTerm(category: string): (r: string)
    ensures |r| == |category|
    ensures forall i | 0 <= i < |r| :: r[i] == (if LowerChar(category[i]) == '-' then ' ' else LowerChar(category[i]))
  {
    seq(|category|, i requires 0 <= i < |category| => if LowerChar(category[i]) == '-' then ' ' else LowerChar(category[i]))
  }

  /** The category labels `getCategories` counts, in the order it tests them. */
  const CountLabels: seq<string> := [
    "temizleyiciler", "serumlar", "kremler", "maskeler", "güneş koruma",
    "bakım kitleri", "özel çözümler", "leke tedavisi", "akne tedavisi", "kızarıklık tedavisi"
  ]

  /** The `if` chain of `getCategories`, keyed by label. */
  function CountTable(tag: string): Option<KeywordRule> {
    if tag == "temizleyiciler" then Some(KeywordRule(["cleanse", "temizley", "exfo"], []))
    else if tag == "serumlar" then Some(KeywordRule(["serum", "vita", "age"], []))
    else if tag == "kremler" then Some(KeywordRule(["cream", "krem", "recovery", "post"], []))
    else if tag == "maskeler" then Some(KeywordRule(["mask", "maske", "clay"], []))
    else if tag == "güneş koruma" then Some(KeywordRule(["spf", "protect", "sun", "uv"], []))
    else if tag == "bakım kitleri" then Some(KeywordRule(["kit", "set"], ["kit"]))
    else if tag == "özel çözümler" then Some(KeywordRule(["solution", "çözüm", "active"], []))
    else if tag == "leke tedavisi" then Some(KeywordRule(["mela"], ["pigment", "leke"]))
    else if tag == "akne tedavisi" then Some(KeywordRule(["ac.", "akne"], ["akne", "sebum"]))
    else if tag == "kızarıklık tedavisi" then Some(KeywordRule(["cr."], ["kızarıklık", "hassas"]))
    else None
  }

  /** Whether the `if` chain counts a product, given its lower-cased name and
      description, under the label. */
  predicate CountRule(tag: string, name: string, description: string) {
    CountTable(tag).Some? && Holds(CountTable(tag).value, name, description)
  }

  /** `name.replace(/\s+/g, '-').toLowerCase()`: the id a tag is published under. */
  function CategoryId(tag: string): string {
    Lower(SpacesToHyphen(tag))
  }

  /** `name.charAt(0).toUpperCase() + name.slice(1)`, empty for the empty name. */
  function Capitalize(tag: string): (r: string)
    ensures |r| == |tag|
    ensures r != [] ==> r[0] == UpperChar(tag[0]) && r[1..] == tag[1..]
  {
    if tag == [] then [] else [UpperChar(tag[0])] + tag[1..]
  }

  /** The `descriptions` object of `getCategoryDescription`, keyed by label. */
  const Descriptions: map<string, string> := map[
    "temizleyiciler" := "Cildi nazikçe temizleyen, yenileyici etkili ürünler",
    "serumlar" := "Yoğun aktif içerikli, hedefli etkili serum formülleri",
    "kremler" := "Nemlendirici, onarıcı ve koruyucu krem formülleri",
    "maskeler" := "Derinlemesine temizlik ve bakım sağlayan maskeler",
    "güneş koruma" := "Geniş spektrumlu UV koruması sağlayan ürünler",
    "bakım kitleri" := "Komple tedavi sistemleri ve ev bakım programları",
    "özel çözümler" := "Spesifik cilt problemlerine özel aktif formüller",
    "leke tedavisi" := "Pigmentasyon ve leke problemlerine özel çözümler",
    "akne tedavisi" := "Akne ve sebum kontrolü için profesyonel ürünler",
    "kızarıklık tedavisi" := "Hassas ve kızarıklığa eğilimli ciltler için özel bakım"
  ]

  const DefaultDescription := "Profesyonel cilt bakım ürünleri"

  /** `getCategoryDescription`: `descriptions[name] || default`, the entry of
      the label when it has a non-empty one, the generic default otherwise. */
  function CategoryDescription(tag: string): (r: string)
    ensures tag in Descriptions && Descriptions[tag] != "" ==> r == Descriptions[tag]
    ensures tag !in Descriptions ==> r == DefaultDescription
    ensures r != ""
  {
    if tag in Descriptions && Descriptions[tag] != "" then Descriptions[tag] else DefaultDescription
  }

  /** The table describes exactly the ten labels `getCategories` counts, and
      each of them gets its own blurb rather than the default. */
  lemma {:induction false} CategoryDescriptionKnown(tag: string)
    ensures tag in Descriptions <==> tag in CountLabels
    ensures CategoryDescription(tag) == DefaultDescription <==> tag !in CountLabels
  {
    if tag in Descriptions {
      assert |Descriptions[tag]| > |DefaultDescription|;
    }
  }

  /** The ten labels are distinct. */
  lemma CountLabelsDistinct()
    ensures Distinct(CountLabels)
  {
  }

  /** The ids the `switch` of `getProductsByCategory` tests, in the order of `CountLabels`. */
  const FilterIds: seq<string> := [
    "temizleyiciler", "serumlar", "kremler", "maskeler", "güneş-koruma",
    "bakım-kitleri", "özel-çözümler", "leke-tedavisi", "akne-tedavisi", "kızarıklık-tedavisi"
  ]

  predicate PlainChar(c: char) {
    ('a' <= c <= 'z') || c == 'ç' || c == 'ı' || c == 'ö' || c == 'ş' || c == 'ü'
  }

  predicate PlainWord(w: string) {
    forall i | 0 <= i < |w| :: PlainChar(w[i])
  }

  lemma PlainWordFacts(w: string)
    requires PlainWord(w)
    ensures forall i | 0 <= i < |w| :: !IsSpace(w[i]) && LowerChar(w[i]) == w[i]
  {
  }

  /** Each label is published under the id the `switch` tests at the same position. */
  lemma CategoryIdsMatch(k: nat)
    requires k < |CountLabels|
    ensures CategoryId(CountLabels[k]) == FilterIds[k]
  {
    if k < 4 {
      WordsOne(k);
      OneWordId(CountLabels[k]);
    } else if k == 4 {
      SunCareId(k);
    } else if k == 5 {
      CareKitsId(k);
    } else if k == 6 {
      SpecialSolutionsId(k);
    } else if k == 7 {
      SpotTreatmentId(k);
    } else if k == 8 {
      AcneTreatmentId(k);
    } else {
      RednessTreatmentId(k);
    }
  }

  lemma SunCareId(k: nat)
    requires k == 4
    ensures CategoryId(CountLabels[k]) == FilterIds[k]
  {
    assert PlainWord("güneş") && PlainWord("koruma");
    TwoWordId(CountLabels[k], "güneş", "koruma", FilterIds[k]);
  }

  lemma CareKitsId(k: nat)
    requires k == 5
    ensures CategoryId(CountLabels[k]) == FilterIds[k]
  {
    assert PlainWord("bakım") && PlainWord("kitleri");
    TwoWordId(CountLabels[k], "bakım", "kitleri", FilterIds[k]);
  }

  lemma SpecialSolutionsId(k: nat)
    requires k == 6
    ensures CategoryId(CountLabels[k]) == FilterIds[k]
  {
    assert PlainWord("özel") && PlainWord("çözümler");
    TwoWordId(CountLabels[k], "özel", "çözümler", FilterIds[k]);
  }

  lemma SpotTreatmentId(k: nat)
    requires k == 7
    ensures CategoryId(CountLabels[k]) == FilterIds[k]
  {
    assert PlainWord("leke") && PlainWord("tedavisi");
    TwoWordId(CountLabels[k], "leke", "tedavisi", FilterIds[k]);
  }

  lemma AcneTreatmentId(k: nat)
    requires k == 8
    ensures CategoryId(CountLabels[k]) == FilterIds[k]
  {
    assert PlainWord("akne") && PlainWord("tedavisi");
    TwoWordId(CountLabels[k], "akne", "tedavisi", FilterIds[k]);
  }

  lemma RednessTreatmentId(k: nat)
    requires k == 9
    ensures CategoryId(CountLabels[k]) == FilterIds[k]
  {
    assert PlainWord("kızarıklık") && PlainWord("tedavisi");
    TwoWordId(CountLabels[k], "kızarıklık", "tedavisi", FilterIds[k]);
  }

  /** The four one-word labels are plain words, and are their own ids. */
  lemma WordsOne(k: nat)
    requires k < 4
    ensures PlainWord(CountLabels[k]) && CountLabels[k] == FilterIds[k]
  {
  }

  lemma OneWordId(w: string)
    requires PlainWord(w)
    ensures CategoryId(w) == w
  {
    PlainWordFacts(w);
    SpacesToHyphenFixes(w);
    LowerFixes(w);
  }

  lemma TwoWordId(tag: string, a: string, b: string, id: string)
    requires PlainWord(a) && PlainWord(b)
    requires tag == a + " " + b && id == a + "-" + b
    ensures CategoryId(tag) == id
  {
    PlainWordFacts(a);
    PlainWordFacts(b);
    SpacesToHyphenOneSpace(a, b);
    assert forall i | 0 <= i < |id| :: LowerChar(id[i]) == id[i] by {
      forall i | 0 <= i < |id| ensures LowerChar(id[i]) == id[i] {
        if i < |a| { assert id[i] == a[i]; }
        else if i > |a| { assert id[i] == b[i - |a| - 1]; }
      }
    }
    LowerFixes(id);
  }

  /** The two tables, position by position: the `switch` entry for an id is
      the `if`-chain entry for the label at that position. */
  lemma TablesAgreeAt(k: nat)
    requires k < |CountLabels|
    ensures CountTable(CountLabels[k]).Some?
    ensures FilterTable(FilterIds[k]) == CountTable(CountLabels[k])
  {
  }

  /** The invariant the comment at the head of the `switch` claims: for every
      label `getCategories` counts, the rule `getProductsByCategory` applies to
      the label's published id is the rule the label was counted with. */
  lemma RuleTablesAgree(tag: string, name: string, description: string)
    requires tag in CountLabels
    ensures CategoryId(tag) != "all"
    ensures FilterRule(CategoryId(tag), name, description) == CountRule(tag, name, description)
  {
    var k :| 0 <= k < |CountLabels| && CountLabels[k] == tag;
    RuleTablesAgreeAt(k, name, description);
  }

  /** `RuleTablesAgree` for the label at position `k`. */
  lemma RuleTablesAgreeAt(k: nat, name: string, description: string)
    requires k < |CountLabels|
    ensures CategoryId(CountLabels[k]) != "all"
    ensures FilterRule(CategoryId(CountLabels[k]), name, description) == CountRule(CountLabels[k], name, description)
  {
    CategoryIdsMatch(k);
    TablesAgreeAt(k);
  }

  lemma FilterIdsDistinct()
    ensures Distinct(FilterIds)
  {
  }

  /** Distinct labels are published under distinct ids. */
  lemma CategoryIdsDistinct(i: nat, j: nat)
    requires i < |CountLabels| && j < |CountLabels| && i != j
    ensures CountLabels[i] != CountLabels[j]
    ensures CategoryId(CountLabels[i]) != CategoryId(CountLabels[j])
  {
    CountLabelsDistinct();
    CategoryIdsMatch(i);
    CategoryIdsMatch(j);
    FilterIdsDistinct();
  }

  // ---------------------------------------------------------------------------
  // getProductsByCategory and searchProducts
  // ---------------------------------------------------------------------------

  predicate InCategory(category: string, p: Product) {
    FilterRule(category, Lower(p.name), Lower(p.description))
  }

  function CategoryTest(category: string): Product -> bool {
    p => InCategory(category, p)
  }

  /** `getProductsByCategory`: everything for `all`, otherwise the products
      the category's rule accepts, in catalogue order. */
  function ProductsByCategory(catalogue: seq<Product>, category: string): (r: seq<Product>)
    ensures category == "all" ==> r == catalogue
    ensures category != "all" ==> forall p :: p in r <==> p in catalogue && InCategory(category, p)
  {
    if category == "all" then catalogue else Filter(catalogue, CategoryTest(category))
  }

  /** The category filter keeps catalogue order: filtering a concatenation is
      concatenating the filtered parts. */
  lemma ProductsByCategoryKeepsOrder(a: seq<Product>, b: seq<Product>, category: string)
    ensures ProductsByCategory(a + b, category) == ProductsByCategory(a, category) + ProductsByCategory(b, category)
  {
    if category != "all" {
      FilterAppend(a, b, CategoryTest(category));
    }
  }

  /** A product hits a search term when its lower-cased name, description or
      size contains it. */
  predicate SearchHit(p: Product, term: string) {
    Contains(Lower(p.name), term) || Contains(Lower(p.description), term) || Contains(Lower(p.size), term)
  }

  function SearchTest(term: string): Product -> bool {
    p => SearchHit(p, term)
  }

  /** The term `searchProducts` looks for: the query lower-cased, then trimmed. */
  function SearchTerm(query: string): string {
    Trim(Lower(query))
  }

  /** `searchProducts`: a blank query returns the catalogue; otherwise the
      products hitting the trimmed, lower-cased query, in catalogue order. */
  function SearchProducts(catalogue: seq<Product>, query: string): (r: seq<Product>)
    ensures Trim(query) == [] ==> r == catalogue
    ensures Trim(query) != [] ==> forall p :: p in r <==> p in catalogue && SearchHit(p, SearchTerm(query))
  {
    TrimLowerBlank(query);
    var term := SearchTerm(query);
    if term == [] then catalogue else Filter(catalogue, SearchTest(term))
  }

  lemma SearchKeepsOrder(a: seq<Product>, b: seq<Product>, query: string)
    ensures SearchProducts(a + b, query) == SearchProducts(a, query) + SearchProducts(b, query)
  {
    if SearchTerm(query) != [] {
      FilterAppend(a, b, SearchTest(SearchTerm(query)));
    }
  }

  /** Letter case in the query does not matter: a query and its lower case
      find the same products. */
  lemma SearchIgnoresCase(catalogue: seq<Product>, query: string)
    ensures SearchProducts(catalogue, Lower(query)) == SearchProducts(catalogue, query)
  {
    LowerIdempotent(query);
  }

  // ---------------------------------------------------------------------------
  // getCategories
  // ---------------------------------------------------------------------------

  /** Whether the `if` chain sets the label for a product. */
  predicate MatchesLabel(tag: string, p: Product) {
    CountRule(tag, Lower(p.name), Lower(p.description))
  }

  /** How many products the label's rule accepts. */
  function LabelCount(ps: seq<Product>, tag: string): nat {
    Tally.Count(ps, MatchesLabel, tag)
  }

  /** The labels in the map, in the order they were first set. */
  function MapKeys(ps: seq<Product>): seq<string> {
    Tally.FirstSeen(CountLabels, MatchesLabel, ps)
  }

  function CategoryOf(tag: string, count: nat): ProductCategory {
    ProductCategory(CategoryId(tag), Capitalize(tag), CategoryDescription(tag), count)
  }

  /** `Array.from(categoryMap.entries()).map(...)`, before the sort. */
  function CategoryEntries(ps: seq<Product>): seq<ProductCategory> {
    var keys := MapKeys(ps);
    seq(|keys|, j requires 0 <= j < |keys| => CategoryOf(keys[j], LabelCount(ps, keys[j])))
  }

  function CountOf(c: ProductCategory): int { c.count }

  /** What `getCategories` returns: the entries, stably sorted by count, largest first. */
  function Categories(ps: seq<Product>): seq<ProductCategory> {
    Sorting.SortDesc(CategoryEntries(ps), CountOf)
  }

  /** The categories built from the finished map, in its key order. */
  function EntriesOf(order: seq<string>, counts: map<string, nat>): seq<ProductCategory>
    requires forall l | l in order :: l in counts
  {
    seq(|order|, j requires 0 <= j < |order| => CategoryOf(order[j], counts[order[j]]))
  }

  lemma EntriesOfMap(ps: seq<Product>, order: seq<string>, counts: map<string, nat>)
    requires order == MapKeys(ps)
    requires forall l :: l in counts <==> l in order
    requires forall l | l in counts :: counts[l] == LabelCount(ps, l)
    ensures EntriesOf(order, counts) == CategoryEntries(ps)
  {
  }

  /** `getCategories`: the per-label counts of the catalogue, turned into
      categories and sorted by count. */
  method GetCategories(catalogue: seq<Product>) returns (cats: seq<ProductCategory>)
    ensures cats == Categories(catalogue)
  {
    CountLabelsDistinct();
    var counts, order := Tally.CountByLabel(catalogue, CountLabels, MatchesLabel);
    EntriesOfMap(catalogue, order, counts);
    cats := Sorting.SortDesc(EntriesOf(order, counts), CountOf);
  }

  /** Every category reported was built from a label that is a key of the
      map; `k` is the label's position. */
  lemma EntryLabel(ps: seq<Product>, c: ProductCategory) returns (k: nat)
    requires c in Categories(ps)
    ensures k < |CountLabels| && LabelCount(ps, CountLabels[k]) > 0
    ensures c == CategoryOf(CountLabels[k], LabelCount(ps, CountLabels[k]))
  {
    var keys := MapKeys(ps);
    var j := Sorting.SortDescIndex(CategoryEntries(ps), CountOf, c);
    var tag := keys[j];
    Tally.FirstSeenMember(CountLabels, MatchesLabel, ps, tag);
    k :| 0 <= k < |CountLabels| && CountLabels[k] == tag;
  }

  /** For the label at position `k`, the `switch` filter on its id and the
      `if` chain accept the same products. */
  lemma TestsAgree(ps: seq<Product>, k: nat)
    requires k < |CountLabels|
    ensures forall p | p in ps ::
      CategoryTest(CategoryId(CountLabels[k]))(p) == Tally.RuleTest(MatchesLabel, CountLabels[k])(p)
  {
    var f := CategoryTest(CategoryId(CountLabels[k]));
    var g := Tally.RuleTest(MatchesLabel, CountLabels[k]);
    forall p | p in ps
      ensures f(p) == g(p)
    {
      RuleTablesAgreeAt(k, Lower(p.name), Lower(p.description));
    }
  }

  /** For the label at position `k`, `getProductsByCategory` on its id
      returns as many products as the label was counted for. */
  lemma FilterLengthIsCount(ps: seq<Product>, k: nat)
    requires k < |CountLabels|
    ensures |ProductsByCategory(ps, CategoryId(CountLabels[k]))| == LabelCount(ps, CountLabels[k])
  {
    RuleTablesAgreeAt(k, "", "");
    TestsAgree(ps, k);
    FilterExt(ps, CategoryTest(CategoryId(CountLabels[k])), Tally.RuleTest(MatchesLabel, CountLabels[k]));
  }

  /** Every category reported has at least one product, and its count is the
      length of the list `getProductsByCategory` returns for its id: the two
      rule tables agree. */
  lemma CategoriesCountMatchesFilter(catalogue: seq<Product>)
    ensures forall c | c in Categories(catalogue) ::
      1 <= c.count && c.count == |ProductsByCategory(catalogue, c.id)|
  {
    forall c | c in Categories(catalogue)
      ensures 1 <= c.count && c.count == |ProductsByCategory(catalogue, c.id)|
    {
      var k := EntryLabel(catalogue, c);
      FilterLengthIsCount(catalogue, k);
    }
  }

  /** The categories are ordered by count, largest first. */
  lemma CategoriesSorted(catalogue: seq<Product>)
    ensures Sorting.SortedDesc(Categories(catalogue), CountOf)
  {
    Sorting.SortDescSorted(CategoryEntries(catalogue), CountOf);
  }

  /** Categories with equal counts keep the order their labels entered the map. */
  lemma CategoriesStable(catalogue: seq<Product>, count: int)
    ensures Sorting.KeyFilter(Categories(catalogue), CountOf, count)
         == Sorting.KeyFilter(CategoryEntries(catalogue), CountOf, count)
  {
    Sorting.SortDescStable(CategoryEntries(catalogue), CountOf, count);
  }

  /** A label some product matches is reported. */
  lemma LabelInCategories(catalogue: seq<Product>, k: nat)
    requires k < |CountLabels| && LabelCount(catalogue, CountLabels[k]) > 0
    ensures CategoryOf(CountLabels[k], LabelCount(catalogue, CountLabels[k])) in Categories(catalogue)
  {
    var j := Tally.FirstSeenIndex(CountLabels, MatchesLabel, catalogue, CountLabels[k]);
    Sorting.SortDescKeeps(CategoryEntries(catalogue), CountOf, j);
  }

  /** A reported category carrying the id of the label at position `k` is
      the one built from that label. */
  lemma OnlyEntryWithId(catalogue: seq<Product>, k: nat, c: ProductCategory)
    requires k < |CountLabels|
    requires c in Categories(catalogue) && c.id == CategoryId(CountLabels[k])
    ensures c == CategoryOf(CountLabels[k], LabelCount(catalogue, CountLabels[k]))
    ensures LabelCount(catalogue, CountLabels[k]) > 0
  {
    var i := EntryLabel(catalogue, c);
    if i != k {
      CategoryIdsDistinct(i, k);
    }
  }

  /** The label at position `k` of the chain is reported exactly when some
      product matches it, and the only category carrying its id is the one
      built from it. */
  lemma CategoriesComplete(catalogue: seq<Product>, k: nat)
    requires k < |CountLabels|
    ensures var n := LabelCount(catalogue, CountLabels[k]);
      n > 0 <==> CategoryOf(CountLabels[k], n) in Categories(catalogue)
    ensures forall c | c in Categories(catalogue) && c.id == CategoryId(CountLabels[k]) ::
      c == CategoryOf(CountLabels[k], LabelCount(catalogue, CountLabels[k]))
  {
    var entry := CategoryOf(CountLabels[k], LabelCount(catalogue, CountLabels[k]));
    if LabelCount(catalogue, CountLabels[k]) > 0 {
      LabelInCategories(catalogue, k);
    }
    if entry in Categories(catalogue) {
      OnlyEntryWithId(catalogue, k, entry);
    }
    forall c | c in Categories(catalogue) && c.id == CategoryId(CountLabels[k])
      ensures c == entry
    {
      OnlyEntryWithId(catalogue, k, c);
    }
  }

  // ---------------------------------------------------------------------------
  // Image paths
  // ---------------------------------------------------------------------------

  const Extensions: seq<string> := ["png", "jpg", "jpeg", "webp"]

  /** `/images/{id}-main.{ext}` for slot 0, `/images/{id}-{slot}.{ext}` otherwise. */
  function ImagePath(productId: string, slot: nat, ext: string): string {
    "/images/" + productId + "-" + (if slot == 0 then "main" else NatToString(slot)) + "." + ext
  }

  /** `getProductImageUrl`: the `.jpg` path of an image index. */
  function ImageUrl(productId: string, imageIndex: int): (r: string)
    ensures imageIndex >= 0 ==> r == ImagePath(productId, imageIndex, "jpg")
  {
    if imageIndex == 0 then "/images/" + productId + "-main.jpg"
    else "/images/" + productId + "-" + IntToString(imageIndex) + ".jpg"
  }

  /** `getProductImages`: the four `main` paths, then four paths for each of
      the slots 1 to 5; the path `getProductImageUrl` gives for any of those
      slots is among them. */
  method ProductImages(productId: string) returns (images: seq<string>)
    ensures |images| == 24
    ensures forall e | 0 <= e < 4 :: images[e] == ImagePath(productId, 0, Extensions[e])
    ensures forall slot, e | 1 <= slot <= 5 && 0 <= e < 4 :: images[4 * slot + e] == ImagePath(productId, slot, Extensions[e])
    ensures forall slot | 0 <= slot <= 5 :: ImageUrl(productId, slot) in images
  {
    images := [];
    for e := 0 to |Extensions|
      invariant |images| == e
      invariant forall e' | 0 <= e' < e :: images[e'] == ImagePath(productId, 0, Extensions[e'])
    {
      images := images + [ImagePath(productId, 0, Extensions[e])];
    }
    for slot := 1 to 6
      invariant |images| == 4 * slot
      invariant forall e | 0 <= e < 4 :: images[e] == ImagePath(productId, 0, Extensions[e])
      invariant forall s, e | 1 <= s < slot && 0 <= e < 4 :: images[4 * s + e] == ImagePath(productId, s, Extensions[e])
    {
      for e := 0 to |Extensions|
        invariant |images| == 4 * slot + e
        invariant forall e' | 0 <= e' < 4 :: images[e'] == ImagePath(productId, 0, Extensions[e'])
        invariant forall s, e' | 1 <= s < slot && 0 <= e' < 4 :: images[4 * s + e'] == ImagePath(productId, s, Extensions[e'])
        invariant forall e' | 0 <= e' < e :: images[4 * slot + e'] == ImagePath(productId, slot, Extensions[e'])
      {
        images := images + [ImagePath(productId, slot, Extensions[e])];
      }
    }
    forall slot | 0 <= slot <= 5
      ensures ImageUrl(productId, slot) in images
    {
      assert Extensions[1] == "jpg";
      assert images[4 * slot + 1] == ImagePath(productId, slot, Extensions[1]);
    }
  }

  // ---------------------------------------------------------------------------
  // getSizes
  // ---------------------------------------------------------------------------

  /** A size is listed when it is some product's non-empty `size` field, or
      what the size pattern extracts from some product's name. */
  predicate ListedSize(catalogue: seq<Product>, sizeInName: string -> Option<string>, s: string) {
    exists p | p in catalogue :: (p.size != [] && p.size == s) || sizeInName(p.name) == Some(s)
  }

  predicate StrictlyAscending(s: seq<string>) {
    forall i, j | 0 <= i < j < |s| :: StringLess(s[i], s[j])
  }

  /** Inserts a new string into a strictly ascending sequence. */
  function InsertAscending(x: string, s: seq<string>): (r: seq<string>)
    requires StrictlyAscending(s) && x !in s
    ensures StrictlyAscending(r)
    ensures forall y :: y in r <==> y == x || y in s
    ensures |r| == |s| + 1
  {
    if s == [] then [x]
    else
      StringLessTotal(x, s[0]);
      if StringLess(s[0], x) then
        var t := InsertAscending(x, s[1..]);
        var r := [s[0]] + t;
        assert forall i | 1 <= i < |s| :: StringLess(s[0], s[i]);
        forall i | 0 <= i < |t| ensures StringLess(s[0], t[i]) {
          if t[i] != x {
            assert t[i] in s[1..];
            var j :| 0 <= j < |s| - 1 && s[1..][j] == t[i];
            assert t[i] == s[j + 1];
          }
        }
        assert forall i, j | 0 < i < j < |r| :: r[i] == t[i - 1] && r[j] == t[j - 1];
        r
      else
        var r := [x] + s;
        assert forall j | 0 < j < |r| :: r[j] == s[j - 1];
        forall j | 1 <= j < |s| ensures StringLess(x, s[j]) {
          StringLessTransitive(x, s[0], s[j]);
        }
        r
  }

  /** `getSizes` with the size pattern passed in as `sizeInName`: the distinct
      sizes found, in the default string order of `Array.prototype.sort`. */
  method GetSizes(catalogue: seq<Product>, sizeInName: string -> Option<string>) returns (sizes: seq<string>)
    ensures StrictlyAscending(sizes)
    ensures forall s :: s in sizes <==> ListedSize(catalogue, sizeInName, s)
  {
    var found: set<string> := {};
    for i := 0 to |catalogue|
      invariant forall s :: s in found <==> ListedSize(catalogue[..i], sizeInName, s)
    {
      var p := catalogue[i];
      assert catalogue[..i + 1] == catalogue[..i] + [p];
      if p.size != [] {
        found := found + {p.size};
      }
      var m := sizeInName(p.name);
      if m.Some? {
        found := found + {m.value};
      }
    }
    assert catalogue[..|catalogue|] == catalogue;
    sizes := [];
    var rest := found;
    while rest != {}
      invariant rest <= found
      invariant StrictlyAscending(sizes)
      invariant forall s :: s in sizes <==> s in found && s !in rest
      decreases |rest|
    {
      var x :| x in rest;
      sizes := InsertAscending(x, sizes);
      rest := rest - {x};
    }
  }

  // ---------------------------------------------------------------------------
  // getExcerpt
  // ---------------------------------------------------------------------------

  predicate IsSentenceEnd(c: char) { c == '.' || c == '!' || c == '?' }

  /** `s.split(/[.!?]+/)[0]`: the text before the first `.`, `!` or `?`. */
  function FirstSentence(s: string): (r: string)
    ensures r <= s
    ensures forall i | 0 <= i < |r| :: !IsSentenceEnd(r[i])
    ensures |r| < |s| ==> IsSentenceEnd(s[|r|])
  {
    if s == [] || IsSentenceEnd(s[0]) then [] else [s[0]] + FirstSentence(s[1..])
  }

  const DefaultExcerptLength: nat := 150

  /** `getExcerpt`: short descriptions unchanged; a long one is cut after its
      first sentence (closed with `.`) when that sentence fits, otherwise at
      `maxLength` characters followed by `...`. */
  function Excerpt(description: string, maxLength: nat): (r: string)
    ensures description == [] ==> r == []
    ensures |description| <= maxLength ==> r == description
    ensures |description| > maxLength ==>
      || (1 <= |r| <= maxLength + 1 && r == description[..|r| - 1] + "."
          && IsSentenceEnd(description[|r| - 1])
          && forall i | 0 <= i < |r| - 1 :: !IsSentenceEnd(description[i]))
      || (r == description[..maxLength] + "..."
          && forall i | 0 <= i <= maxLength :: !IsSentenceEnd(description[i]))
    ensures |r| <= maxLength + 3
  {
    if description == [] then []
    else if |description| <= maxLength then description
    else
      var excerpt := FirstSentence(description);
      if |excerpt| > maxLength then
        assert forall i | 0 <= i <= maxLength :: description[i] == excerpt[i];
        description[..maxLength] + "..."
      else excerpt + "."
  }

  // ---------------------------------------------------------------------------
  // createSlug
  // ---------------------------------------------------------------------------

  /** The six `replace` calls of `createSlug` that fold Turkish letters to ASCII. */
  function FoldTurkishChar(c: char): char {
    if c == 'ç' then 'c'
    else if c == 'ğ' then 'g'
    else if c == 'ı' then 'i'
    else if c == 'ö' then 'o'
    else if c == 'ş' then 's'
    else if c == 'ü' then 'u'
    else c
  }

  function FoldTurkish(s: string): (r: string)
    ensures |r| == |s|
    ensures forall i | 0 <= i < |s| :: r[i] == FoldTurkishChar(s[i])
  {
    seq(|s|, i requires 0 <= i < |s| => FoldTurkishChar(s[i]))
  }

  /** `createSlug`: the result is always a slug. */
  function CreateSlug(text: string): (r: string)
    ensures IsSlug(r)
  {
    var hyphenated := CollapseHyphens(HyphenateNonAlnum(FoldTurkish(Lower(text))));
    StripOneHyphenSlug(hyphenated);
    StripOneHyphen(hyphenated)
  }

  /** A slug is its own slug. */
  lemma CreateSlugKeepsSlug(s: string)
    requires IsSlug(s)
    ensures CreateSlug(s) == s
  {
    LowerFixes(s);
    assert FoldTurkish(Lower(s)) == s;
    HyphenateNonAlnumFixes(s);
    CollapseHyphensFixes(s);
  }

  lemma CreateSlugIdempotent(text: string)
    ensures CreateSlug(CreateSlug(text)) == CreateSlug(text)
  {
    CreateSlugKeepsSlug(CreateSlug(text));
  }

  // ---------------------------------------------------------------------------
  // getFeaturedProducts and getRecentProducts
  // ---------------------------------------------------------------------------

  /** `slice(0, 8)`: the first eight products, or all of them. */
  function FeaturedProducts(catalogue: seq<Product>): (r: seq<Product>)
    ensures |r| == Min(8, |catalogue|)
    ensures r <= catalogue
  {
    catalogue[..Min(8, |catalogue|)]
  }

  /** `slice(-6).reverse()`: the last six products (or all), newest first. */
  function RecentProducts(catalogue: seq<Product>): (r: seq<Product>)
    ensures |r| == Min(6, |catalogue|)
    ensures forall i | 0 <= i < |r| :: r[i] == catalogue[|catalogue| - 1 - i]
  {
    Reverse(catalogue[|catalogue| - Min(6, |catalogue|)..])
  }
}
