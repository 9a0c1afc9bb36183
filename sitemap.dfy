/** The sitemap (`src/app/sitemap.ts`): the page list built from fixed
    groups, the category list and the product list, sorted by priority with
    the highest first, and the XML document of the Sitemaps 0.9 protocol that
    `GET` serves. Priorities are held in tenths (0.8 is 8). */
module Sitemap {
  import opened Text
  import opened Sorting
  import opened Wrappers

  const BaseUrl := "https://phformula.com.tr"

  /** The `changefreq` values used. */
  datatype Frequency = Daily | Weekly | Monthly

  datatype Page = Page(url: string, lastModified: string, changeFrequency: Frequency, priority: nat)

  /** What a product contributes: its id, its category's id and its stock. */
  datatype SitemapProduct = SitemapProduct(id: string, categoryId: string, inStock: bool)

  function Priority(p: Page): int {
    p.priority
  }

  function Homepage(date: string): Page {
    Page(BaseUrl, date, Daily, 10)
  }

  /** The eight fixed pages, the homepage first. */
  function StaticPages(date: string): (r: seq<Page>)
    ensures |r| == 8 && r[0] == Homepage(date)
  {
    [Homepage(date),
     Page(BaseUrl + "/products", date, Daily, 9),
     Page(BaseUrl + "/about", date, Monthly, 6),
     Page(BaseUrl + "/contact", date, Monthly, 7),
     Page(BaseUrl + "/shipping", date, Weekly, 5),
     Page(BaseUrl + "/returns", date, Weekly, 5),
     Page(BaseUrl + "/privacy", date, Monthly, 3),
     Page(BaseUrl + "/terms", date, Monthly, 3)]
  }

  function CategoryPage(categoryId: string, date: string): Page {
    Page(BaseUrl + "/products/" + categoryId, date, Daily, 8)
  }

  /** One page per category, under `/products/{id}`, daily at 0.8. */
  function CategoryPages(categoryIds: seq<string>, date: string): (r: seq<Page>)
    ensures |r| == |categoryIds|
    ensures forall i | 0 <= i < |r| :: r[i] == CategoryPage(categoryIds[i], date)
  {
    seq(|categoryIds|, i requires 0 <= i < |categoryIds| => CategoryPage(categoryIds[i], date))
  }

  /** A product's page: in stock it is daily at 0.7, otherwise weekly at 0.5. */
  function ProductPage(p: SitemapProduct, date: string): (r: Page)
    ensures r.url == BaseUrl + "/products/" + p.categoryId + "/" + p.id
    ensures p.inStock <==> r.priority == 7
    ensures p.inStock <==> r.changeFrequency == Daily
    ensures !p.inStock <==> r.priority == 5
  {
    Page(BaseUrl + "/products/" + p.categoryId + "/" + p.id, date,
      if p.inStock then Daily else Weekly,
      if p.inStock then 7 else 5)
  }

  function ProductPages(products: seq<SitemapProduct>, date: string): (r: seq<Page>)
    ensures |r| == |products|
    ensures forall i | 0 <= i < |r| :: r[i] == ProductPage(products[i], date)
  {
    seq(|products|, i requires 0 <= i < |products| => ProductPage(products[i], date))
  }

  function LocalPages(date: string): (r: seq<Page>)
    ensures |r| == 3
  {
    [Page(BaseUrl + "/istanbul", date, Weekly, 6),
     Page(BaseUrl + "/ankara", date, Weekly, 6),
     Page(BaseUrl + "/izmir", date, Weekly, 6)]
  }

  function LandingPages(date: string): (r: seq<Page>)
    ensures |r| == 4
  {
    [Page(BaseUrl + "/cilt-bakimi", date, Weekly, 7),
     Page(BaseUrl + "/anti-aging", date, Weekly, 7),
     Page(BaseUrl + "/serum", date, Weekly, 7),
     Page(BaseUrl + "/temizleyici", date, Weekly, 7)]
  }

  /** The groups concatenated, before sorting. */
  function AllPages(categoryIds: seq<string>, products: seq<SitemapProduct>, date: string): seq<Page> {
    StaticPages(date) + CategoryPages(categoryIds, date) + ProductPages(products, date)
      + LocalPages(date) + LandingPages(date)
  }

  /** `sitemap()`: the pages of the five groups, each kept once, sorted by
      priority with the highest first. */
  function SitemapPages(categoryIds: seq<string>, products: seq<SitemapProduct>, date: string): (r: seq<Page>)
    ensures multiset(r) == multiset(AllPages(categoryIds, products, date))
    ensures |r| == 8 + |categoryIds| + |products| + 3 + 4
    ensures SortedDesc(r, Priority)
  {
    SortDescSorted(AllPages(categoryIds, products, date), Priority);
    SortDesc(AllPages(categoryIds, products, date), Priority)
  }

  /** The sitemap holds exactly the pages of the five groups, one entry per
      page, in priority order, with pages of equal priority in the order of
      their groups. */
  lemma SitemapIsSortedPermutation(categoryIds: seq<string>, products: seq<SitemapProduct>, date: string, v: int)
    ensures var all := AllPages(categoryIds, products, date);
      var r := SitemapPages(categoryIds, products, date);
      && multiset(r) == multiset(all)
      && |r| == 8 + |categoryIds| + |products| + 3 + 4
      && SortedDesc(r, Priority)
      && KeyFilter(r, Priority, v) == KeyFilter(all, Priority, v)
  {
    SortDescSorted(AllPages(categoryIds, products, date), Priority);
    SortDescStable(AllPages(categoryIds, products, date), Priority, v);
  }

  /** Every priority lies between 0.3 and 1.0, and only the homepage has 1.0. */
  lemma AllPagesPriorities(categoryIds: seq<string>, products: seq<SitemapProduct>, date: string)
    ensures forall p | p in AllPages(categoryIds, products, date) ::
      3 <= p.priority <= 10 && (p.priority == 10 ==> p == Homepage(date))
  {
    var s := StaticPages(date);
    var c := CategoryPages(categoryIds, date);
    var q := ProductPages(products, date);
    forall p | p in AllPages(categoryIds, products, date)
      ensures 3 <= p.priority <= 10 && (p.priority == 10 ==> p == Homepage(date))
    {
      assert p in s || p in c || p in q || p in LocalPages(date) || p in LandingPages(date);
      if p in c {
        var i :| 0 <= i < |c| && c[i] == p;
      } else if p in q {
        var i :| 0 <= i < |q| && q[i] == p;
      }
    }
  }

  /** Every category and every product has its page in the sitemap. */
  lemma SitemapHasEveryPage(categoryIds: seq<string>, products: seq<SitemapProduct>, date: string)
    ensures forall i | 0 <= i < |categoryIds| :: CategoryPage(categoryIds[i], date) in SitemapPages(categoryIds, products, date)
    ensures forall i | 0 <= i < |products| :: ProductPage(products[i], date) in SitemapPages(categoryIds, products, date)
  {
    var all := AllPages(categoryIds, products, date);
    var c := CategoryPages(categoryIds, date);
    var q := ProductPages(products, date);
    SortDescKeepsAll(all);
    assert forall i | 0 <= i < |categoryIds| :: c[i] in c;
    assert forall i | 0 <= i < |products| :: q[i] in q;
  }

  lemma SortDescKeepsAll(s: seq<Page>)
    ensures forall x | x in s :: x in SortDesc(s, Priority)
  {
    forall x | x in s
      ensures x in SortDesc(s, Priority)
    {
      assert x in multiset(s);
    }
  }

  /** Sorting puts a strict maximum first. */
  lemma UniqueTopFirst(s: seq<Page>, top: Page)
    requires top in s
    requires forall p | p in s :: p.priority <= top.priority && (p.priority == top.priority ==> p == top)
    ensures var r := SortDesc(s, Priority);
      && r != [] && r[0] == top
      && forall p | p in r && p != top :: p.priority < top.priority
  {
    var r := SortDesc(s, Priority);
    SortDescKeepsAll(s);
    SortDescSorted(s, Priority);
    SortedFirstIsMax(r, Priority);
    assert Priority(r[0]) >= Priority(top);
    assert r[0] in multiset(r);
    forall p | p in r && p != top
      ensures p.priority < top.priority
    {
      assert p in multiset(r);
    }
  }

  /** The homepage comes first, and every other page has a lower priority. */
  lemma HomepageFirst(categoryIds: seq<string>, products: seq<SitemapProduct>, date: string)
    ensures var r := SitemapPages(categoryIds, products, date);
      && r != [] && r[0] == Homepage(date)
      && forall p | p in r && p != Homepage(date) :: p.priority < 10
  {
    var all := AllPages(categoryIds, products, date);
    AllPagesPriorities(categoryIds, products, date);
    assert StaticPages(date)[0] in StaticPages(date);
    UniqueTopFirst(all, Homepage(date));
  }

  // ---------------------------------------------------------------------------
  // The XML document
  // ---------------------------------------------------------------------------

  function FrequencyText(f: Frequency): string {
    match f
    case Daily => "daily"
    case Weekly => "weekly"
    case Monthly => "monthly"
  }

  /** `${priority}` for a priority in tenths: `1` for 1.0, `0.7` for 0.7. */
  function PriorityText(tenths: nat): (r: string)
    ensures tenths == 10 ==> r == "1"
    ensures 0 < tenths < 10 ==> r == "0." + [DigitChar(tenths)]
  {
    NatToString(tenths / 10) + (if tenths % 10 == 0 then "" else "." + [DigitChar(tenths % 10)])
  }

  const EntryOpen := "  <url>\n    <loc>"
  const LocClose := "</loc>"
  const LastmodOpen := "\n    <lastmod>"
  const LastmodClose := "</lastmod>"
  const FreqOpen := "\n    <changefreq>"
  const FreqClose := "</changefreq>"
  const PriorityOpen := "\n    <priority>"
  const PriorityClose := "</priority>"
  const LinkOpen := "\n    <xhtml:link "
  const LinkRel := "\n      rel=\"alternate\" "
  const HreflangTrTR := "\n      hreflang=\"tr-TR\" "
  const HreflangTr := "\n      hreflang=\"tr\" "
  const HrefOpen := "\n      href=\""
  const LinkClose := "\" />"
  const MobileTag := "\n    <mobile:mobile/>"
  const EntryClose := "\n  </url>"

  /** An `<xhtml:link>` alternate for one language. */
  function AlternateLink(hreflang: string, url: string): string {
    LinkOpen + LinkRel + hreflang + HrefOpen + url + LinkClose
  }

  /** The children of `<url>` after `<loc>`. */
  function EntryDetails(p: Page): string {
    LastmodOpen + p.lastModified + LastmodClose
      + FreqOpen + FrequencyText(p.changeFrequency) + FreqClose
      + PriorityOpen + PriorityText(p.priority) + PriorityClose
      + AlternateLink(HreflangTrTR, p.url) + AlternateLink(HreflangTr, p.url)
      + MobileTag + EntryClose
  }

  /** Everything of an entry after its location; it opens with `</loc>`. */
  function EntryRest(p: Page): string {
    LocClose + EntryDetails(p)
  }

  /** The `<url>` element of one page. */
  function UrlEntry(p: Page): (r: string)
    ensures EntryOpen + p.url <= r
  {
    EntryOpen + p.url + EntryRest(p)
  }

  /** Reads the location back out of an entry: the text between `<loc>` and
      the next `<`. */
  function LocOf(entry: string): string {
    if |entry| < |EntryOpen| then "" else BeforeChar(entry[|EntryOpen|..], '<')
  }

  lemma BeforeCharAt(a: string, x: string, b: string, c: char)
    requires c !in x && b != [] && b[0] == c
    ensures |a + x + b| >= |a| && BeforeChar((a + x + b)[|a|..], c) == x
  {
    assert (a + x + b)[|a|..] == x + [c] + b[1..];
    IndexOfAfter(x, c, b[1..]);
  }

  /** An entry gives back its page's URL, for any URL without a `<` (which
      no well-formed location has). */
  lemma LocOfUrlEntry(p: Page)
    requires '<' !in p.url
    ensures LocOf(UrlEntry(p)) == p.url
  {
    assert EntryRest(p)[0] == '<';
    BeforeCharAt(EntryOpen, p.url, EntryRest(p), '<');
  }

  function UrlEntries(pages: seq<Page>): (r: seq<string>)
    ensures |r| == |pages|
    ensures forall i | 0 <= i < |pages| :: r[i] == UrlEntry(pages[i])
  {
    seq(|pages|, i requires 0 <= i < |pages| => UrlEntry(pages[i]))
  }

  const XmlDeclaration := "<?xml version=\"1.0\" encoding=\"UTF-8\"?>"
  const UrlsetTag := "\n<urlset xmlns=\"" + "http://www.sitemaps.org/" + "schemas/sitemap/0.9\""
  const GoogleSchemas := "http://www.google.com/" + "schemas/"

  /** One namespace declaration line of `<urlset>`. */
  function Namespace(prefix: string, uri: string): string {
    "\n        xmlns:" + prefix + "=\"" + uri + "\""
  }

  function Namespaces(): string {
    Namespace("xhtml", "http://www.w3.org/" + "1999/xhtml")
      + Namespace("mobile", GoogleSchemas + "sitemap-mobile/1.0")
      + Namespace("news", GoogleSchemas + "sitemap-news/0.9")
      + Namespace("image", GoogleSchemas + "sitemap-image/1.1")
      + Namespace("video", GoogleSchemas + "sitemap-video/1.1")
  }

  function UrlsetOpen(): string {
    XmlDeclaration + UrlsetTag + Namespaces() + ">\n"
  }

  const UrlsetClose := "\n</urlset>"

  /** The XML document built from a page list: the `<urlset>` opening, the
      entries joined by line breaks, and the closing tag. */
  function SitemapXml(pages: seq<Page>): (r: string)
    ensures UrlsetOpen() <= r
    ensures |r| >= |UrlsetOpen()| + |UrlsetClose|
    ensures r[|UrlsetOpen()|..|r| - |UrlsetClose|] == Join(UrlEntries(pages), "\n")
    ensures r[|r| - |UrlsetClose|..] == UrlsetClose
  {
    Framed(UrlsetOpen(), Join(UrlEntries(pages), "\n"), UrlsetClose);
    UrlsetOpen() + Join(UrlEntries(pages), "\n") + UrlsetClose
  }

  /** Each entry of a list of pages reads back as its page's URL. */
  lemma EntriesLocs(pages: seq<Page>)
    requires forall i | 0 <= i < |pages| :: '<' !in pages[i].url
    ensures forall i | 0 <= i < |pages| :: LocOf(UrlEntries(pages)[i]) == pages[i].url
  {
    forall i | 0 <= i < |pages|
      ensures LocOf(UrlEntries(pages)[i]) == pages[i].url
    {
      LocOfUrlEntry(pages[i]);
    }
  }

  // ---------------------------------------------------------------------------
  // The route handler
  // ---------------------------------------------------------------------------

  /** What a request to the route gets: the thrown error, or a 200 response
      whose `Content-Type` is `application/xml`. */
  datatype Outcome = ReferenceError | Served(status: nat, contentType: string, body: string)

  const XmlContentType := "application/xml"

  /** What the name `sitemap` denotes at the call inside the handler: the
      module's `sitemap` function, or a block-scoped `const` of the same name
      declared by that very statement, which stays uninitialized (in its
      temporal dead zone) until its initializer has finished. */
  datatype SitemapBinding = ModuleFunction | UninitializedConst

  /** Calling `sitemap()`: the module function gives the page list; reading a
      `const` in its temporal dead zone throws, shown as `None`. */
  function CallSitemap(binding: SitemapBinding, categoryIds: seq<string>, products: seq<SitemapProduct>, date: string): (r: Option<seq<Page>>)
    ensures binding == ModuleFunction <==> r.Some?
    ensures r.Some? ==> r.value == SitemapPages(categoryIds, products, date)
  {
    match binding
    case ModuleFunction => Some(SitemapPages(categoryIds, products, date))
    case UninitializedConst => None
  }

  /** The handler given the binding its call resolves to: the XML of the
      page list with status 200, or the error the call throws. */
  function GetWith(binding: SitemapBinding, categoryIds: seq<string>, products: seq<SitemapProduct>, date: string): (r: Outcome)
    ensures r.Served? <==> binding == ModuleFunction
    ensures r.Served? ==>
      && r.status == 200 && r.contentType == XmlContentType
      && r.body == SitemapXml(SitemapPages(categoryIds, products, date))
  {
    match CallSitemap(binding, categoryIds, products, date)
    case None => ReferenceError
    case Some(pages) => Served(200, XmlContentType, SitemapXml(pages))
  }

  /** `GET` as written: the statement `const sitemap = await sitemap()`
      declares the name it calls, so within the handler's body `sitemap` is
      that `const`, still uninitialized when it is called. */
  function GetAsWritten(categoryIds: seq<string>, products: seq<SitemapProduct>, date: string): Outcome {
    GetWith(UninitializedConst, categoryIds, products, date)
  }

  /** Every request to the handler as written ends in the error, whatever the
      catalogue: no XML is ever served. */
  lemma GetAsWrittenThrows(categoryIds: seq<string>, products: seq<SitemapProduct>, date: string)
    ensures GetAsWritten(categoryIds, products, date) == ReferenceError
    ensures !GetAsWritten(categoryIds, products, date).Served?
  {
  }

  /** `GET` as intended, with the local given another name so that the call
      reaches the module's `sitemap` function. */
  function Get(categoryIds: seq<string>, products: seq<SitemapProduct>, date: string): Outcome {
    GetWith(ModuleFunction, categoryIds, products, date)
  }

  /** The handler as intended serves `application/xml` with status 200 and
      one `<url>` element per sitemap page, in sitemap order, each of whose
      `<loc>` reads back as the page's URL. */
  lemma GetEntries(categoryIds: seq<string>, products: seq<SitemapProduct>, date: string)
    requires var pages := SitemapPages(categoryIds, products, date);
      forall i | 0 <= i < |pages| :: '<' !in pages[i].url
    ensures var pages := SitemapPages(categoryIds, products, date);
      var r := Get(categoryIds, products, date);
      var entries := UrlEntries(pages);
      && r.Served? && r.status == 200 && r.contentType == XmlContentType
      && r.body[|UrlsetOpen()|..|r.body| - |UrlsetClose|] == Join(entries, "\n")
      && |entries| == |pages|
      && forall i | 0 <= i < |pages| :: LocOf(entries[i]) == pages[i].url
  {
    EntriesLocs(SitemapPages(categoryIds, products, date));
  }
}
