/** The string utilities of `src/lib/seo.ts`: page titles and descriptions
    with length caps, the keyword list, canonical URLs, the robots and locale
    tables, the SEO slug and the breadcrumb list. Optional parameters that
    JavaScript tests for truthiness are modelled as strings, the empty string
    standing for both `undefined` and `''`. */
module Seo {
  import opened Text
  import opened Seqs

  // ---------------------------------------------------------------------------
  // generateTurkishSEOTitle
  // ---------------------------------------------------------------------------

  const MaxTitleLength := 60

  const PlainTitleStem := "phFormula Türkiye"
  const CategorySlogan := " - Orijinal Ürünler, Hızlı Teslimat"
  const PlainSlogan := " - Orijinal Cilt Bakım Ürünleri"
  const HomeTitleTail := " - Premium Cilt Bakım Ürünleri | Türkiye'nin #1 phFormula Mağazası"

  /** The part after the base title: with a category, the category and the
      shop slogan; without one, the shop slogan alone. */
  function TitleSuffix(category: string): string {
    if category != "" then CategoryStem(category) + CategorySlogan
    else PlainTitleStem + PlainSlogan
  }

  /** The category and the shop name, the part of a category suffix before
      its slogan. */
  function CategoryStem(category: string): string {
    category + " | " + PlainTitleStem
  }

  /** `generateTurkishSEOTitle`. The home page gets its fixed template. Other
      pages get `base - suffix` when that fits in 60 characters, and otherwise
      `base | ` followed by the suffix up to its first ` - `. Every title
      starts with the base title. */
  function SeoTitle(baseTitle: string, category: string, isHomePage: bool): (r: string)
    ensures baseTitle <= r
    ensures isHomePage ==> r == baseTitle + HomeTitleTail
    ensures !isHomePage && |baseTitle + " - " + TitleSuffix(category)| <= MaxTitleLength ==>
      r == baseTitle + " - " + TitleSuffix(category)
    ensures !isHomePage && |baseTitle + " - " + TitleSuffix(category)| > MaxTitleLength ==>
      r == baseTitle + " | " + BeforeStr(TitleSuffix(category), " - ")
  {
    if isHomePage then baseTitle + HomeTitleTail
    else
      var suffix := TitleSuffix(category);
      var full := baseTitle + " - " + suffix;
      if |full| > MaxTitleLength then baseTitle + " | " + BeforeStr(suffix, " - ") else full
  }

  /** A long title for a category without `-` in its name keeps the category
      and `phFormula Türkiye`, dropping the slogan after ` - `. */
  lemma SeoTitleCategoryCut(baseTitle: string, category: string)
    requires category != "" && '-' !in category
    requires |baseTitle + " - " + TitleSuffix(category)| > MaxTitleLength
    ensures SeoTitle(baseTitle, category, false) == baseTitle + " | " + CategoryStem(category)
  {
    var stem := CategoryStem(category);
    assert '-' !in stem by {
      assert '-' !in " | " && '-' !in PlainTitleStem;
    }
    BeforeStrAfter(stem, CategorySlogan, " - ");
  }

  /** A long title without a category keeps just `phFormula Türkiye`. */
  lemma SeoTitlePlainCut(baseTitle: string)
    requires |baseTitle + " - " + TitleSuffix("")| > MaxTitleLength
    ensures SeoTitle(baseTitle, "", false) == baseTitle + " | " + PlainTitleStem
  {
    assert '-' !in PlainTitleStem;
    BeforeStrAfter(PlainTitleStem, PlainSlogan, " - ");
  }

  // ---------------------------------------------------------------------------
  // generateTurkishSEODescription
  // ---------------------------------------------------------------------------

  const MaxDescriptionLength := 160

  const ValuePoints: seq<string> := ["✓ %100 Orijinal", "✓ Hızlı Teslimat", "✓ WhatsApp Sipariş"]
  const OfferPoint := "✓ Özel Fiyat"
  const DescriptionTail := " ⚡ Şimdi sipariş ver!"

  /** The value points after the optional `unshift` of the offer point. */
  function Points(includeOffers: bool): (r: seq<string>)
    ensures includeOffers ==> |r| == 4 && r[0] == OfferPoint && r[1..] == ValuePoints
    ensures !includeOffers ==> r == ValuePoints
  {
    if includeOffers then [OfferPoint] + ValuePoints else ValuePoints
  }

  function TypeSentence(productType: string): string {
    " " + productType + " kategorisinde Türkiye'nin en güvenilir adresi."
  }

  /** The description with the product-type sentence, when there is one. */
  function TypedDescription(baseDescription: string, productType: string): string {
    if productType != "" then baseDescription + TypeSentence(productType) else baseDescription
  }

  /** The description before the length cap. */
  function BuiltDescription(baseDescription: string, productType: string, includeOffers: bool): string {
    TypedDescription(baseDescription, productType) + " " + Join(Points(includeOffers), " ") + DescriptionTail
  }

  /** `generateTurkishSEODescription`: the built description, cut to 157
      characters plus `...` when it is longer than 160. */
  method SeoDescription(baseDescription: string, productType: string, includeOffers: bool) returns (r: string)
    ensures |r| <= MaxDescriptionLength
    ensures |baseDescription| <= 157 ==> baseDescription <= r
    ensures var built := BuiltDescription(baseDescription, productType, includeOffers);
      && (|built| <= MaxDescriptionLength ==> r == built)
      && (|built| > MaxDescriptionLength ==> r == built[..157] + "..." && r[..157] == built[..157])
  {
    var description := baseDescription;
    var elements := ValuePoints;
    if includeOffers {
      elements := [OfferPoint] + elements;
    }
    if productType != "" {
      description := description + TypeSentence(productType);
    }
    description := description + " " + Join(elements, " ") + DescriptionTail;
    DescriptionStartsWithBase(baseDescription, productType, includeOffers);
    if |description| > MaxDescriptionLength {
      r := description[..157] + "...";
    } else {
      r := description;
    }
  }

  /** The offer point is put in front of the three fixed value points. */
  lemma OfferPointFirst()
    ensures Join(Points(true), " ") == OfferPoint + " " + Join(ValuePoints, " ")
    ensures Join(Points(false), " ") == Join(ValuePoints, " ")
  {
    assert Points(true)[1..] == ValuePoints;
  }

  /** The built description starts with the base description, followed by
      the product-type sentence exactly when a product type is given. */
  lemma DescriptionStartsWithBase(baseDescription: string, productType: string, includeOffers: bool)
    ensures baseDescription <= TypedDescription(baseDescription, productType)
    ensures TypedDescription(baseDescription, productType) <= BuiltDescription(baseDescription, productType, includeOffers)
    ensures productType != "" ==>
      TypedDescription(baseDescription, productType)[|baseDescription|..] == TypeSentence(productType)
    ensures productType == "" ==> TypedDescription(baseDescription, productType) == baseDescription
  {
    if productType != "" {
      var t := baseDescription + TypeSentence(productType);
      assert t[|baseDescription|..] == TypeSentence(productType);
    }
  }

  // ---------------------------------------------------------------------------
  // generateTurkishKeywords
  // ---------------------------------------------------------------------------

  const SkincareKeywords: seq<string> := [
    "cilt bakım ürünleri", "cilt bakım kremi", "anti aging serum", "nemlendiridici",
    "güzellik ürünleri", "kozmetik", "dermokozmetik", "organik cilt bakımı",
    "premium cilt bakım", "profesyonel cilt bakımı"
  ]

  const BrandKeywords: seq<string> := [
    "phformula türkiye", "phformula ürünleri", "phformula serum", "phformula tedavi",
    "phformula mağaza", "phformula online", "phformula satış", "phformula orijinal",
    "phformula İstanbul", "phformula ankara"
  ]

  const CommerceKeywords: seq<string> := [
    "online alışveriş", "güvenli alışveriş", "hızlı teslimat", "ücretsiz kargo",
    "whatsapp sipariş", "taksit imkanı", "kapıda ödeme", "online mağaza"
  ]

  /** The skin-care keyword filter: the keyword includes the lower-cased
      category, or the lower-cased category includes the keyword's first word. */
  predicate SkincareMatch(category: string, keyword: string) {
    Contains(keyword, Lower(category)) || Contains(Lower(category), BeforeChar(keyword, ' '))
  }

  function SkincareTest(category: string): string -> bool {
    k => SkincareMatch(category, k)
  }

  function LocalVariants(primaryKeyword: string): seq<string> {
    [primaryKeyword + " türkiye", primaryKeyword + " online", primaryKeyword + " satış", primaryKeyword + " mağaza"]
  }

  /** The skin-care keywords kept for the category. */
  function CategoryKeywords(category: string): seq<string> {
    Filter(SkincareKeywords, SkincareTest(category))
  }

  /** `slice(0, n)`: at most the first `n` elements. */
  function Take(s: seq<string>, n: nat): (r: seq<string>)
    ensures r <= s && |r| == Min(n, |s|)
  {
    s[..Min(n, |s|)]
  }

  /** The keyword array before duplicates are removed, in push order. */
  function KeywordList(primaryKeyword: string, category: string, includeLocalTerms: bool): seq<string> {
    var pushed := [primaryKeyword] + CategoryKeywords(category) + BrandKeywords + Take(CommerceKeywords, 5);
    if includeLocalTerms then pushed + LocalVariants(primaryKeyword) else pushed
  }

  /** `[...new Set(s)]`: a set of the values seen so far, and the values in
      the order they were first added. */
  method RemoveDuplicates(s: seq<string>) returns (r: seq<string>)
    ensures r == Dedup(s)
  {
    var seen: set<string> := {};
    r := [];
    for i := 0 to |s|
      invariant r == Dedup(s[..i])
      invariant forall x :: x in seen <==> x in r
    {
      assert s[..i + 1][..i] == s[..i];
      if s[i] !in seen {
        seen := seen + {s[i]};
        r := r + [s[i]];
      }
    }
    assert s[..|s|] == s;
  }

  /** `generateTurkishKeywords`: the primary keyword, the matching skin-care
      keywords, the brand keywords, the first five e-commerce keywords and,
      when asked for, four local variants, without duplicates. */
  method TurkishKeywords(primaryKeyword: string, category: string, includeLocalTerms: bool)
    returns (keywords: seq<string>)
    ensures keywords == Dedup(KeywordList(primaryKeyword, category, includeLocalTerms))
  {
    var all := [primaryKeyword];
    all := all + CategoryKeywords(category);
    all := all + BrandKeywords;
    all := all + Take(CommerceKeywords, 5);
    if includeLocalTerms {
      all := all + LocalVariants(primaryKeyword);
    }
    keywords := RemoveDuplicates(all);
  }

  /** The keyword list has no duplicates and starts with the primary keyword. */
  lemma KeywordsDistinctPrimaryFirst(primaryKeyword: string, category: string, includeLocalTerms: bool)
    ensures var r := Dedup(KeywordList(primaryKeyword, category, includeLocalTerms));
      Distinct(r) && r != [] && r[0] == primaryKeyword
  {
    var list := KeywordList(primaryKeyword, category, includeLocalTerms);
    DedupDistinct(list);
    DedupFirst(list);
  }

  /** A keyword is in the result exactly when it is the primary keyword, a
      matching skin-care keyword, a brand keyword, one of the first five
      e-commerce keywords, or (only when asked for) a local variant. */
  lemma KeywordsMembers(primaryKeyword: string, category: string, includeLocalTerms: bool, x: string)
    ensures x in Dedup(KeywordList(primaryKeyword, category, includeLocalTerms)) <==>
      || x == primaryKeyword
      || x in CategoryKeywords(category)
      || x in BrandKeywords
      || x in Take(CommerceKeywords, 5)
      || (includeLocalTerms && x in LocalVariants(primaryKeyword))
  {
    DedupMembers(KeywordList(primaryKeyword, category, includeLocalTerms));
  }

  // ---------------------------------------------------------------------------
  // generateCanonicalUrl and generateHreflangAlternates
  // ---------------------------------------------------------------------------

  const DefaultBaseUrl := "https://phformula.com.tr"

  /** The path with a leading `/` added when it is missing. */
  function NormalizedPath(path: string): (r: string)
    ensures r != [] && r[0] == '/'
    ensures path != [] && path[0] == '/' ==> r == path
    ensures !(path != [] && path[0] == '/') ==> r == "/" + path
  {
    if path != [] && path[0] == '/' then path else "/" + path
  }

  /** The normalised path cut at its first `?`, then at its first `#`. */
  function CleanPath(path: string): (r: string)
    ensures r != [] && r[0] == '/'
    ensures '?' !in r && '#' !in r
    ensures r <= NormalizedPath(path)
    ensures |r| < |NormalizedPath(path)| ==> NormalizedPath(path)[|r|] in {'?', '#'}
  {
    var n := NormalizedPath(path);
    var q := BeforeChar(n, '?');
    var r := BeforeChar(q, '#');
    assert r <= q <= n;
    r
  }

  /** `generateCanonicalUrl`. */
  function CanonicalUrl(path: string, baseUrl: string): (r: string)
    ensures r == baseUrl + CleanPath(path)
  {
    baseUrl + CleanPath(path)
  }

  /** Canonicalising the path of a canonical URL gives the same URL. */
  lemma CanonicalUrlIdempotent(path: string, baseUrl: string)
    ensures var r := CanonicalUrl(path, baseUrl);
      CanonicalUrl(r[|baseUrl|..], baseUrl) == r
  {
    var c := CleanPath(path);
    assert (baseUrl + c)[|baseUrl|..] == c;
    assert NormalizedPath(c) == c;
    BeforeCharAbsent(c, '?');
    BeforeCharAbsent(c, '#');
  }

  datatype Alternate = Alternate(hrefLang: string, href: string)

  /** `generateHreflangAlternates`: `tr-TR`, `tr` and `x-default`, all
      pointing at the canonical URL of the path. */
  function HreflangAlternates(path: string, baseUrl: string): (r: seq<Alternate>)
    ensures |r| == 3
    ensures r[0].hrefLang == "tr-TR" && r[1].hrefLang == "tr" && r[2].hrefLang == "x-default"
    ensures forall i | 0 <= i < 3 :: r[i].href == CanonicalUrl(path, baseUrl)
  {
    var href := CanonicalUrl(path, baseUrl);
    [Alternate("tr-TR", href), Alternate("tr", href), Alternate("x-default", href)]
  }

  /** Every alternate is already canonical. */
  lemma HreflangCanonical(path: string, baseUrl: string)
    ensures forall a | a in HreflangAlternates(path, baseUrl) ::
      |baseUrl| <= |a.href| && CanonicalUrl(a.href[|baseUrl|..], baseUrl) == a.href
  {
    CanonicalUrlIdempotent(path, baseUrl);
  }

  // ---------------------------------------------------------------------------
  // generateRobotsDirective and generateOGLocale
  // ---------------------------------------------------------------------------

  datatype PageType = Public | Private | NoIndexPage | Staging

  const IndexFollow := "index, follow"
  const PublicDirective := IndexFollow + ", max-image-preview:large, max-snippet:-1, max-video-preview:-1"

  /** `generateRobotsDirective`. */
  function RobotsDirective(pageType: PageType, allowFollowLinks: bool): (r: string)
    ensures pageType.Private? ==> r == "noindex, nofollow"
    ensures pageType.NoIndexPage? ==> r == (if allowFollowLinks then "noindex, follow" else "noindex, nofollow")
    ensures pageType.Staging? ==> r == "noindex, nofollow, noarchive, nosnippet"
    ensures pageType.Public? ==> r == PublicDirective
  {
    match pageType
    case Private => "noindex, nofollow"
    case NoIndexPage => if allowFollowLinks then "noindex, follow" else "noindex, nofollow"
    case Staging => "noindex, nofollow, noarchive, nosnippet"
    case Public => PublicDirective
  }

  /** Only public pages are indexed, and following links is allowed only for
      public pages and for `noindex` pages that ask for it. */
  lemma RobotsIndexing(pageType: PageType, allowFollowLinks: bool)
    ensures pageType.Public? ==> "index" <= RobotsDirective(pageType, allowFollowLinks)
    ensures !pageType.Public? ==> "noindex" <= RobotsDirective(pageType, allowFollowLinks)
    ensures "noindex, nofollow" <= RobotsDirective(pageType, allowFollowLinks)
        <==> (pageType.Private? || pageType.Staging? || (pageType.NoIndexPage? && !allowFollowLinks))
  {
    var r := RobotsDirective(pageType, allowFollowLinks);
    if pageType.Public? {
      assert r[0] == IndexFollow[0] == 'i';
    } else if pageType.NoIndexPage? && allowFollowLinks {
      assert r[9] == 'f';
    }
  }

  /** `generateOGLocale`: `tr_TR` without a region, else `tr_` and the region upper-cased. */
  function OgLocale(region: string): (r: string)
    ensures "tr_" <= r
    ensures region == "" ==> r == "tr_TR"
    ensures region != "" ==> |r| == 3 + |region| && r[3..] == Upper(region)
  {
    if region != "" then "tr_" + Upper(region) else "tr_TR"
  }

  /** The letter case of the region does not matter. */
  lemma OgLocaleIgnoresCase(region: string)
    ensures OgLocale(Upper(region)) == OgLocale(region)
  {
    UpperIdempotent(region);
  }

  // ---------------------------------------------------------------------------
  // generateSEOSlug
  // ---------------------------------------------------------------------------

  /** The Turkish letter map of `generateSEOSlug`, small and capital letters. */
  function SeoFoldChar(c: char): char {
    if c == 'ı' || c == 'İ' then 'i'
    else if c == 'ğ' || c == 'Ğ' then 'g'
    else if c == 'ü' || c == 'Ü' then 'u'
    else if c == 'ş' || c == 'Ş' then 's'
    else if c == 'ö' || c == 'Ö' then 'o'
    else if c == 'ç' || c == 'Ç' then 'c'
    else c
  }

  function SeoFold(s: string): (r: string)
    ensures |r| == |s|
    ensures forall i | 0 <= i < |s| :: r[i] == SeoFoldChar(s[i])
  {
    seq(|s|, i requires 0 <= i < |s| => SeoFoldChar(s[i]))
  }

  /** What `.replace(/[^a-z0-9\s-]/g, '')` keeps. */
  predicate KeptChar(c: char) {
    IsAlnum(c) || IsSpace(c) || c == '-'
  }

  function KeptTest(): char -> bool {
    c => KeptChar(c)
  }

  /** `generateSEOSlug`: lower-case, fold Turkish letters, drop everything
      outside `[a-z0-9\s-]`, turn white-space runs into `-`, collapse `-`
      runs, and strip `-` at both ends. The result is always a slug. */
  function SeoSlug(text: string): (r: string)
    ensures IsSlug(r)
  {
    var kept := Filter(SeoFold(Lower(text)), KeptTest());
    assert forall i | 0 <= i < |kept| :: IsSlugChar(kept[i]) || IsSpace(kept[i]) by {
      forall i | 0 <= i < |kept| ensures IsSlugChar(kept[i]) || IsSpace(kept[i]) {
        assert kept[i] in kept;
      }
    }
    TrimHyphens(CollapseHyphens(SpacesToHyphen(kept)))
  }

  /** Every step before the white-space step leaves a slug character alone. */
  lemma SlugCharKept(c: char)
    requires IsSlugChar(c)
    ensures LowerChar(c) == c && SeoFoldChar(c) == c && KeptChar(c) && !IsSpace(c)
  {
  }

  /** Lower-casing, folding and dropping leave a slug alone. */
  lemma SlugSurvivesCleaning(s: string)
    requires forall i | 0 <= i < |s| :: IsSlugChar(s[i])
    ensures Filter(SeoFold(Lower(s)), KeptTest()) == s
    ensures forall i | 0 <= i < |s| :: !IsSpace(s[i])
  {
    forall i | 0 <= i < |s|
      ensures LowerChar(s[i]) == s[i] && SeoFoldChar(s[i]) == s[i] && KeptChar(s[i]) && !IsSpace(s[i])
    {
      SlugCharKept(s[i]);
    }
    LowerFixes(s);
    assert SeoFold(s) == s;
    FilterKeepsAll(s, KeptTest());
  }

  /** A slug is its own SEO slug. */
  lemma SeoSlugKeepsSlug(s: string)
    requires IsSlug(s)
    ensures SeoSlug(s) == s
  {
    SlugSurvivesCleaning(s);
    SpacesToHyphenFixes(s);
    CollapseHyphensFixes(s);
    TrimHyphensFixes(s);
  }

  lemma SeoSlugIdempotent(text: string)
    ensures SeoSlug(SeoSlug(text)) == SeoSlug(text)
  {
    SeoSlugKeepsSlug(SeoSlug(text));
  }

  // ---------------------------------------------------------------------------
  // generateBreadcrumbSchema
  // ---------------------------------------------------------------------------

  datatype Crumb = Crumb(name: string, url: string)

  datatype ListItem = ListItem(position: nat, name: string, item: string)

  /** The `itemListElement` of `generateBreadcrumbSchema`: one item per crumb,
      in order, numbered from 1. */
  function BreadcrumbItems(crumbs: seq<Crumb>): (r: seq<ListItem>)
    ensures |r| == |crumbs|
    ensures forall i | 0 <= i < |r| :: r[i].position == i + 1
  {
    seq(|crumbs|, i requires 0 <= i < |crumbs| => ListItem(i + 1, crumbs[i].name, crumbs[i].url))
  }

  /** Reading the crumbs back from the list items. */
  function CrumbsOf(items: seq<ListItem>): seq<Crumb> {
    seq(|items|, i requires 0 <= i < |items| => Crumb(items[i].name, items[i].item))
  }

  /** The list keeps every crumb's name and url, in order. */
  lemma BreadcrumbRoundTrip(crumbs: seq<Crumb>)
    ensures CrumbsOf(BreadcrumbItems(crumbs)) == crumbs
  {
  }
}
