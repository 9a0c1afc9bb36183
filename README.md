# phFormula storefront: a Dafny model of its logic

The phFormula storefront is a Next.js shop for skin-care products, written
in Turkish. Most of it is page markup. This project models the part that
computes things, one Dafny module per source file:

- **Catalogue queries** (`Catalog`, from `src/lib/products.ts`):
  - look a product up by id;
  - filter by category with keyword rules, and search ignoring case;
  - derive the category list by counting rule matches in a `Map` and
    sorting by count;
  - product image paths, the size list, excerpts and slugs;
  - the featured and recent slices.
- **The products page** (`ProductsPage`, from `src/app/products/page.tsx`):
  - the search, category filter and name sort of `filteredProducts`,
    including the in-place sort;
  - the URL parameters that seed the filters, and clearing them.
- **SEO strings** (`Seo`, from `src/lib/seo.ts`):
  - titles and descriptions with length caps;
  - the keyword list with duplicates removed;
  - canonical URLs, hreflang alternates, robots directives, Open Graph
    locales, SEO slugs and breadcrumb lists.
- **Cart and checkout** (`Cart`, `Checkout`, with `Money`):
  - cart state and its handlers (quantity update, removal, coupon);
  - subtotal, 10% discount, 18% tax, shipping, and the WhatsApp messages.
  - Money is integer kuruş (hundredths of a lira), so 29.90 ₺ is 2990.
- **Small UI state machines**:
  - `Scarcity`, from `src/components/psychology/ScarcityIndicator.tsx`: the
    viewer counter, the stock badge and the live activity feed;
  - `MobileOrder`, from `src/components/mobile/MobileWhatsAppOrder.tsx`:
    offer rotation, the order button, the messages and the scroll rule of
    the sticky button;
  - `Appointment`, from `src/app/appointment/page.tsx`: the booking form,
    the service lookup and the booking message.
- **The sitemap** (`Sitemap`, from `src/app/sitemap.ts`):
  - the page list, sorted stably by priority (in tenths);
  - one `<url>` entry per page in the XML that `GET` is meant to return,
    laid out as in the Sitemaps 0.9 protocol of sitemaps.org;
  - `GET` as written, which throws before building any XML (see Findings).

Shared modules:

- `Text`: ASCII and Turkish letter case, `includes`, `trim`, join/split and
  slugs.
- `Seqs`: filter, reverse, de-duplication.
- `Sorting`: the stable sort by a descending integer key.
- `Tally`: the insertion-ordered counting map.
- `Wrappers`: `Option`.

### How the model is organised

- **Inputs.** The product catalogue is an input sequence, because the
  bundled product data is not part of this model. The same goes for the
  category ids and products of the sitemap.
- **Randomness.** Each `Math.random()` draw is a `Draw(num, den)` with
  `num < den`, so `Math.floor(Math.random() * n)` becomes `num * n / den`.
- **Timers and event handlers.** Interval ticks, timeouts and scroll events
  become method calls.
- **Page state.** Where a component holds state, it is a class whose
  methods state the new state.
- **In-place work.** The sort that works in place on the shared catalogue
  array is modelled on an `array`.

## Model

| member | source | states |
|---|---|---|
| Catalog.ProductById | src/lib/products.ts:39-41 | nothing is found exactly when no product has that id; a found product has that id and no earlier product has it |
| Catalog.ProductsByCategory | src/lib/products.ts:44-91 | `all` gives the whole catalogue; any other id keeps exactly the products that satisfy that category's keyword rule |
| Catalog.ProductsByCategoryKeepsOrder | src/lib/products.ts:49-91 | the category filter keeps catalogue order: filtering a concatenation is filtering each part |
| Catalog.FallbackTerm | src/lib/products.ts:87-88 | an unknown category id is matched as itself, lower-cased, with every `-` turned into a space |
| Catalog.SearchProducts | src/lib/products.ts:94-103 | a blank query gives the whole catalogue; otherwise exactly the products whose lower-cased name, description or size contains the trimmed, lower-cased query |
| Catalog.SearchKeepsOrder | src/lib/products.ts:98-103 | search keeps catalogue order |
| Catalog.SearchIgnoresCase | src/lib/products.ts:95 | lower-casing the query changes nothing |
| Catalog.ImageUrl | src/lib/products.ts:106-114 | index 0 gives the `-main.jpg` path; index i > 0 gives the `-i.jpg` path |
| Catalog.ProductImages | src/lib/products.ts:117-134 | 24 paths: the four `-main` extensions first, then slots 1 to 5 with the four extensions each; the image URL of every slot 0 to 5 is among them |
| Catalog.GetCategories | src/lib/products.ts:137-192 | the loop over the products fills the map, and the result is the map's entries sorted by count |
| Catalog.CategoriesCountMatchesFilter | src/lib/products.ts:53-184 | every reported count is at least 1 and equals the length of `getProductsByCategory` for its id |
| Catalog.CategoriesComplete | src/lib/products.ts:140-191 | a label is reported exactly when some product matches it, and it is reported once, with its count |
| Catalog.CategoriesSorted | src/lib/products.ts:191 | the categories are ordered by count, largest first |
| Catalog.CategoriesStable | src/lib/products.ts:186-191 | categories with equal counts keep the order in which their labels entered the map |
| Catalog.RuleTablesAgree | src/lib/products.ts:53-183 | for every label of the counting chain, its id's rule in the filter table is the same rule |
| Catalog.CategoryIdsMatch | src/lib/products.ts:187 | each label with its whitespace runs turned into `-` and lower-cased is the id the filter table uses |
| Catalog.CategoryIdsDistinct | src/lib/products.ts:145-187 | different labels give different ids |
| Catalog.Capitalize | src/lib/products.ts:188 | same length; the first character is upper-cased and the rest kept |
| Catalog.GetSizes | src/lib/products.ts:213-229 | strictly ascending, and a size is listed exactly when some product carries it or its name yields it |
| Catalog.InsertAscending | src/lib/products.ts:214-228 | adding a new value to a strictly ascending list keeps it strictly ascending, with exactly one more element |
| Catalog.FirstSentence | src/lib/products.ts:252-253 | a prefix without `.`, `!` or `?`, followed in the input by one of them or by the end |
| Catalog.Excerpt | src/lib/products.ts:245-260 | empty gives empty; input no longer than the maximum is kept; otherwise the first sentence and `.`, or the first maximum characters and `...`; never longer than the maximum plus 3 |
| Catalog.FoldTurkish | src/lib/products.ts:263-270 | each character mapped on its own: ç, ğ, ı, ö, ş, ü to c, g, i, o, s, u |
| Catalog.CreateSlug | src/lib/products.ts:263-275 | only `a-z`, `0-9` and `-`, no `--`, no `-` at either end |
| Catalog.CreateSlugKeepsSlug | src/lib/products.ts:263-275 | a slug is its own slug |
| Catalog.CreateSlugIdempotent | src/lib/products.ts:263-275 | slugging twice is slugging once |
| Catalog.CategoryDescription | src/lib/products.ts:195-210 | a label with a non-empty entry in the description table gets that entry; any other name gets `Profesyonel cilt bakım ürünleri`; never empty |
| Catalog.CategoryDescriptionKnown | src/lib/products.ts:195-210 | the table describes exactly the ten counted labels, and a name gets the default exactly when it is not one of them |
| Catalog.FeaturedProducts | src/lib/products.ts:285-287 | the first min(8, n) products |
| Catalog.RecentProducts | src/lib/products.ts:290-293 | the last min(6, n) products, newest first |
| ProductsPage.SortInPlace | src/app/products/page.tsx:182-193 | the array afterwards holds the sorted order of its old contents |
| ProductsPage.InsertBy | src/app/products/page.tsx:182-193 | insertion adds exactly the one element |
| ProductsPage.SortBy | src/app/products/page.tsx:182-193 | the sort is a permutation of its input |
| ProductsPage.SortBySorted | src/app/products/page.tsx:182-193 | the sort's output is ordered under the comparator |
| ProductsPage.SortByNames | src/app/products/page.tsx:184-187 | under `name-asc` the names never decrease, under `name-desc` they never increase |
| ProductsPage.FilteredAllBlank | src/app/products/page.tsx:163-171 | with every category and a blank query, the list is the whole catalogue |
| ProductsPage.FilteredAllIsSearch | src/app/products/page.tsx:166-168 | with every category, the list is `searchProducts(query)` |
| ProductsPage.FilteredCategory | src/app/products/page.tsx:171-178 | with a category selected, a product is listed exactly when it is in that category and, for a non-blank query, its name or description contains the untrimmed query |
| ProductsPage.AdoptedCategoryNonEmpty | src/app/products/page.tsx:150-152 | a category id adopted from the URL selects at least one product |
| ProductsPage.ProductsPageContent.constructor | src/app/products/page.tsx:139-142 | no query, every category, names ascending |
| ProductsPage.ProductsPageContent.ApplyUrlParameters | src/app/products/page.tsx:149-159 | the category parameter is adopted only when it is a derived category id; the search parameter only when it is not empty |
| ProductsPage.ProductsPageContent.ClearFilters | src/app/products/page.tsx:198-203 | no query and every category afterwards, the sort order kept, so no filter is active |
| ProductsPage.ProductsPageContent.FilterSteps | src/app/products/page.tsx:163-179 | the filtered list; with no filter it is the shared catalogue array itself |
| ProductsPage.ProductsPageContent.FilteredProductsAsWritten | src/app/products/page.tsx:162-196 | the sorted filtered list; with no filter, the shared catalogue array is the one sorted |
| ProductsPage.ProductsPageContent.FilteredProducts | src/app/products/page.tsx:162-196 | the same sorted list, in a new array |
| ProductsPage.SortReordersCatalogue | src/app/products/page.tsx:163-182 | sorting the shared catalogue changes what later queries see |
| Seo.SeoTitle | src/lib/seo.ts:116-132 | every title starts with the base title; the home page gets its template; otherwise `base - suffix` when that fits in 60 characters, else `base | ` followed by the suffix up to its first ` - ` |
| Seo.SeoTitleCategoryCut | src/lib/seo.ts:125-131 | a long category title keeps the suffix up to its first ` - `: the category and `phFormula Türkiye` |
| Seo.SeoTitlePlainCut | src/lib/seo.ts:125-131 | a long title without a category keeps `phFormula Türkiye` |
| Seo.Points | src/lib/seo.ts:143-151 | with offers, `✓ Özel Fiyat` is put in front of the three fixed value points |
| Seo.SeoDescription | src/lib/seo.ts:135-163 | never longer than 160; a built description that is too long becomes its first 157 characters and `...` |
| Seo.DescriptionStartsWithBase | src/lib/seo.ts:140-157 | the built description starts with the base description; a product-type sentence follows only when a type is given |
| Seo.OfferPointFirst | src/lib/seo.ts:149-157 | the joined points start with the offer point exactly when offers are included |
| Seo.RemoveDuplicates | src/lib/seo.ts:196 | the first occurrence of every value, in order |
| Seo.TurkishKeywords | src/lib/seo.ts:166-197 | the pushed keywords, with duplicates removed |
| Seo.KeywordsDistinctPrimaryFirst | src/lib/seo.ts:171-196 | no duplicates, and the primary keyword first |
| Seo.KeywordsMembers | src/lib/seo.ts:171-193 | a keyword is in the result exactly when it is the primary keyword, a matching skin-care keyword, a brand keyword, one of the first 5 commerce keywords, or (only with local terms) one of the four local variants |
| Seo.NormalizedPath | src/lib/seo.ts:202 | exactly one `/` is added in front when it is missing |
| Seo.CleanPath | src/lib/seo.ts:205 | a prefix of the normalised path with no `?` or `#`, cut at the first of them |
| Seo.CanonicalUrl | src/lib/seo.ts:200-208 | the base URL followed by the cleaned path |
| Seo.CanonicalUrlIdempotent | src/lib/seo.ts:200-208 | canonicalising the path of a canonical URL gives the same URL |
| Seo.HreflangAlternates | src/lib/seo.ts:211-226 | three entries, `tr-TR`, `tr` and `x-default`, all with the canonical URL |
| Seo.HreflangCanonical | src/lib/seo.ts:211-226 | every alternate's href is already canonical |
| Seo.RobotsDirective | src/lib/seo.ts:229-244 | private pages get `noindex, nofollow`; `noindex` pages follow links only when allowed; staging and public get their fixed directives |
| Seo.RobotsIndexing | src/lib/seo.ts:229-244 | only public pages are indexed |
| Seo.OgLocale | src/lib/seo.ts:247-249 | `tr_TR` without a region, else `tr_` followed by the region upper-cased, character by character |
| Seo.OgLocaleIgnoresCase | src/lib/seo.ts:248 | the region's letter case does not matter |
| Seo.SeoSlug | src/lib/seo.ts:252-266 | only `a-z`, `0-9` and `-`, no `--`, no `-` at either end |
| Seo.SeoSlugKeepsSlug | src/lib/seo.ts:252-266 | a slug is its own SEO slug |
| Seo.SeoSlugIdempotent | src/lib/seo.ts:252-266 | applying it twice is applying it once |
| Seo.BreadcrumbItems | src/lib/seo.ts:269-280 | one item per crumb, at positions 1 to n |
| Seo.BreadcrumbRoundTrip | src/lib/seo.ts:273-278 | the items give back every crumb's name and url, in order |
| Money.Shipping | src/app/cart/page.tsx:97 | free exactly from 250 lira on, 29.90 otherwise |
| Money.PercentExact | src/app/cart/page.tsx:96 | on whole lira, the percentage in kuruş is exact |
| Money.SumAppend | src/app/cart/page.tsx:95 | the sum over a concatenation is the sum of the sums |
| Money.FormatKurus | src/app/cart/page.tsx:325 | digits, a `.`, then two digits, as `toFixed(2)` prints |
| Money.FormatKurusValue | src/app/cart/page.tsx:325 | the text reads back as the amount: lira before the point, kuruş after it |
| Cart.WithoutId | src/app/cart/page.tsx:72 | exactly the items with another id stay |
| Cart.WithoutIdKeepsOrder | src/app/cart/page.tsx:70-84 | the remaining items keep their order |
| Cart.WithQuantity | src/app/cart/page.tsx:74-78 | same length; the matching items get the new quantity and every other item stays as it was |
| Cart.MinusOnOneRemoves | src/app/cart/page.tsx:71-72 | the minus button (line 189) on an item with quantity 1 takes every item with that id out |
| Cart.UpdatedPositive | src/app/cart/page.tsx:70-80 | no update leaves a zero or negative quantity in the cart |
| Cart.SubtotalFacts | src/app/cart/page.tsx:95 | the subtotal is whole lira, and not negative when quantities are positive |
| Cart.TotalsFacts | src/app/cart/page.tsx:95-98 | the discount is exactly a tenth of the subtotal with a coupon and 0 without; shipping is 0 exactly from 250 on; the total is subtotal minus discount plus shipping, and not negative |
| Cart.FreeShippingHint | src/app/cart/page.tsx:292-296 | shown only below 250, with a positive amount that makes up 250 |
| Cart.HintIffShippingCharged | src/app/cart/page.tsx:292-296 | the hint is shown exactly when shipping is charged |
| Cart.CouponIgnoresCase | src/app/cart/page.tsx:87 | `welcome10` is recognised in any letter case, and other codes are not |
| Cart.MessageLines | src/app/cart/page.tsx:324-325 | one bullet line per cart item, in cart order, each starting with the item's name |
| Cart.CartPage.WhatsAppMessage | src/app/cart/page.tsx:323-326 | the greeting and the item lines in cart order, then `Toplam: `, the total, which is never negative, and the closing request |
| Cart.CartPage.constructor | src/app/cart/page.tsx:40-68 | the sample cart, an empty coupon box, no coupon |
| Cart.CartPage.SetCouponCode | src/app/cart/page.tsx:67 | typing in the coupon box changes only the box |
| Cart.CartPage.UpdateQuantity | src/app/cart/page.tsx:70-80 | 0 or less removes the items with that id, otherwise sets their quantity; the coupon state is unchanged |
| Cart.CartPage.RemoveItem | src/app/cart/page.tsx:82-84 | exactly the items with that id are removed |
| Cart.CartPage.ApplyCoupon | src/app/cart/page.tsx:86-93 | the coupon in any case is recorded and the box cleared; any other code changes nothing |
| Cart.CartPage.RemoveCoupon | src/app/cart/page.tsx:254 | the applied coupon is taken off; the items and the box stay |
| Checkout.SubtotalAppend | src/app/checkout/page.tsx:72 | the subtotal is additive over the lines |
| Checkout.OrderTotals | src/app/checkout/page.tsx:72-75 | the tax is exactly 18% of the subtotal; shipping is 0 exactly from 250 on; the total is the three added and not below the subtotal |
| Checkout.WithField | src/app/checkout/page.tsx:88-90 | the named field takes the value and every other field keeps its own |
| Checkout.WithFieldLaws | src/app/checkout/page.tsx:88-90 | writing a field's own value back changes nothing, and the later of two writes wins |
| Checkout.MessageLines | src/app/checkout/page.tsx:125 | one line per item in order, with the item's name, quantity and unit price |
| Checkout.CheckoutPage.WhatsAppMessage | src/app/checkout/page.tsx:123-127 | the greeting and the item lines in order, then `TOPLAM: `, the total, which is never negative, and the closing request |
| Checkout.CheckoutPage.constructor | src/app/checkout/page.tsx:41-69 | the sample order, an empty form with country `Türkiye`, payment by credit card |
| Checkout.CheckoutPage.HandleInputChange | src/app/checkout/page.tsx:88-90 | only the named field of the shipping form changes |
| Checkout.CheckoutPage.SetPaymentMethod | src/app/checkout/page.tsx:69 | the payment choice changes, the form does not |
| Scarcity.Scaled | src/components/psychology/ScarcityIndicator.tsx:33-35 | `Math.floor(Math.random() * n)` is below n |
| Scarcity.ClampViewers | src/components/psychology/ScarcityIndicator.tsx:50 | the result is in [1, 25] and equals the input when the input is in range |
| Scarcity.ViewerChange | src/components/psychology/ScarcityIndicator.tsx:49 | the change is in [-2, 2] |
| Scarcity.NextViewersBounds | src/components/psychology/ScarcityIndicator.tsx:48-51 | after a tick the viewers are in [1, 25], at most 2 away from an in-range previous value |
| Scarcity.InitialViewers | src/components/psychology/ScarcityIndicator.tsx:33 | 3 to 17 |
| Scarcity.InitialStock | src/components/psychology/ScarcityIndicator.tsx:34 | 2 to 9 |
| Scarcity.InitialSales | src/components/psychology/ScarcityIndicator.tsx:35 | 1 to 5 |
| Scarcity.StockBadgeText | src/components/psychology/ScarcityIndicator.tsx:84-87 | `Son N adet!` exactly when the stock is 2 or less, else `Sadece N adet kaldı` |
| Scarcity.Badges | src/components/psychology/ScarcityIndicator.tsx:62-111 | the stock badge appears exactly when showStock holds and the stock is 5 or less; each other badge exactly when its flag holds |
| Scarcity.ScarcityIndicator.constructor | src/components/psychology/ScarcityIndicator.tsx:25-28 | all counters 0 and nothing visible |
| Scarcity.ScarcityIndicator.GenerateRealisticData | src/components/psychology/ScarcityIndicator.tsx:32-41 | the three initial values from the draws, and visible |
| Scarcity.ScarcityIndicator.ViewerTick | src/components/psychology/ScarcityIndicator.tsx:48-51 | the viewers take the clamped new value; nothing else changes |
| Scarcity.ScarcityIndicator.Rendered | src/components/psychology/ScarcityIndicator.tsx:57 | nothing is rendered before the data is generated |
| Scarcity.NewActivity | src/components/psychology/ScarcityIndicator.tsx:137-150 | the type, product and location come from the sample lists, and the time is `şimdi` |
| Scarcity.Pushed | src/components/psychology/ScarcityIndicator.tsx:151 | the new activity first, then the previous first four in order; at most 5 |
| Scarcity.PushedAllNewest | src/components/psychology/ScarcityIndicator.tsx:151-157 | after several pushes the newest come first, newest to oldest, and the list stays within bounds |
| Scarcity.Displayed | src/components/psychology/ScarcityIndicator.tsx:167-193 | nothing when the list is empty, else only the newest activity |
| Scarcity.ActivityIcon | src/components/psychology/ScarcityIndicator.tsx:169-176 | the default icon exactly for an unknown type |
| Scarcity.ActivityText | src/components/psychology/ScarcityIndicator.tsx:178-189 | starts with the location; a known type gives `someone bought/viewed/...` the product, an unknown one the default text |
| Scarcity.LiveActivity.constructor | src/components/psychology/ScarcityIndicator.tsx:118 | an empty feed |
| Scarcity.LiveActivity.GenerateActivity | src/components/psychology/ScarcityIndicator.tsx:137-152 | the feed becomes the new activity pushed onto the old feed |
| Scarcity.LiveActivity.GenerateInitial | src/components/psychology/ScarcityIndicator.tsx:155-157 | the feed after the three initial activities are pushed in turn |
| Scarcity.NewActivities | src/components/psychology/ScarcityIndicator.tsx:155-157 | one activity per draw, in order |
| MobileOrder.NextOffer | src/components/mobile/MobileWhatsAppOrder.tsx:69 | the next index, wrapping to 0 after the last; always below 4 |
| MobileOrder.OfferAfterIsModulo | src/components/mobile/MobileWhatsAppOrder.tsx:68-70 | after n rotations the index is n mod 4 |
| MobileOrder.CtaLabel | src/components/mobile/MobileWhatsAppOrder.tsx:173-198 | clicked first, then out of stock, then the order label, which shows exactly when the button is enabled |
| MobileOrder.ResponseTimeIffEnabled | src/components/mobile/MobileWhatsAppOrder.tsx:201-203 | the response-time line shows exactly when the button is enabled |
| MobileOrder.OrderMessage | src/components/mobile/MobileWhatsAppOrder.tsx:74-94 | the product name and the category occur in the message, at their places |
| MobileOrder.QuickActionMessage | src/components/mobile/MobileWhatsAppOrder.tsx:111-118 | every quick-action message contains the product name |
| MobileOrder.WhatsAppUrl | src/components/mobile/MobileWhatsAppOrder.tsx:99-119 | the `wa.me` prefix and the number, then the message |
| MobileOrder.UrlKeepsMessage | src/components/mobile/MobileWhatsAppOrder.tsx:99-119 | whatever the message contains, the URL contains |
| MobileOrder.ScrollAllLast | src/components/mobile/MobileWhatsAppOrder.tsx:330-338 | after a run of scroll events the last y is the final position, and visibility follows the last two positions |
| MobileOrder.MobileWhatsAppOrder.constructor | src/components/mobile/MobileWhatsAppOrder.tsx:44-46 | not clicked, offer 0, trust details closed |
| MobileOrder.MobileWhatsAppOrder.RotateOffer | src/components/mobile/MobileWhatsAppOrder.tsx:68-70 | the offer index moves to the next one |
| MobileOrder.MobileWhatsAppOrder.CurrentOfferText | src/components/mobile/MobileWhatsAppOrder.tsx:248-257 | the text shown is one of the offers |
| MobileOrder.MobileWhatsAppOrder.HandleClick | src/components/mobile/MobileWhatsAppOrder.tsx:96-109 | clicked; the URL carries the order message, so it contains the name and the category |
| MobileOrder.MobileWhatsAppOrder.ClickTimeout | src/components/mobile/MobileWhatsAppOrder.tsx:108 | the click state is cleared |
| MobileOrder.MobileWhatsAppOrder.HandleQuickAction | src/components/mobile/MobileWhatsAppOrder.tsx:111-126 | the URL carries the quick-action message, so it contains the name |
| MobileOrder.MobileWhatsAppOrder.ToggleTrustDetails | src/components/mobile/MobileWhatsAppOrder.tsx:272 | the trust details flip |
| MobileOrder.MobileStickyWhatsApp.constructor | src/components/mobile/MobileWhatsAppOrder.tsx:325-327 | visible, last y 0, no tooltip |
| MobileOrder.MobileStickyWhatsApp.ControlNavbar | src/components/mobile/MobileWhatsAppOrder.tsx:330-339 | hidden exactly when the page scrolled down past 100; the last y becomes the current y |
| MobileOrder.MobileStickyWhatsApp.ScrollThrough | src/components/mobile/MobileWhatsAppOrder.tsx:330-339 | handling a run of scroll events one by one gives the fold of the rule over them |
| MobileOrder.MobileStickyWhatsApp.SetTooltip | src/components/mobile/MobileWhatsAppOrder.tsx:349-357 | only the tooltip changes |
| MobileOrder.MobileStickyWhatsApp.HandleClick | src/components/mobile/MobileWhatsAppOrder.tsx:359-368 | the URL carries the sticky message |
| Appointment.WithField | src/app/appointment/page.tsx:41-46 | the named field takes the value and every other field keeps its own |
| Appointment.WithFieldCommutes | src/app/appointment/page.tsx:41-46 | edits to two different fields commute |
| Appointment.FindService | src/app/appointment/page.tsx:49 | nothing exactly when no service has the id; otherwise the first one that has it |
| Appointment.ServiceName | src/app/appointment/page.tsx:49-50 | the matching service's name, or `Genel Danışmanlık` when none matches |
| Appointment.ServiceNamesOfTable | src/app/appointment/page.tsx:32-50 | `skin-analysis` resolves to `Cilt Analizi`, and the initial empty choice falls back |
| Appointment.BookingLines | src/app/appointment/page.tsx:52-63 | twelve lines, with name, phone, e-mail, service, date and notes on lines 3 to 8 |
| Appointment.BookingMessageOrder | src/app/appointment/page.tsx:52-63 | for single-line entries, splitting the message gives those six lines in that order |
| Appointment.SendDisabledFields | src/app/appointment/page.tsx:214 | only the name and the phone decide whether the send button is disabled: other edits leave it as it was, and emptying either disables it |
| Appointment.SendEnabledWhenFilled | src/app/appointment/page.tsx:214 | after the name and the phone are filled in, in either order, the button is enabled exactly when both are non-empty |
| Appointment.AppointmentPage.constructor | src/app/appointment/page.tsx:23-30 | an empty form, so sending is disabled |
| Appointment.AppointmentPage.HandleInputChange | src/app/appointment/page.tsx:41-46 | only the field named by the event changes |
| Appointment.AppointmentPage.HandleWhatsAppBooking | src/app/appointment/page.tsx:48-66 | the URL carries the booking message with the resolved service name |
| Sitemap.StaticPages | src/app/sitemap.ts:10-59 | eight pages, the homepage first |
| Sitemap.CategoryPages | src/app/sitemap.ts:62-67 | one page per category, at `base/products/{id}`, priority 0.8, daily |
| Sitemap.ProductPage | src/app/sitemap.ts:70-75 | the URL `base/products/{category}/{id}`; priority 0.7 and daily exactly when in stock, else 0.5 |
| Sitemap.ProductPages | src/app/sitemap.ts:70-75 | one page per product, in order |
| Sitemap.LocalPages | src/app/sitemap.ts:78-97 | three local pages |
| Sitemap.LandingPages | src/app/sitemap.ts:100-125 | four landing pages |
| Sitemap.SitemapPages | src/app/sitemap.ts:127-134 | a permutation of the five groups, of length 8 + categories + products + 3 + 4, sorted by priority with the highest first |
| Sitemap.SitemapIsSortedPermutation | src/app/sitemap.ts:128-134 | a permutation of the concatenated groups, of length 8 + categories + products + 3 + 4, sorted by priority, and equal priorities keep their order |
| Sitemap.AllPagesPriorities | src/app/sitemap.ts:10-125 | every priority is between 0.3 and 1.0, and only the homepage has 1.0 |
| Sitemap.SitemapHasEveryPage | src/app/sitemap.ts:62-134 | every category page and every product page is in the sitemap |
| Sitemap.HomepageFirst | src/app/sitemap.ts:128-134 | the homepage, the one page at priority 1.0, comes first |
| Sitemap.PriorityText | src/app/sitemap.ts:155 | 10 tenths print as `1`, 1 to 9 tenths as `0.d` |
| Sitemap.UrlEntry | src/app/sitemap.ts:151-165 | each entry opens with `<url>` and `<loc>` followed by the page URL |
| Sitemap.LocOfUrlEntry | src/app/sitemap.ts:151-152 | reading the `<loc>` of an entry gives the page URL back |
| Sitemap.UrlEntries | src/app/sitemap.ts:151-165 | one entry per page, in order |
| Sitemap.SitemapXml | src/app/sitemap.ts:144-166 | the `<urlset>` opening, then the entries joined by line breaks, then the closing tag |
| Sitemap.CallSitemap | src/app/sitemap.ts:141 | the call gives the page list when the name is the module function, and throws when it is the uninitialized `const` |
| Sitemap.GetWith | src/app/sitemap.ts:140-175 | the handler serves exactly when the call reaches the module function, and then answers 200 with `application/xml` and the sitemap XML |
| Sitemap.GetAsWrittenThrows | src/app/sitemap.ts:140-141 | as written, every request ends in the ReferenceError and nothing is served |
| Sitemap.GetEntries | src/app/sitemap.ts:140-175 | the intended handler answers 200 with `application/xml`, and its XML has one entry per sitemap page, in order, whose `<loc>` is that page's URL |
| Sorting.SortDescSorted | src/app/sitemap.ts:134 | the descending sort is ordered by its key |
| Sorting.SortDescStable | src/app/sitemap.ts:134 | elements with equal keys keep their order |
| Tally.CountByLabel | src/lib/products.ts:140-184 | the map's keys in the order they were first set, each with its number of matching products |
| Tally.CountItem | src/lib/products.ts:145-183 | one product's chain of `if`s adds one to each label it matches and adds new labels at the end |
| Text.Trim | src/lib/products.ts:95 | the result is a slice of the input with only white space before and after it, empty exactly when the input is all white space, and otherwise starting and ending with a non-space character |
| Text.LowerIdempotent | src/lib/products.ts:95 | lower-casing twice is lower-casing once |

## Left out

- `formatPrice` (`Intl.NumberFormat`) and the display formatting of prices
  are not modelled. The messages print kuruş amounts with two decimals, as
  `toFixed(2)` does.
- The `popular` sort is not modelled, because its comparator is random.
  `ProductsPage.SortBy` keeps the filtered order for it.
- `localeCompare(…, 'tr')` is replaced by code-point order on the names. Only
  its totality and transitivity are used. The tie order of the JavaScript
  sort under this comparator is not stated.
- `toLowerCase` and `toUpperCase` are per-character maps over ASCII,
  Latin-1 and the Turkish letters. The expansion of `İ` into two characters
  is not reproduced.
- String lengths count Dafny characters, not UTF-16 code units. They differ
  for the emoji in the messages and for characters outside the BMP in the
  SEO caps.
- The size regex of `getSizes` is a parameter, `sizeInName`, that returns the
  size found in a name, if any.
- `Array.prototype.sort` on strings in `getSizes` uses the same code-point
  order. The set keeps no duplicates, so the result is strictly ascending.
- `setTimeout` and `setInterval`, including the scarcity ticks, the feed
  timer, the offer rotation, the click timeout and the tooltip timers, become
  explicit method calls.
- The scroll listener becomes `ControlNavbar` calls with the scroll position.
- `alert`, `navigator.vibrate`, `window.open` and the `tel:` link of
  `handleDirectCall` are I/O and are not modelled. Methods return the URL
  they would open.
- `encodeURIComponent` is not modelled: URLs carry the message unencoded.
- The `generateWhatsAppMessage` of `src/lib/products.ts` is only
  `encodeURIComponent` of a fixed template, so it is not modelled.
- The async simulated payment in checkout's `handleSubmit` is not modelled.
- The `cities` keyword list of `src/lib/seo.ts` is not read by any modelled
  function.
- `ProductsPage.ProductsPageContent.ApplyUrlParameters` takes the derived
  categories as a parameter. `Catalog.GetCategories` computes them.
- `Math.random` becomes a `Draw` fraction passed in.
- The trending flag of the scarcity badges is a boolean input.
- The sitemap's `currentDate` is a string parameter.
- The product catalogue and the sitemap's categories and products are input
  sequences, because the bundled product data is not part of this model.
- Sitemap URLs are not XML-escaped. `Sitemap.LocOfUrlEntry`
  requires a URL without `<`.
- The `Cache-Control` header of the sitemap response is not modelled.
- `Catalog.CategoryDescription`: names the object inherits from
  `Object.prototype`, such as `constructor`, are looked up as absent keys.
  In JavaScript they would yield the inherited property.
- JSX, CSS and the constant meta and structured-data payloads are not
  modelled.
- MobileOrder.QuickActionMessage: the three actions are a datatype, so the
  `undefined` message of a key outside the table cannot arise.
- Scarcity.InitialViewers: the source comments give 3-18, 2-10 and 1-6 for
  the initial ranges. The code yields at most 17, 9 and 5, and the model
  follows the code.

## Findings

| source | as written | input that shows it | evidently intended | confidence | as-written member | corrected member |
|---|---|---|---|---|---|---|
| src/app/products/page.tsx:163-182 | with no search and every category, `products` is the array returned by `getAllProducts()`, and `products.sort` sorts that shared catalogue array in place | a catalogue listing `b` before `a`, no filter, `name-asc`: the catalogue itself becomes `a`, `b`, so `getFeaturedProducts()` then starts with `a` | sort a copy, so filtering never changes the catalogue | not executed | ProductsPage.ProductsPageContent.FilteredProductsAsWritten, ProductsPage.SortReordersCatalogue | ProductsPage.ProductsPageContent.FilteredProducts |
| src/app/sitemap.ts:140-141 | `GET` declares `const sitemap = await sitemap()`, so inside the handler the name `sitemap` is that `const`, and calling it reads it before it is initialized | any request to the route: the call throws a ReferenceError and no XML is returned | call the module's `sitemap` function and store its result under another name | not executed | Sitemap.GetAsWritten, Sitemap.GetAsWrittenThrows | Sitemap.Get, Sitemap.GetEntries |
