/** The mobile WhatsApp order widgets
    (`src/components/mobile/MobileWhatsAppOrder.tsx`): the order card with
    its rotating offer, main call-to-action and quick actions, and the sticky
    button that hides while the page scrolls down. Message texts are kept
    before URL encoding; opening WhatsApp and vibrating are left out. */
module MobileOrder {
  import opened Text

  const WhatsAppNumber := "905551234567"

  // ---------------------------------------------------------------------------
  // Rotating offers
  // ---------------------------------------------------------------------------

  /** The texts of `mobileOffers`, in rotation order. */
  const MobileOffers: seq<string> := [
    "Size Özel İndirim", "5 Dk İçinde Yanıt", "VIP Müşteri Avantajları", "Ücretsiz Kargo"
  ]

  /** `(prev + 1) % mobileOffers.length`. */
  function NextOffer(prev: nat): (r: nat)
    ensures r < |MobileOffers|
    ensures prev + 1 < |MobileOffers| ==> r == prev + 1
    ensures prev == |MobileOffers| - 1 ==> r == 0
  {
    (prev + 1) % |MobileOffers|
  }

  /** The offer shown after `n` ticks from the first: the rotation has
      period four. */
  function OfferAfter(n: nat): (r: nat)
    ensures r < |MobileOffers|
  {
    if n == 0 then 0 else NextOffer(OfferAfter(n - 1))
  }

  lemma {:induction false} OfferAfterIsModulo(n: nat)
    ensures OfferAfter(n) == n % |MobileOffers|
  {
    if n > 0 {
      OfferAfterIsModulo(n - 1);
    }
  }

  // ---------------------------------------------------------------------------
  // The main call-to-action
  // ---------------------------------------------------------------------------

  /** `disabled={isClicked || !inStock}`. */
  predicate CtaDisabled(isClicked: bool, inStock: bool) {
    isClicked || !inStock
  }

  const OpeningLabel := "WhatsApp Açılıyor..."
  const OutOfStockLabel := "Stokta Yok - Bilgi Al"
  const OrderLabel := "WhatsApp'tan Hemen Sipariş Ver"

  /** The button label: a click in progress wins, then a missing stock, and
      only an enabled button offers to order. */
  function CtaLabel(isClicked: bool, inStock: bool): (r: string)
    ensures isClicked ==> r == OpeningLabel
    ensures !isClicked && !inStock ==> r == OutOfStockLabel
    ensures r == OrderLabel <==> !CtaDisabled(isClicked, inStock)
  {
    if isClicked then OpeningLabel else if !inStock then OutOfStockLabel else OrderLabel
  }

  /** The `5 saniye içinde yanıt` line shows exactly on an enabled button. */
  predicate ShowsResponseTime(isClicked: bool, inStock: bool) {
    !isClicked && inStock
  }

  lemma ResponseTimeIffEnabled(isClicked: bool, inStock: bool)
    ensures ShowsResponseTime(isClicked, inStock) <==> !CtaDisabled(isClicked, inStock)
    ensures ShowsResponseTime(isClicked, inStock) <==> CtaLabel(isClicked, inStock) == OrderLabel
  {
  }

  // ---------------------------------------------------------------------------
  // Messages
  // ---------------------------------------------------------------------------

  const OrderHead := "🌟 Merhaba phFormula Türkiye!\n\n📱 HIZLI SİPARİŞ\n📦 Ürün: "
  const CategoryLabel := "\n📂 Kategori: "
  const AdvantagesHead := "\n\n💎 Size özel avantajlar:\n"
  const Advantages := "✅ Özel indirim fiyatı\n✅ Ücretsiz hızlı kargo\n✅ %100 orijinallik garantisi\n✅ WhatsApp ile kolay iletişim"
  const OrderClosing := "\n\n🎯 Hemen bilgi almak ve sipariş vermek istiyorum!\n\n📞 Size en uygun ödeme ve teslimat seçeneklerini öğrenmek için bekliyorum.\n\n⚡ Teşekkürler!"

  function CategoryPart(productCategory: string): string {
    CategoryLabel + productCategory + AdvantagesHead + Advantages + OrderClosing
  }

  /** `createMobileOptimizedMessage` before encoding: it names the product
      and, after it, the category. */
  function OrderMessage(productName: string, productCategory: string): (r: string)
    ensures OccursAt(r, productName, |OrderHead|)
    ensures OccursAt(r, productCategory, |OrderHead| + |productName| + |CategoryLabel|)
    ensures Contains(r, productName) && Contains(r, productCategory)
  {
    var r := OrderHead + productName + CategoryPart(productCategory);
    var k := |OrderHead| + |productName| + |CategoryLabel|;
    assert r[|OrderHead|..|OrderHead| + |productName|] == productName;
    assert r[k..k + |productCategory|] == productCategory;
    assert OccursAt(r, productName, |OrderHead|);
    assert OccursAt(r, productCategory, k);
    r
  }

  /** The three quick-action buttons. */
  datatype QuickAction = Price | Campaign | Info

  function QuickHead(action: QuickAction): string {
    match action
    case Price => "Merhaba! "
    case Campaign => "Merhaba! Güncel kampanyalarınızı öğrenmek istiyorum. "
    case Info => "Merhaba! "
  }

  function QuickTail(action: QuickAction): string {
    match action
    case Price => " için özel fiyat bilgisi almak istiyorum. Size özel indirimli fiyat var mı? 💰"
    case Campaign => " için özel teklifleriniz var mı? 🎁"
    case Info => " hakkında detaylı bilgi alabilir miyim? Kullanım şekli, faydaları ve özelliklerini öğrenmek istiyorum. ℹ️"
  }

  /** The message of a quick action: every one of them names the product,
      right after its opening. */
  function QuickActionMessage(action: QuickAction, productName: string): (r: string)
    ensures OccursAt(r, productName, |QuickHead(action)|)
    ensures Contains(r, productName)
  {
    var r := QuickHead(action) + productName + QuickTail(action);
    ContainsInfix(QuickHead(action), productName, QuickTail(action));
    assert r[|QuickHead(action)|..|QuickHead(action)| + |productName|] == productName;
    r
  }

  /** The sticky button's fixed message. */
  const StickyMessage := "Merhaba phFormula! Ürünleriniz hakkında bilgi almak istiyorum. 🌟"

  const UrlPrefix := "https://wa.me/" + WhatsAppNumber + "?text="

  /** `https://wa.me/<number>?text=<message>`, with the message not encoded. */
  function WhatsAppUrl(message: string): (r: string)
    ensures UrlPrefix <= r && r[|UrlPrefix|..] == message
  {
    UrlPrefix + message
  }

  /** Whatever the message holds, the URL holds, shifted by the prefix. */
  lemma UrlKeepsMessage(message: string, sub: string, k: nat)
    requires OccursAt(message, sub, k)
    ensures OccursAt(WhatsAppUrl(message), sub, |UrlPrefix| + k)
    ensures Contains(WhatsAppUrl(message), sub)
  {
    var r := WhatsAppUrl(message);
    assert r[|UrlPrefix| + k..|UrlPrefix| + k + |sub|] == message[k..k + |sub|];
    assert OccursAt(r, sub, |UrlPrefix| + k);
  }

  // ---------------------------------------------------------------------------
  // The order card
  // ---------------------------------------------------------------------------

  class MobileWhatsAppOrder {
    const productName: string
    const productCategory: string
    const inStock: bool
    var isClicked: bool
    var currentOffer: nat
    var showTrustDetails: bool

    predicate Valid()
      reads this
    {
      currentOffer < |MobileOffers|
    }

    constructor(name: string, category: string, stocked: bool)
      ensures productName == name && productCategory == category && inStock == stocked
      ensures !isClicked && currentOffer == 0 && !showTrustDetails
      ensures Valid()
    {
      productName, productCategory, inStock := name, category, stocked;
      isClicked, currentOffer, showTrustDetails := false, 0, false;
    }

    /** One firing of the offer interval. */
    method RotateOffer()
      requires Valid()
      modifies this
      ensures currentOffer == NextOffer(old(currentOffer))
      ensures isClicked == old(isClicked) && showTrustDetails == old(showTrustDetails)
      ensures Valid()
    {
      currentOffer := NextOffer(currentOffer);
    }

    /** The offer text on display. */
    function CurrentOfferText(): (r: string)
      reads this
      requires Valid()
      ensures r in MobileOffers
    {
      MobileOffers[currentOffer]
    }

    /** `handleMobileWhatsAppClick`: marks the button clicked and yields the
        URL the page opens. */
    method HandleClick() returns (url: string)
      modifies this
      ensures isClicked
      ensures url == WhatsAppUrl(OrderMessage(productName, productCategory))
      ensures Contains(url, productName) && Contains(url, productCategory)
      ensures currentOffer == old(currentOffer) && showTrustDetails == old(showTrustDetails)
    {
      isClicked := true;
      var message := OrderMessage(productName, productCategory);
      UrlKeepsMessage(message, productName, |OrderHead|);
      UrlKeepsMessage(message, productCategory, |OrderHead| + |productName| + |CategoryLabel|);
      url := WhatsAppUrl(message);
    }

    /** The timeout three seconds after a click. */
    method ClickTimeout()
      modifies this
      ensures !isClicked
      ensures currentOffer == old(currentOffer) && showTrustDetails == old(showTrustDetails)
    {
      isClicked := false;
    }

    /** `handleQuickAction`: yields the URL and leaves the state alone. */
    method HandleQuickAction(action: QuickAction) returns (url: string)
      ensures url == WhatsAppUrl(QuickActionMessage(action, productName))
      ensures Contains(url, productName)
    {
      var message := QuickActionMessage(action, productName);
      UrlKeepsMessage(message, productName, |QuickHead(action)|);
      url := WhatsAppUrl(message);
    }

    /** The trust panel's toggle. */
    method ToggleTrustDetails()
      modifies this
      ensures showTrustDetails == !old(showTrustDetails)
      ensures isClicked == old(isClicked) && currentOffer == old(currentOffer)
    {
      showTrustDetails := !showTrustDetails;
    }
  }

  // ---------------------------------------------------------------------------
  // The sticky button
  // ---------------------------------------------------------------------------

  const HideBelow := 100

  /** Whether a scroll event to `scrollY` hides the button: only scrolling
      down, and only past the first 100 pixels. */
  predicate HidesOn(lastScrollY: int, scrollY: int) {
    scrollY > lastScrollY && scrollY > HideBelow
  }

  /** The part of the sticky button's state that scrolling changes. */
  datatype ScrollState = ScrollState(isVisible: bool, lastScrollY: int)

  /** One scroll event. */
  function ScrollStep(s: ScrollState, scrollY: int): ScrollState {
    ScrollState(!HidesOn(s.lastScrollY, scrollY), scrollY)
  }

  /** A series of scroll events, in order. */
  function ScrollAll(s: ScrollState, ys: seq<int>): ScrollState
    decreases |ys|
  {
    if ys == [] then s else ScrollStep(ScrollAll(s, ys[..|ys| - 1]), ys[|ys| - 1])
  }

  /** After any series of events the remembered position is the last one,
      and the button is hidden exactly when that last event scrolled down,
      past 100 pixels, from the position before it. */
  lemma ScrollAllLast(s: ScrollState, ys: seq<int>)
    requires ys != []
    ensures ScrollAll(s, ys).lastScrollY == ys[|ys| - 1]
    ensures |ys| == 1 ==> (ScrollAll(s, ys).isVisible <==> !HidesOn(s.lastScrollY, ys[0]))
    ensures |ys| >= 2 ==> (ScrollAll(s, ys).isVisible <==> !HidesOn(ys[|ys| - 2], ys[|ys| - 1]))
  {
    var init := ys[..|ys| - 1];
    if |ys| == 1 {
      assert init == [];
    } else {
      assert init[|init| - 1] == ys[|ys| - 2];
    }
  }

  class MobileStickyWhatsApp {
    var isVisible: bool
    var lastScrollY: int
    var showTooltip: bool

    constructor()
      ensures isVisible && lastScrollY == 0 && !showTooltip
    {
      isVisible, lastScrollY, showTooltip := true, 0, false;
    }

    /** `controlNavbar` on one scroll event: hidden exactly when scrolling
        down past 100 pixels, and the position is remembered. */
    method ControlNavbar(scrollY: int)
      modifies this
      ensures isVisible <==> !HidesOn(old(lastScrollY), scrollY)
      ensures !isVisible ==> scrollY > HideBelow && scrollY > old(lastScrollY)
      ensures lastScrollY == scrollY
      ensures showTooltip == old(showTooltip)
    {
      if scrollY > lastScrollY && scrollY > HideBelow {
        isVisible := false;
      } else {
        isVisible := true;
      }
      lastScrollY := scrollY;
    }

    /** Feeds a series of scroll events, one `controlNavbar` call each. */
    method ScrollThrough(ys: seq<int>)
      modifies this
      ensures ScrollState(isVisible, lastScrollY) == ScrollAll(ScrollState(old(isVisible), old(lastScrollY)), ys)
      ensures showTooltip == old(showTooltip)
    {
      ghost var start := ScrollState(isVisible, lastScrollY);
      for i := 0 to |ys|
        invariant ScrollState(isVisible, lastScrollY) == ScrollAll(start, ys[..i])
        invariant showTooltip == old(showTooltip)
      {
        assert ys[..i + 1][..i] == ys[..i];
        ControlNavbar(ys[i]);
      }
      assert ys[..|ys|] == ys;
    }

    /** The tooltip timers: shown after three seconds, hidden three later. */
    method SetTooltip(shown: bool)
      modifies this
      ensures showTooltip == shown && isVisible == old(isVisible) && lastScrollY == old(lastScrollY)
    {
      showTooltip := shown;
    }

    /** The sticky button's click: the URL with the fixed message. */
    method HandleClick() returns (url: string)
      ensures url == WhatsAppUrl(StickyMessage)
    {
      url := WhatsAppUrl(StickyMessage);
    }
  }
}
