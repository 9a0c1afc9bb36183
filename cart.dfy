/** The cart page (`src/app/cart/page.tsx`): the item list, the coupon box
    and the applied coupon are page state that the handlers replace; the
    totals and the WhatsApp message are computed from that state. */
module Cart {
  import opened Text
  import opened Seqs
  import opened Wrappers
  import opened Money

  /** A cart line; the price is in whole lira. The optional image is not
      read by anything modelled here. */
  datatype CartItem = CartItem(id: string, name: string, category: string, price: nat, quantity: int, inStock: bool)

  /** The sample cart the page starts with. */
  const SampleCart: seq<CartItem> := [
    CartItem("hydra-serum", "HYDRA Serum 30ml", "Serumlar", 299, 1, true),
    CartItem("vita-c-serum", "VITA C Serum 30ml", "Serumlar", 349, 2, true),
    CartItem("age-recovery", "AGE Recovery 30ml", "Tedavi Ürünleri", 399, 1, true)
  ]

  // ---------------------------------------------------------------------------
  // The list updates
  // ---------------------------------------------------------------------------

  function OtherId(id: string): CartItem -> bool {
    (item: CartItem) => item.id != id
  }

  /** `items.filter(item => item.id !== id)`. */
  function WithoutId(items: seq<CartItem>, id: string): (r: seq<CartItem>)
    ensures forall x :: x in r <==> x in items && x.id != id
  {
    Filter(items, OtherId(id))
  }

  /** `items.map(item => item.id === id ? { ...item, quantity } : item)`. */
  function WithQuantity(items: seq<CartItem>, id: string, quantity: int): (r: seq<CartItem>)
    ensures |r| == |items|
    ensures forall i | 0 <= i < |items| ::
      r[i] == (if items[i].id == id then items[i].(quantity := quantity) else items[i])
  {
    if items == [] then []
    else
      var head := if items[0].id == id then items[0].(quantity := quantity) else items[0];
      [head] + WithQuantity(items[1..], id, quantity)
  }

  /** What `updateQuantity` leaves: a quantity of zero or less removes the
      item, any other quantity is set on it. */
  function Updated(items: seq<CartItem>, id: string, newQuantity: int): seq<CartItem> {
    if newQuantity <= 0 then WithoutId(items, id) else WithQuantity(items, id, newQuantity)
  }

  /** Removal keeps the other items in their order: removing from a
      concatenation is removing from each part. */
  lemma WithoutIdKeepsOrder(a: seq<CartItem>, b: seq<CartItem>, id: string)
    ensures WithoutId(a + b, id) == WithoutId(a, id) + WithoutId(b, id)
  {
    FilterAppend(a, b, OtherId(id));
  }

  /** Pressing minus on an item with quantity 1 takes it out of the cart. */
  lemma MinusOnOneRemoves(items: seq<CartItem>, k: nat)
    requires k < |items| && items[k].quantity == 1
    ensures forall x | x in Updated(items, items[k].id, items[k].quantity - 1) :: x.id != items[k].id
  {
  }

  /** Every quantity in the cart is at least one. */
  predicate PositiveQuantities(items: seq<CartItem>) {
    forall i | 0 <= i < |items| :: items[i].quantity > 0
  }

  /** No update puts a zero or negative quantity into the cart. */
  lemma UpdatedPositive(items: seq<CartItem>, id: string, newQuantity: int)
    requires PositiveQuantities(items)
    ensures PositiveQuantities(Updated(items, id, newQuantity))
  {
    if newQuantity <= 0 {
      var r := WithoutId(items, id);
      forall i | 0 <= i < |r|
        ensures r[i].quantity > 0
      {
        assert r[i] in items;
      }
    }
  }

  // ---------------------------------------------------------------------------
  // Totals
  // ---------------------------------------------------------------------------

  function LineTotal(item: CartItem): int {
    item.price * item.quantity * Lira
  }

  function LineTotals(items: seq<CartItem>): (r: seq<int>)
    ensures |r| == |items|
    ensures forall i | 0 <= i < |items| :: r[i] == LineTotal(items[i])
  {
    seq(|items|, i requires 0 <= i < |items| => LineTotal(items[i]))
  }

  /** `cartItems.reduce((sum, item) => sum + item.price * item.quantity, 0)`, in kuruş. */
  function ItemsSubtotal(items: seq<CartItem>): int {
    Sum(LineTotals(items))
  }

  /** The subtotal of a cart is whole lira, and not negative when every
      quantity is positive. */
  lemma SubtotalFacts(items: seq<CartItem>)
    ensures ItemsSubtotal(items) % Lira == 0
    ensures PositiveQuantities(items) ==> ItemsSubtotal(items) >= 0
  {
    var lines := LineTotals(items);
    forall i | 0 <= i < |lines|
      ensures lines[i] % Lira == 0
    {
      assert lines[i] == (items[i].price * items[i].quantity) * Lira;
    }
    SumWholeLira(lines);
    if PositiveQuantities(items) {
      SumNonNegative(lines);
    }
  }

  /** `appliedCoupon ? subtotal * 0.1 : 0`. */
  function Discount(subtotal: int, couponApplied: bool): int {
    if couponApplied then Percent(subtotal, 10) else 0
  }

  /** `subtotal - discount + shippingCost`. */
  function Total(subtotal: int, couponApplied: bool): int {
    subtotal - Discount(subtotal, couponApplied) + Shipping(subtotal)
  }

  /** The totals of a cart: the discount is exactly a tenth of the subtotal
      when a coupon is applied and nothing otherwise, shipping is free exactly
      from 250 lira on, and the total is never negative. */
  lemma TotalsFacts(items: seq<CartItem>, couponApplied: bool)
    requires PositiveQuantities(items)
    ensures var subtotal := ItemsSubtotal(items);
      && (couponApplied ==> Discount(subtotal, couponApplied) * 10 == subtotal)
      && (!couponApplied ==> Discount(subtotal, couponApplied) == 0)
      && (Shipping(subtotal) == 0 <==> subtotal >= FreeShippingThreshold)
      && Total(subtotal, couponApplied) == subtotal - Discount(subtotal, couponApplied) + Shipping(subtotal)
      && Total(subtotal, couponApplied) >= 0
  {
    SubtotalFacts(items);
    PercentExact(ItemsSubtotal(items), 10);
  }

  /** The free-shipping hint: shown only below 250 lira, with the amount
      still missing. */
  function FreeShippingHint(subtotal: int): (r: Option<int>)
    ensures r.Some? <==> subtotal < FreeShippingThreshold
    ensures r.Some? ==> r.value > 0 && subtotal + r.value == FreeShippingThreshold
  {
    if subtotal < FreeShippingThreshold then Some(FreeShippingThreshold - subtotal) else None
  }

  /** The hint is shown exactly when shipping is charged. */
  lemma HintIffShippingCharged(subtotal: int)
    ensures FreeShippingHint(subtotal).Some? <==> Shipping(subtotal) == ShippingFee
  {
  }

  // ---------------------------------------------------------------------------
  // The coupon and the WhatsApp message
  // ---------------------------------------------------------------------------

  const CouponLabel := "WELCOME10 - %10 İndirim"

  /** `couponCode.toLowerCase() === "welcome10"`. */
  predicate IsCoupon(code: string) {
    Lower(code) == "welcome10"
  }

  /** The coupon is recognised whatever its letter case. */
  lemma CouponIgnoresCase(code: string)
    ensures IsCoupon(Lower(code)) <==> IsCoupon(code)
    ensures IsCoupon("WELCOME10") && IsCoupon("Welcome10") && IsCoupon("welcome10")
    ensures !IsCoupon("welcome1") && !IsCoupon("")
  {
    LowerIdempotent(code);
  }

  /** One bullet line of the message. */
  function ItemLine(item: CartItem): string {
    "• " + item.name + " (" + IntToString(item.quantity) + " adet)"
  }

  /** `items.map(...)` of the item lines. */
  function ItemLines(items: seq<CartItem>): seq<string> {
    Map(items, ItemLine)
  }

  const MessageHead := "Merhaba phFormula! Sepetimde şu ürünler var ve sipariş vermek istiyorum:\n\n"
  const MessageTail := "₺\n\nSize özel indirimli fiyat alabilir miyim? 🛒✨"

  /** The message the WhatsApp button sends, before URL encoding. */
  function CartMessage(items: seq<CartItem>, total: nat): string {
    MessageHead + Join(ItemLines(items), "\n") + "\n\nToplam: " + FormatKurus(total) + MessageTail
  }

  lemma ItemLineOneLine(item: CartItem)
    requires '\n' !in item.name
    ensures '\n' !in ItemLine(item)
    ensures "• " + item.name <= ItemLine(item)
  {
    assert forall i | 0 <= i < |IntToString(item.quantity)| :: IntToString(item.quantity)[i] != '\n';
  }

  /** The items part of the message has one bullet line per item, in cart
      order, each starting with the item's name. */
  lemma MessageLines(items: seq<CartItem>)
    requires items != []
    requires forall i | 0 <= i < |items| :: '\n' !in items[i].name
    ensures var lines := Split(Join(ItemLines(items), "\n"), '\n');
      && lines == ItemLines(items)
      && forall i | 0 <= i < |items| :: "• " + items[i].name <= lines[i]
  {
    var lines := ItemLines(items);
    forall i | 0 <= i < |lines|
      ensures '\n' !in lines[i] && "• " + items[i].name <= lines[i]
    {
      ItemLineOneLine(items[i]);
    }
    SplitJoin(lines, '\n');
  }

  // ---------------------------------------------------------------------------
  // The page state
  // ---------------------------------------------------------------------------

  class CartPage {
    var cartItems: seq<CartItem>
    var couponCode: string
    var appliedCoupon: Option<string>

    /** The page starts with the sample cart, an empty coupon box and no coupon. */
    constructor()
      ensures cartItems == SampleCart && couponCode == "" && appliedCoupon == None
      ensures PositiveQuantities(cartItems)
    {
      cartItems := SampleCart;
      couponCode := "";
      appliedCoupon := None;
    }

    /** Typing in the coupon box. */
    method SetCouponCode(code: string)
      modifies this
      ensures couponCode == code
      ensures cartItems == old(cartItems) && appliedCoupon == old(appliedCoupon)
    {
      couponCode := code;
    }

    /** `updateQuantity`; the minus and plus buttons call it with the
        quantity one lower or one higher. */
    method UpdateQuantity(id: string, newQuantity: int)
      modifies this
      ensures cartItems == Updated(old(cartItems), id, newQuantity)
      ensures old(PositiveQuantities(cartItems)) ==> PositiveQuantities(cartItems)
      ensures couponCode == old(couponCode) && appliedCoupon == old(appliedCoupon)
    {
      if PositiveQuantities(cartItems) {
        UpdatedPositive(cartItems, id, newQuantity);
      }
      if newQuantity <= 0 {
        cartItems := WithoutId(cartItems, id);
      } else {
        cartItems := WithQuantity(cartItems, id, newQuantity);
      }
    }

    /** `removeItem`: the items with that id go, the others stay in order. */
    method RemoveItem(id: string)
      modifies this
      ensures cartItems == WithoutId(old(cartItems), id)
      ensures forall x :: x in cartItems <==> x in old(cartItems) && x.id != id
      ensures couponCode == old(couponCode) && appliedCoupon == old(appliedCoupon)
    {
      cartItems := WithoutId(cartItems, id);
    }

    /** `applyCoupon`: the coupon, in any letter case, is recorded and the box
        cleared; any other code changes nothing (the alert is not modelled). */
    method ApplyCoupon()
      modifies this
      ensures IsCoupon(old(couponCode)) ==> appliedCoupon == Some(CouponLabel) && couponCode == ""
      ensures !IsCoupon(old(couponCode)) ==> appliedCoupon == old(appliedCoupon) && couponCode == old(couponCode)
      ensures cartItems == old(cartItems)
    {
      if Lower(couponCode) == "welcome10" {
        appliedCoupon := Some(CouponLabel);
        couponCode := "";
      }
    }

    /** The button beside an applied coupon takes it off again. */
    method RemoveCoupon()
      modifies this
      ensures appliedCoupon == None
      ensures cartItems == old(cartItems) && couponCode == old(couponCode)
    {
      appliedCoupon := None;
    }

    function Subtotal(): int
      reads this
    {
      ItemsSubtotal(cartItems)
    }

    function DiscountAmount(): int
      reads this
    {
      Discount(Subtotal(), appliedCoupon.Some?)
    }

    function ShippingCost(): nat
      reads this
    {
      Shipping(Subtotal())
    }

    function TotalAmount(): int
      reads this
    {
      Total(Subtotal(), appliedCoupon.Some?)
    }

    /** The WhatsApp message for the current cart. */
    /** The message opens with the greeting and the item lines, one per
        entry in cart order, and closes with the total to pay, which is
        never negative, and the closing request. */
    function WhatsAppMessage(): (r: string)
      reads this
      requires PositiveQuantities(cartItems)
      ensures TotalAmount() >= 0
      ensures MessageHead + Join(ItemLines(cartItems), "\n") <= r
      ensures var tail := "\n\nToplam: " + FormatKurus(TotalAmount()) + MessageTail;
        |tail| <= |r| && r[|r| - |tail|..] == tail
    {
      TotalsFacts(cartItems, appliedCoupon.Some?);
      var head := MessageHead + Join(ItemLines(cartItems), "\n");
      var tail := "\n\nToplam: " + FormatKurus(TotalAmount()) + MessageTail;
      assert CartMessage(cartItems, TotalAmount()) == head + tail;
      assert (head + tail)[|head + tail| - |tail|..] == tail;
      CartMessage(cartItems, TotalAmount())
    }
  }
}
