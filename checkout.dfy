/** The checkout page (`src/app/checkout/page.tsx`): the order totals with
    18% tax, the shipping form whose fields are replaced one at a time, and
    the WhatsApp order message. The simulated payment is not modelled. */
module Checkout {
  import opened Text
  import opened Money
  import opened Seqs

  /** An order line; the price is in whole lira. */
  datatype OrderItem = OrderItem(id: string, name: string, category: string, price: nat, quantity: int)

  /** The sample order the page shows. */
  const SampleOrder: seq<OrderItem> := [
    OrderItem("hydra-serum", "HYDRA Serum 30ml", "Serumlar", 299, 1),
    OrderItem("vita-c-serum", "VITA C Serum 30ml", "Serumlar", 349, 2)
  ]

  predicate PositiveQuantities(items: seq<OrderItem>) {
    forall i | 0 <= i < |items| :: items[i].quantity > 0
  }

  // ---------------------------------------------------------------------------
  // Totals
  // ---------------------------------------------------------------------------

  function LineTotals(items: seq<OrderItem>): (r: seq<int>)
    ensures |r| == |items|
    ensures forall i | 0 <= i < |items| :: r[i] == items[i].price * items[i].quantity * Lira
  {
    seq(|items|, i requires 0 <= i < |items| => items[i].price * items[i].quantity * Lira)
  }

  /** `cartItems.reduce((sum, item) => sum + item.price * item.quantity, 0)`, in kuruş. */
  function OrderSubtotal(items: seq<OrderItem>): int {
    Sum(LineTotals(items))
  }

  /** `subtotal * 0.18`, the 18% KDV. */
  function Tax(subtotal: int): int {
    Percent(subtotal, 18)
  }

  /** `subtotal + shipping + tax`. */
  function OrderTotal(subtotal: int): int {
    subtotal + Shipping(subtotal) + Tax(subtotal)
  }

  /** The subtotal is the sum over the lines: the subtotal of a concatenation
      is the sum of the subtotals. */
  lemma SubtotalAppend(a: seq<OrderItem>, b: seq<OrderItem>)
    ensures OrderSubtotal(a + b) == OrderSubtotal(a) + OrderSubtotal(b)
  {
    assert LineTotals(a + b) == LineTotals(a) + LineTotals(b);
    SumAppend(LineTotals(a), LineTotals(b));
  }

  /** The tax is exactly 18% of the subtotal, shipping is free exactly from
      250 lira on, and the total is the three added and never negative. */
  lemma OrderTotals(items: seq<OrderItem>)
    requires PositiveQuantities(items)
    ensures var subtotal := OrderSubtotal(items);
      && Tax(subtotal) * 100 == subtotal * 18
      && (Shipping(subtotal) == 0 <==> subtotal >= FreeShippingThreshold)
      && OrderTotal(subtotal) == subtotal + Shipping(subtotal) + Tax(subtotal)
      && OrderTotal(subtotal) >= subtotal >= 0
  {
    var lines := LineTotals(items);
    forall i | 0 <= i < |lines|
      ensures lines[i] % Lira == 0 && lines[i] >= 0
    {
      assert lines[i] == (items[i].price * items[i].quantity) * Lira;
    }
    SumWholeLira(lines);
    SumNonNegative(lines);
    PercentExact(OrderSubtotal(items), 18);
  }

  // ---------------------------------------------------------------------------
  // The shipping form
  // ---------------------------------------------------------------------------

  /** The field names the form's inputs pass to `handleInputChange`. */
  datatype Field = FirstName | LastName | Email | Phone | Address | City | PostalCode | Country

  datatype ShippingInfo = ShippingInfo(
    firstName: string, lastName: string, email: string, phone: string,
    address: string, city: string, postalCode: string, country: string)

  /** Every field empty except the country, which starts as Türkiye. */
  const InitialShippingInfo := ShippingInfo("", "", "", "", "", "", "", "Türkiye")

  function FieldValue(info: ShippingInfo, f: Field): string {
    match f
    case FirstName => info.firstName
    case LastName => info.lastName
    case Email => info.email
    case Phone => info.phone
    case Address => info.address
    case City => info.city
    case PostalCode => info.postalCode
    case Country => info.country
  }

  /** `{ ...prev, [field]: value }`: the named field takes the value and every
      other field keeps its own. */
  function WithField(info: ShippingInfo, f: Field, value: string): (r: ShippingInfo)
    ensures FieldValue(r, f) == value
    ensures forall g | g != f :: FieldValue(r, g) == FieldValue(info, g)
  {
    match f
    case FirstName => info.(firstName := value)
    case LastName => info.(lastName := value)
    case Email => info.(email := value)
    case Phone => info.(phone := value)
    case Address => info.(address := value)
    case City => info.(city := value)
    case PostalCode => info.(postalCode := value)
    case Country => info.(country := value)
  }

  /** Writing a field back with the value it has changes nothing, and a
      later write to the same field wins. */
  lemma WithFieldLaws(info: ShippingInfo, f: Field, v: string, w: string)
    ensures WithField(info, f, FieldValue(info, f)) == info
    ensures WithField(WithField(info, f, v), f, w) == WithField(info, f, w)
  {
  }

  // ---------------------------------------------------------------------------
  // The WhatsApp order message
  // ---------------------------------------------------------------------------

  /** One line per item: name, quantity and unit price. */
  function ItemLine(item: OrderItem): string {
    "• " + item.name + " (" + IntToString(item.quantity) + " adet - " + NatToString(item.price) + "₺)"
  }

  /** `items.map(...)` of the item lines. */
  function ItemLines(items: seq<OrderItem>): seq<string> {
    Map(items, ItemLine)
  }

  const MessageHead := "Merhaba phFormula! Sipariş vermek istiyorum:\n\n🛒 SEPETİM:\n"
  const TotalLabel := "\n\n💰 TOPLAM: "
  const MessageTail := "₺\n\n🎁 Size özel indirim var mı? Lütfen en iyi fiyatı verin!\n\n🚚 Teslimat: Hızlı kargo istiyorum."

  /** The message before URL encoding: the item lines, then the total. */
  function OrderMessage(items: seq<OrderItem>, total: nat): string {
    MessageHead + Join(ItemLines(items), "\n") + TotalLabel + FormatKurus(total) + MessageTail
  }

  lemma ItemLineShape(item: OrderItem)
    requires '\n' !in item.name
    ensures '\n' !in ItemLine(item)
    ensures "• " + item.name + " (" + IntToString(item.quantity) + " adet - " + NatToString(item.price) <= ItemLine(item)
  {
    var q := IntToString(item.quantity);
    var p := NatToString(item.price);
    assert forall i | 0 <= i < |q| :: q[i] != '\n';
    assert forall i | 0 <= i < |p| :: p[i] != '\n';
  }

  /** The items part has one line per item, in order, showing the item's
      name, quantity and unit price. */
  lemma MessageLines(items: seq<OrderItem>)
    requires items != []
    requires forall i | 0 <= i < |items| :: '\n' !in items[i].name
    ensures var lines := Split(Join(ItemLines(items), "\n"), '\n');
      && lines == ItemLines(items)
      && forall i | 0 <= i < |items| ::
        "• " + items[i].name + " (" + IntToString(items[i].quantity) + " adet - " + NatToString(items[i].price) <= lines[i]
  {
    var lines := ItemLines(items);
    forall i | 0 <= i < |lines|
      ensures '\n' !in lines[i]
      ensures "• " + items[i].name + " (" + IntToString(items[i].quantity) + " adet - " + NatToString(items[i].price) <= lines[i]
    {
      ItemLineShape(items[i]);
    }
    SplitJoin(lines, '\n');
  }

  // ---------------------------------------------------------------------------
  // The page state
  // ---------------------------------------------------------------------------

  class CheckoutPage {
    const cartItems: seq<OrderItem>
    var shippingInfo: ShippingInfo
    var paymentMethod: string

    constructor()
      ensures cartItems == SampleOrder && PositiveQuantities(cartItems)
      ensures shippingInfo == InitialShippingInfo && FieldValue(shippingInfo, Country) == "Türkiye"
      ensures paymentMethod == "credit-card"
    {
      cartItems := SampleOrder;
      shippingInfo := InitialShippingInfo;
      paymentMethod := "credit-card";
    }

    /** `handleInputChange`: only the named field of the form changes. */
    method HandleInputChange(field: Field, value: string)
      modifies this
      ensures shippingInfo == WithField(old(shippingInfo), field, value)
      ensures paymentMethod == old(paymentMethod)
    {
      shippingInfo := WithField(shippingInfo, field, value);
    }

    /** The payment choice. */
    method SetPaymentMethod(choice: string)
      modifies this
      ensures paymentMethod == choice && shippingInfo == old(shippingInfo)
    {
      paymentMethod := choice;
    }

    function Subtotal(): int
      reads this
    {
      OrderSubtotal(cartItems)
    }

    function TotalAmount(): int
      reads this
    {
      OrderTotal(Subtotal())
    }

    /** The message the WhatsApp button sends. */
    /** The message opens with the greeting and the item lines, one per
        entry in cart order, and closes with the total to pay, which is
        never negative, and the closing request. */
    function WhatsAppMessage(): (r: string)
      reads this
      requires PositiveQuantities(cartItems)
      ensures TotalAmount() >= 0
      ensures MessageHead + Join(ItemLines(cartItems), "\n") <= r
      ensures var tail := TotalLabel + FormatKurus(TotalAmount()) + MessageTail;
        |tail| <= |r| && r[|r| - |tail|..] == tail
    {
      OrderTotals(cartItems);
      var head := MessageHead + Join(ItemLines(cartItems), "\n");
      var tail := TotalLabel + FormatKurus(TotalAmount()) + MessageTail;
      assert OrderMessage(cartItems, TotalAmount()) == head + tail;
      assert (head + tail)[|head + tail| - |tail|..] == tail;
      OrderMessage(cartItems, TotalAmount())
    }
  }
}
