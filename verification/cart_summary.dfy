/** The cart summary card: the cart total as a fold over the line items, the
    item count, the "item"/"items" label, the displayed amounts and the
    checkout button's gating. */
module CartSummary {
  import opened JsValues

  /** One line of a cart. A `quantity` of `None` is a missing field. */
  datatype LineItem = LineItem(
    productId: string,
    productName: string,
    productPrice: int,
    quantity: Option<int>,
    productImageUrl: string,
    productCategory: string)

  /** A cart as the backend sends it; `items` may be missing. */
  datatype CartData = CartData(items: Option<seq<LineItem>>)

  const EmptyCart := CartData(Some([]))

  /** `cart?.items` */
  function ItemsOf(cart: Option<CartData>): Option<seq<LineItem>> {
    match cart
    case None => None
    case Some(c) => c.items
  }

  /** `item.quantity || 1`: a missing or zero quantity counts as one, never as zero. */
  function EffectiveQuantity(item: LineItem): (q: int)
    ensures q != 0
    ensures item.quantity.Some? && item.quantity.value != 0 ==> q == item.quantity.value
    ensures q != item.quantity.GetOr(0) ==> q == 1
  {
    match item.quantity
    case Some(n) => if n != 0 then n else 1
    case None => 1
  }

  /** What one line adds to the total. */
  function LineTotal(item: LineItem): int {
    item.productPrice * EffectiveQuantity(item)
  }

  /** The reducer of `items.reduce((sum, item) => sum + ..., acc)`: a left fold. */
  function Reduce(items: seq<LineItem>, acc: int): int
    decreases |items|
  {
    if |items| == 0 then acc else Reduce(items[1..], acc + LineTotal(items[0]))
  }

  /** The reference sum of the line totals. */
  function Sum(items: seq<LineItem>): int
    decreases |items|
  {
    if |items| == 0 then 0 else LineTotal(items[0]) + Sum(items[1..])
  }

  /** The left fold started at `acc` is `acc` plus the sum of the lines. */
  lemma {:induction false} FoldIsSum(items: seq<LineItem>, acc: int)
    ensures Reduce(items, acc) == acc + Sum(items)
    decreases |items|
  {
    if |items| > 0 {
      FoldIsSum(items[1..], acc + LineTotal(items[0]));
    }
  }

  /** The sum distributes over concatenation of item lists. */
  lemma {:induction false} SumConcat(a: seq<LineItem>, b: seq<LineItem>)
    ensures Sum(a + b) == Sum(a) + Sum(b)
    decreases |a|
  {
    if |a| > 0 {
      assert (a + b)[1..] == a[1..] + b;
      SumConcat(a[1..], b);
    } else {
      assert a + b == b;
    }
  }

  /** `cart?.items?.reduce(...)`: undefined when the cart or its items are
      missing, otherwise the sum of price times effective quantity. */
  function Total(cart: Option<CartData>): (r: Option<int>)
    ensures r.Some? <==> ItemsOf(cart).Some?
    ensures r.Some? ==> r.value == Sum(ItemsOf(cart).value)
    ensures ItemsOf(cart) == Some([]) ==> r == Some(0)
  {
    match ItemsOf(cart)
    case None => None
    case Some(items) =>
      FoldIsSum(items, 0);
      Some(Reduce(items, 0))
  }

  /** Appending a line adds exactly its price times its effective quantity. */
  lemma TotalAppend(items: seq<LineItem>, x: LineItem)
    ensures Total(Some(CartData(Some(items + [x])))) ==
            Some(Total(Some(CartData(Some(items)))).value + x.productPrice * EffectiveQuantity(x))
  {
    SumConcat(items, [x]);
  }

  /** A line whose quantity is missing or zero contributes its price once. */
  lemma MissingQuantityCountsOnce(items: seq<LineItem>, x: LineItem)
    requires x.quantity.None? || x.quantity == Some(0)
    ensures Total(Some(CartData(Some(items + [x])))).value ==
            Total(Some(CartData(Some(items)))).value + x.productPrice
  {
    TotalAppend(items, x);
  }

  /** With non-negative prices and quantities the total is never negative. */
  lemma {:induction false} TotalNonNegative(items: seq<LineItem>)
    requires forall i :: 0 <= i < |items| ==> items[i].productPrice >= 0 && items[i].quantity.GetOr(0) >= 0
    ensures Total(Some(CartData(Some(items)))).value >= 0
    decreases |items|
  {
    if |items| > 0 {
      TotalNonNegative(items[1..]);
      assert Sum(items) == LineTotal(items[0]) + Sum(items[1..]);
    }
  }

  /** `!cart || !cart.items || cart.items.length === 0` */
  predicate CheckoutDisabled(cart: Option<CartData>) {
    cart.None? || cart.value.items.None? || |cart.value.items.value| == 0
  }

  /** `cart?.items?.length || 0`: the number of lines, zero when anything is
      missing; it is zero exactly when checkout is disabled. */
  function ItemCount(cart: Option<CartData>): (r: nat)
    ensures ItemsOf(cart).Some? ==> r == |ItemsOf(cart).value|
    ensures ItemsOf(cart).None? ==> r == 0
    ensures r == 0 <==> CheckoutDisabled(cart)
  {
    match ItemsOf(cart)
    case Some(items) => |items|
    case None => 0
  }

  /** The noun after the count: singular exactly for one. */
  function ItemLabel(count: int): (r: string)
    ensures r == "item" <==> count == 1
    ensures r == "item" || r == "items"
  {
    if count == 1 then "item" else "items"
  }

  /** The amount shown as subtotal and as total, `total?.toLocaleString() || 0`
      without the locale formatting: the total, or 0 when it is undefined. */
  function DisplayedTotal(cart: Option<CartData>): (r: int)
    ensures ItemsOf(cart).None? ==> r == 0
    ensures ItemsOf(cart).Some? ==> r == Sum(ItemsOf(cart).value)
  {
    Total(cart).GetOr(0)
  }

  /** What clicking the checkout button hands to `onCheckout`: nothing when
      the button is disabled, otherwise the very amount the card displays. */
  function CheckoutValue(cart: Option<CartData>): (r: Option<int>)
    ensures r.Some? <==> !CheckoutDisabled(cart)
    ensures r.Some? ==> r.value == DisplayedTotal(cart) && r == Total(cart)
  {
    if CheckoutDisabled(cart) then None else Total(cart)
  }
}
