/** The cart page: loading the signed-in user's cart, removing a line (always
    followed by a re-fetch), the header line, the choice between the
    items-and-summary view and the empty-cart view, and the quantity shown on
    each line. */
module CartPage {
  import opened JsValues
  import opened Http
  import opened CartSummary

  /** The signed-in user; an `id` of "" is a missing `_id`. */
  datatype User = User(id: string)

  /** The page's state: the loading flag, the cart (null until fetched) and
      the user id remembered for later removals. */
  datatype PageState = PageState(loading: bool, cart: Option<CartData>, userId: string)

  const InitialState := PageState(true, None, "")

  /** A state change and the number of requests it issued. */
  datatype Step = Step(state: PageState, requests: nat)

  /** `user?._id` is truthy. */
  predicate HasUserId(user: Option<User>) {
    user.Some? && user.value.id != ""
  }

  /** The load effect, run to completion. Without a user id loading simply
      ends and nothing is fetched. Otherwise the id is remembered and the cart
      fetched once: a fetched cart is taken as it is, and a failed fetch
      leaves an empty cart. Loading is over either way. */
  function Load(s: PageState, user: Option<User>, reply: Reply<CartData>): (r: Step)
    ensures !r.state.loading
    ensures !HasUserId(user) ==> r == Step(s.(loading := false), 0)
    ensures HasUserId(user) ==> r.requests == 1 && r.state.userId == user.value.id
    ensures HasUserId(user) && reply.Success? ==> r.state.cart == Some(reply.body)
    ensures HasUserId(user) && !reply.Success? ==> r.state.cart == Some(EmptyCart)
  {
    if !HasUserId(user) then Step(s.(loading := false), 0)
    else
      var s' := s.(userId := user.value.id);
      match reply
      case Success(c) => Step(s'.(cart := Some(c), loading := false), 1)
      case _ => Step(s'.(cart := Some(EmptyCart), loading := false), 1)
  }

  /** `handleRemove(productId)`. Without a remembered user id or without a
      product id nothing happens and nothing is sent. Otherwise the removal
      is posted and, once it succeeds, the cart is fetched again and the page
      takes the fetched cart wholesale. A failure of either request is not
      caught: the state stays as it was. Loading and the user id never
      change here. */
  function Remove(s: PageState, productId: string, removal: Reply<Ack>, refetch: Reply<CartData>): (r: Step)
    ensures s.userId == "" || productId == "" ==> r == Step(s, 0)
    ensures r.state.loading == s.loading && r.state.userId == s.userId
    ensures r.state.cart == s.cart || (refetch.Success? && r.state.cart == Some(refetch.body))
    ensures s.userId != "" && productId != "" && removal.Success? && refetch.Success? ==>
      r == Step(s.(cart := Some(refetch.body)), 2)
    ensures s.userId != "" && productId != "" && !removal.Success? ==> r == Step(s, 1)
    ensures s.userId != "" && productId != "" && removal.Success? ==> r.requests == 2
  {
    if s.userId == "" || productId == "" then Step(s, 0)
    else if !removal.Success? then Step(s, 1)
    else if !refetch.Success? then Step(s, 2)
    else Step(s.(cart := Some(refetch.body)), 2)
  }

  /** A completed removal does not edit the local cart: the resulting cart
      depends only on the re-fetch, whatever the page held before. */
  lemma RemoveReplacesWholesale(s1: PageState, s2: PageState, productId: string, removal: Reply<Ack>, refetch: Reply<CartData>)
    requires s1.userId == s2.userId != "" && productId != ""
    requires removal.Success? && refetch.Success?
    ensures Remove(s1, productId, removal, refetch).state.cart == Remove(s2, productId, removal, refetch).state.cart
    ensures Remove(s1, productId, removal, refetch).state.cart == Some(refetch.body)
  {
  }

  /** The line under the title: "N item(s) in your cart" for a non-empty cart,
      "Your shopping cart" otherwise. `None` stands for the TypeError thrown
      when a cart is present without `items`. */
  function HeaderText(cart: Option<CartData>): (r: Option<string>)
    ensures r.None? <==> cart.Some? && cart.value.items.None?
    ensures ItemCount(cart) == 0 && r.Some? ==> r == Some("Your shopping cart")
    ensures ItemCount(cart) > 0 ==>
      r == Some(IntToString(ItemCount(cart)) + " " + ItemLabel(ItemCount(cart)) + " in your cart")
  {
    match cart
    case None => Some("Your shopping cart")
    case Some(c) =>
      match c.items
      case None => None
      case Some(items) =>
        if |items| > 0 then Some(IntToString(|items|) + " " + ItemLabel(|items|) + " in your cart")
        else Some("Your shopping cart")
  }

  /** The header uses the singular exactly when the cart holds one line. */
  lemma HeaderSingularIffOne(items: seq<LineItem>)
    requires |items| > 0
    ensures HeaderText(Some(CartData(Some(items)))) == Some(IntToString(|items|) + " item in your cart")
            <==> |items| == 1
  {
    var n := |items|;
    var shown := HeaderText(Some(CartData(Some(items)))).value;
    assert shown == IntToString(n) + " " + ItemLabel(n) + " in your cart";
    if n == 1 {
      assert IntToString(n) + " " + "item" + " in your cart" == IntToString(n) + " item in your cart";
    } else {
      assert |shown| == |IntToString(n)| + 19;
      assert |IntToString(n) + " item in your cart"| == |IntToString(n)| + 18;
    }
  }

  /** The body of the page under the header. */
  datatype Body = ItemsAndSummary(items: seq<LineItem>) | EmptyCartView

  /** `cart && cart.items.length > 0 ? … : …`; `None` is the TypeError of a
      cart without `items`. The items and the summary are shown exactly when
      the cart has at least one line, which is also exactly when the
      summary's checkout button is enabled. */
  function BodyView(cart: Option<CartData>): (r: Option<Body>)
    ensures r.None? <==> cart.Some? && cart.value.items.None?
    ensures r.Some? && r.value.ItemsAndSummary? <==> ItemCount(cart) > 0
    ensures r.Some? && r.value.ItemsAndSummary? ==> r.value.items == ItemsOf(cart).value
    ensures r.Some? && r.value.ItemsAndSummary? <==> !CheckoutDisabled(cart)
  {
    match cart
    case None => Some(EmptyCartView)
    case Some(c) =>
      match c.items
      case None => None
      case Some(items) => if |items| > 0 then Some(ItemsAndSummary(items)) else Some(EmptyCartView)
  }

  datatype View = Spinner | LoginPrompt | CartView(header: string, body: Body) | RenderError

  /** Loading first, then the login prompt when nobody is signed in, then the cart. */
  function Render(s: PageState, user: Option<User>): (r: View)
    ensures s.loading <==> r == Spinner
    ensures !s.loading && user.None? <==> r == LoginPrompt
    ensures r.CartView? ==> Some(r.header) == HeaderText(s.cart) && Some(r.body) == BodyView(s.cart)
    ensures !s.loading && user.Some? && !(s.cart.Some? && s.cart.value.items.None?) ==>
      r == CartView(HeaderText(s.cart).value, BodyView(s.cart).value)
    ensures r == RenderError <==> !s.loading && user.Some? && s.cart.Some? && s.cart.value.items.None?
  {
    if s.loading then Spinner
    else if user.None? then LoginPrompt
    else match (HeaderText(s.cart), BodyView(s.cart))
      case (Some(h), Some(b)) => CartView(h, b)
      case _ => RenderError
  }

  /** A signed-in user whose cart cannot be fetched sees an empty cart, not a
      spinner and not an error. */
  lemma FailedLoadShowsEmptyCart(s: PageState, user: Option<User>, reply: Reply<CartData>)
    requires HasUserId(user) && !reply.Success?
    ensures Render(Load(s, user, reply).state, user) == CartView("Your shopping cart", EmptyCartView)
  {
  }

  /** `item.quantity || 1` as shown on the line: never zero, and exactly the
      multiplier the summary's total applies to the line's price. */
  function DisplayedQuantity(item: LineItem): (r: int)
    ensures r != 0
    ensures item.quantity.None? || item.quantity == Some(0) ==> r == 1
    ensures item.quantity.Some? && item.quantity.value != 0 ==> r == item.quantity.value
    ensures r == EffectiveQuantity(item)
    ensures item.productPrice * r == LineTotal(item)
  {
    if item.quantity.Some? && item.quantity.value != 0 then item.quantity.value else 1
  }
}
