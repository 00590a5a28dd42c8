# Marketplace frontend logic, modelled in Dafny

The marketplace frontend is mostly React markup and HTTP calls. Underneath
there is a small amount of sequential logic, and this project models it:

- **Cart summary** (`CartSummary`): the cart total is a left fold over the
  line items, adding price × (quantity, or 1 when the quantity is falsy).
  The module also covers the item count, the "item"/"items" label, the
  displayed subtotal and total, and when the checkout button is enabled.
- **Cart page** (`CartPage`): loading the user's cart, where a failed fetch
  gives an empty cart; the guarded removal, which re-fetches and takes the
  fetched cart as a whole; the header line; the choice between the items
  view and the empty-cart view; the quantity shown on each line.
- **Auction form** (`AuctionForm`, with the arithmetic in `Pricing`): the
  form record and one pure transition per handler. Each asynchronous
  handler is split into a `Begin…` step (guard, busy flag, whether a
  request goes out) and a `Finish…` step (the request settles with a given
  reply). Percentage prices are `Math.round(price × pct/100)` in exact
  integer arithmetic.
- **Analytics dashboard** (`AnalyticsDashboard`): `extractText`; the
  analytics request's effect on the panel; the six-tab selector and the
  one panel it shows; the recommended-price and impact-colour fallbacks.
- **Subscription success page** (`SubscriptionSuccess`): the latch that
  allows at most one verification request per page load, how the outcome
  maps onto the page state, and the order in which views take precedence.

Shared pieces: `JsValues` holds JSON-shaped JavaScript values, truthiness,
`||`, property lookup, `String(v)`, integer-to-string conversion (with a
parse-back round trip) and `trim`. `Http` holds the abstract reply of a
request: a 2xx `Success` with a body, a non-2xx `Failure` with the body
when one was sent, or `Thrown` when there is no usable answer (a network error, or a body
that cannot be read).

Interfaces at the edge of the model:
- Every network call is a `Reply` parameter: cart fetch and removal,
  description and price generation, the Cloudinary signature and upload,
  auction creation, analytics, and payment verification.
- The signed-in user and the `order_id` query parameter are also
  parameters.
- React effect firings and handler calls are modelled as discrete events,
  applied one after another.

Behaviour of the code worth noting:
- A failed cart load does not keep the previous cart. It installs an
  empty cart (`CartPage.jsx:30-33`).
- A price prediction whose answer reports success but carries no data
  still records the missing prediction. It also opens the insights panel
  before it fails (`AuctionForm.jsx:158-160`).
- A quantity is not required to be positive. Any truthy quantity is used
  as it is, negative ones included.
- Price prediction rejects only an empty name, not a blank one
  (`AuctionForm.jsx:139`). The button is still disabled for a blank name
  (`AuctionForm.jsx:476`).

## Model

| member | source | states |
|---|---|---|
| `JsValues.TrimEmptyIffBlank` | frontend/src/pages/AuctionForm.jsx:48 | `!s.trim()` holds exactly when every character of `s` is JavaScript whitespace, the empty string included |
| `CartSummary.EffectiveQuantity` | frontend/src/components/elements/CartSummary.jsx:7 | the multiplier is never zero; a truthy quantity is used as it is, and anything else counts as 1 |
| `CartSummary.FoldIsSum` | frontend/src/components/elements/CartSummary.jsx:6-9 | the `reduce` left fold started at `acc` equals `acc` plus the independently defined sum of line totals |
| `CartSummary.SumConcat` | frontend/src/components/elements/CartSummary.jsx:6-9 | the sum of line totals is additive over concatenation of item lists |
| `CartSummary.Total` | frontend/src/components/elements/CartSummary.jsx:6-9 | the total is undefined exactly when the cart or its items are missing; otherwise it is the sum of price × effective quantity, and 0 for an empty list |
| `CartSummary.TotalAppend` | frontend/src/components/elements/CartSummary.jsx:6-9 | appending a line adds exactly its price × effective quantity to the total |
| `CartSummary.MissingQuantityCountsOnce` | frontend/src/components/elements/CartSummary.jsx:7 | a line with a missing or zero quantity adds its price exactly once, never zero |
| `CartSummary.TotalNonNegative` | frontend/src/components/elements/CartSummary.jsx:6-9 | with non-negative prices and quantities the total is non-negative |
| `CartSummary.ItemCount` | frontend/src/components/elements/CartSummary.jsx:11 | the count is the number of lines, and 0 when the cart or items are missing; it is 0 exactly when checkout is disabled |
| `CartSummary.ItemLabel` | frontend/src/components/elements/CartSummary.jsx:21 | the label is "item" exactly when the count is 1, and "items" otherwise |
| `CartSummary.DisplayedTotal` | frontend/src/components/elements/CartSummary.jsx:29-40 | the subtotal and total shown are 0 when there is no cart or no items, and the sum of the lines otherwise |
| `CartSummary.CheckoutValue` | frontend/src/components/elements/CartSummary.jsx:46-54 | checkout can be triggered exactly when the cart has at least one line, and `onCheckout` then receives the same amount that is displayed |
| `CartPage.Load` | frontend/src/pages/CartPage.jsx:19-34 | without a user id, loading ends and nothing is fetched; with one, one fetch is made, the id is remembered, and the cart is the fetched one or an empty cart on failure; loading is false afterwards |
| `CartPage.Remove` | frontend/src/pages/CartPage.jsx:36-45 | a missing user id or product id means no change and no request; otherwise the cart is either unchanged (a request failed) or replaced by the re-fetched cart, and a successful removal has issued two requests whatever the re-fetch does; loading and the user id never change |
| `CartPage.RemoveReplacesWholesale` | frontend/src/pages/CartPage.jsx:38-44 | after a completed removal the cart is the re-fetched one, whatever the page held before |
| `CartPage.HeaderText` | frontend/src/pages/CartPage.jsx:104-107 | a non-empty cart shows "N item(s) in your cart", anything else shows "Your shopping cart", and a cart without `items` throws |
| `CartPage.HeaderSingularIffOne` | frontend/src/pages/CartPage.jsx:105 | for a non-empty cart the header is singular exactly when there is one line |
| `CartPage.BodyView` | frontend/src/pages/CartPage.jsx:111-188 | the items-and-summary view is shown exactly when the cart has a line, which is exactly when checkout is enabled; otherwise the empty-cart view is shown |
| `CartPage.Render` | frontend/src/pages/CartPage.jsx:55-111 | the spinner shows exactly while loading; then the login prompt shows exactly when there is no user; otherwise the cart's header and body are shown, and the render fails exactly when the cart has no `items` |
| `CartPage.FailedLoadShowsEmptyCart` | frontend/src/pages/CartPage.jsx:30-33 | a signed-in user whose fetch fails sees the empty-cart view under "Your shopping cart" |
| `CartPage.DisplayedQuantity` | frontend/src/pages/CartPage.jsx:138 | the quantity shown is never 0, is 1 when the quantity is missing or zero, a truthy quantity as it is, and equals the multiplier the summary's total uses |
| `Pricing.ScaledPrice` | frontend/src/pages/AuctionForm.jsx:182 | the result is the integer nearest to price × pct/100, with halves rounded up |
| `Pricing.ScaledPriceIsUnique` | frontend/src/pages/AuctionForm.jsx:182 | no other integer meets those rounding bounds |
| `Pricing.ScaledPriceMonotoneInPct` | frontend/src/pages/AuctionForm.jsx:181-185 | for a non-negative price, a larger percentage never gives a smaller result |
| `Pricing.ScaledPriceMonotoneInPrice` | frontend/src/pages/AuctionForm.jsx:182 | for a non-negative percentage, a larger price never gives a smaller result |
| `Pricing.TiersOrdered` | frontend/src/pages/AuctionForm.jsx:550-586 | for a non-negative market value: 60% ≤ 70% ≤ 80% ≤ 120% after rounding |
| `Pricing.TiersWithinRange` | frontend/src/pages/AuctionForm.jsx:559-588 | every strategy price lies between 0 and the expected final price |
| `AuctionForm.HandleChange` | frontend/src/pages/AuctionForm.jsx:38-45 | a text input replaces exactly its own field; the file input replaces only the image, with the first file or none; every other field is unchanged |
| `AuctionForm.BeginAIDescription` | frontend/src/pages/AuctionForm.jsx:47-55 | a request goes out exactly when the name has a non-whitespace character; a blank name only sets the "enter a product name" message |
| `AuctionForm.FinishAIDescription` | frontend/src/pages/AuctionForm.jsx:56-83 | success offers the description; an error answer with a fallback offers the fallback; every other outcome reports failure; the busy flag clears and the form never changes |
| `AuctionForm.UseAISuggestion` | frontend/src/pages/AuctionForm.jsx:86-90 | the suggestion becomes the description and is cleared; no other field changes |
| `AuctionForm.UseAISuggestionIsTyping` | frontend/src/pages/AuctionForm.jsx:86-90 | applying the suggestion changes the form exactly as typing it into the description field would |
| `AuctionForm.BeginSAPAIDescription` | frontend/src/pages/AuctionForm.jsx:93-100 | same blank-name guard as Quick AI: a request goes out exactly when the name is not blank |
| `AuctionForm.FinishSAPAIDescription` | frontend/src/pages/AuctionForm.jsx:102-126 | only a successful answer replaces the pending content; there is no fallback; the busy flag clears and the form never changes |
| `AuctionForm.UseSAPAISuggestion` | frontend/src/pages/AuctionForm.jsx:129-135 | without a non-empty pending description nothing changes; with one, the description is set as typing would set it and the pending content is dropped |
| `AuctionForm.BeginPricePrediction` | frontend/src/pages/AuctionForm.jsx:138-145 | a request goes out exactly when the name is non-empty (untrimmed); otherwise only the "fill in product name" message is set |
| `AuctionForm.UseSAPPrice` | frontend/src/pages/AuctionForm.jsx:181-185 | the base price field is the canonical numeral of round(price × pct/100), and reads back as that value, with pct defaulting to 70; no other field changes; the message names the percentage |
| `AuctionForm.FinishPricePrediction` | frontend/src/pages/AuctionForm.jsx:147-178 | only the base price can change among form fields; on success it becomes the canonical numeral of the 70% (Balanced) price and the prediction is shown; a success without data clears the prediction and opens the insights panel yet reports failure; all other outcomes report failure and keep the form; nothing else on the page changes |
| `AuctionForm.PredictionMatchesBalancedButton` | frontend/src/pages/AuctionForm.jsx:163-167 | a successful prediction fills in the same form as pressing "Balanced Start" for the predicted value |
| `AuctionForm.StrategyButtonAppliesShownPrice` | frontend/src/pages/AuctionForm.jsx:559-588 | each strategy button writes the very price it displays |
| `AuctionForm.PredictButtonImpliesRequest` | frontend/src/pages/AuctionForm.jsx:473-477 | whenever the price button is enabled, pressing it issues the request |
| `AuctionForm.GuardsDiffer` | frontend/src/pages/AuctionForm.jsx:139 | a name made only of spaces passes the prediction guard but is refused by both description guards |
| `AuctionForm.BeginSubmit` | frontend/src/pages/AuctionForm.jsx:187-190 | submitting sets the busy flag and clears the message; the form is unchanged |
| `AuctionForm.FinishSubmit` | frontend/src/pages/AuctionForm.jsx:191-243 | a created listing resets the form to the initial record; any failed step keeps the form and sets "Failed to create auction."; loading clears either way |
| `AuctionForm.SubmitClearsEveryField` | frontend/src/pages/AuctionForm.jsx:228-238 | after creation every text field is empty and no image is held |
| `AnalyticsDashboard.FirstTruthyKey` | frontend/src/components/elements/SAPAnalyticsDashboard.jsx:16-20 | the position returned is the first key with a truthy value; none is returned exactly when no key's value is truthy |
| `AnalyticsDashboard.FirstStringIndex` | frontend/src/components/elements/SAPAnalyticsDashboard.jsx:22-23 | the position returned is the first string-valued property; none is returned exactly when there is no string value |
| `AnalyticsDashboard.ExtractText` | frontend/src/components/elements/SAPAnalyticsDashboard.jsx:10-29 | a string comes back unchanged; a non-object gives `String(item)`; an object gives its first truthy priority value, else its first string value if non-empty, else the JSON fallback; an object's extracted value is always truthy |
| `AnalyticsDashboard.EmptyFirstStringFallsThrough` | frontend/src/components/elements/SAPAnalyticsDashboard.jsx:22-26 | an empty first string leads to the JSON fallback even when a later property holds text |
| `AnalyticsDashboard.SelectTab` | frontend/src/components/elements/SAPAnalyticsDashboard.jsx:533-543 | clicking a tab makes its id active from any state and changes nothing else |
| `AnalyticsDashboard.OnePanelPerTab` | frontend/src/components/elements/SAPAnalyticsDashboard.jsx:559-601 | for each tab, exactly one panel is rendered: its own |
| `AnalyticsDashboard.ReachableShowsOnePanel` | frontend/src/components/elements/SAPAnalyticsDashboard.jsx:559-601 | along any run of events the active tab stays one of the six ids, so a tabbed view shows exactly one panel, the active tab's own |
| `AnalyticsDashboard.InitialTabIsOverview` | frontend/src/components/elements/SAPAnalyticsDashboard.jsx:5-7 | the dashboard starts on overview, showing the generate prompt, not busy |
| `AnalyticsDashboard.BeginAnalytics` | frontend/src/components/elements/SAPAnalyticsDashboard.jsx:31-32 | starting a request sets the busy flag and changes nothing else |
| `AnalyticsDashboard.FinishAnalytics` | frontend/src/components/elements/SAPAnalyticsDashboard.jsx:33-43 | success stores the payload's `dashboard` (undefined for a primitive body, null for a null or missing body); any failure stores null; loading is false afterwards and the active tab is kept |
| `AnalyticsDashboard.FailureShowsPrompt` | frontend/src/components/elements/SAPAnalyticsDashboard.jsx:37-42 | after a failed request the generate prompt is back, not busy |
| `AnalyticsDashboard.Render` | frontend/src/components/elements/SAPAnalyticsDashboard.jsx:482-507 | the generate prompt shows exactly while the analytics are falsy, and its button is disabled exactly while loading; otherwise the tab bar shows the active tab with exactly the panels whose id matches it |
| `AnalyticsDashboard.RecommendedPrice` | frontend/src/components/elements/SAPAnalyticsDashboard.jsx:150 | shows recommended, else max, else "N/A"; the value shown is never falsy |
| `AnalyticsDashboard.ImpactColour` | frontend/src/components/elements/SAPAnalyticsDashboard.jsx:443-447 | High is red and Medium is yellow; anything else is green |
| `SubscriptionSuccess.Effect` | frontend/src/pages/SubscriptionSuccess.jsx:13-21 | a request goes out only when the latch was open and an order id is present, and the latch closes first; with the latch closed nothing changes; without an id the error is "No order ID found" and loading ends |
| `SubscriptionSuccess.FailureMessage` | frontend/src/pages/SubscriptionSuccess.jsx:38 | the server's message when it has one, otherwise the default failure text; never empty |
| `SubscriptionSuccess.Settle` | frontend/src/pages/SubscriptionSuccess.jsx:23-46 | the order is set only for a 2xx answer whose `success` holds; other readable answers set the message or the default text; a throw sets the fixed text; loading ends and the latch is untouched |
| `SubscriptionSuccess.AtMostOneRequest` | frontend/src/pages/SubscriptionSuccess.jsx:9-16 | across any run of effect firings and replies, at most one verification request is issued |
| `SubscriptionSuccess.OneRequestPerPageLoad` | frontend/src/pages/SubscriptionSuccess.jsx:9-16 | starting from a fresh page load, any run of effect firings and replies issues at most one verification request |
| `SubscriptionSuccess.LatchNeverReopens` | frontend/src/pages/SubscriptionSuccess.jsx:15 | once set, the latch stays set through any run of events |
| `SubscriptionSuccess.NoOrderIdNoRequest` | frontend/src/pages/SubscriptionSuccess.jsx:17-20 | without an order id no request is ever issued |
| `SubscriptionSuccess.DoubleFiringIssuesOne` | frontend/src/pages/SubscriptionSuccess.jsx:13-16 | firing the effect twice in a row issues exactly one request |
| `SubscriptionSuccess.Render` | frontend/src/pages/SubscriptionSuccess.jsx:48-83 | loading takes precedence over an error, and an error over the success view |
| `SubscriptionSuccess.SettledViewFollowsOutcome` | frontend/src/pages/SubscriptionSuccess.jsx:35-45 | after settling the spinner is gone, and the success view shows exactly when verification succeeded |

## Left out

- Pricing.ScaledPrice: it computes `Math.round` on the exact rational price × pct/100. Prices are whole integers. IEEE-754 double products such as `price * 0.7` are not modelled, because 0.7 has no exact binary representation.
- CartSummary.Total: prices and quantities are integers. A missing price (which gives NaN) and a string quantity are not modelled.
- AuctionForm.FinishPricePrediction: the predicted `suggestedPrice` is always an integer. A prediction without one, which writes "NaN" into the base price (`AuctionForm.jsx:163-166`), is not modelled.
- JsValues.IntToString: integers are exact. Precision loss above 2^53 and the exponent form `toString` uses from 1e21 on are not modelled.
- CartPage.Load and CartPage.Remove each settle their requests in one atomic step. A load's fetch and a removal's re-fetch landing out of order (`CartPage.jsx:25-33`, `CartPage.jsx:43-44`) cannot be expressed.
- Locale formatting (`toLocaleString`), dates, i18n lookups, styling and markup are display-only and depend on the host. They are not modelled.
- The Cloudinary signature and upload, the auction payload, and its `Number`/`Date` coercions are not modelled. Each request counts only as a success or failure reply (`AuctionForm.FinishSubmit`).
- The seller-id lookup by e-mail in the auction form is left out (`AuctionForm.jsx:30-36`). It only feeds the payload.
- The cleaned `JSON.stringify` fallback of `extractText` is kept symbolic as `JsonFallback(obj)`. Its string is not computed.
- Objects list their properties in the order `Object.values` enumerates them, and that order is taken as given. Property names are assumed distinct: a list with a repeated name has no JavaScript counterpart (`JSON.parse` keeps the last one, while `JsValues.Get` returns the first). Arrays are not a separate kind of value.
- A change event whose `name` is not one of the form's fields is not modelled. Every input in the form carries one of those names.
- The dismiss buttons are not modelled, because each one resets a single state variable. Navigation handlers (`handleVisit`, continue shopping) are also left out.
- The content of the six analytics panels is not modelled, nor the built-in default analytics text and the metric fallbacks (`|| 89` and the like). They are static display.
- React scheduling, re-render timing and closures are abstracted. Handlers and effect firings are events applied in sequence. In the auction form and the dashboard, an asynchronous handler is its `Begin…` step followed later by its `Finish…` step; the cart page's load and removal are single steps (see above).
