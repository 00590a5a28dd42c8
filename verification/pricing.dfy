/** Percentage pricing for auctions: `Math.round(price * percentage)` in exact
    integer arithmetic, the three start-price strategies (60, 70 and 80 per
    cent of the predicted market value) and the expected final price (120 per
    cent). A percentage is held in whole per cent, so `0.7` is `70`. */
module Pricing {

  const AggressivePct := 60
  const BalancedPct := 70
  const ConservativePct := 80
  const ExpectedFinalPct := 120

  /** The percentage `useSAPPrice` falls back to, and the one a successful
      prediction writes into the form. */
  const DefaultPct := BalancedPct

  datatype Strategy = Aggressive | Balanced | Conservative {
    function Pct(): int {
      match this
      case Aggressive => AggressivePct
      case Balanced => BalancedPct
      case Conservative => ConservativePct
    }
  }

  /** `Math.round(price * pct / 100)` on the exact rational: the integer
      nearest to price × pct / 100, with halves rounded up (towards +∞, as
      `Math.round` does for negative values too). */
  function ScaledPrice(price: int, pct: int): (r: int)
    ensures 100 * r - 50 <= price * pct < 100 * r + 50
  {
    (2 * price * pct + 100) / 200
  }

  /** The bounds in `ScaledPrice`'s contract pin the result down: no other
      integer lies within half a unit (half-open) of the exact product. */
  lemma ScaledPriceIsUnique(price: int, pct: int, r': int)
    requires 100 * r' - 50 <= price * pct < 100 * r' + 50
    ensures r' == ScaledPrice(price, pct)
  {
  }

  /** For a non-negative price, a larger percentage never gives a smaller result. */
  lemma ScaledPriceMonotoneInPct(price: int, a: int, b: int)
    requires price >= 0 && a <= b
    ensures ScaledPrice(price, a) <= ScaledPrice(price, b)
  {
  }

  /** A larger price never gives a smaller result for a non-negative percentage. */
  lemma ScaledPriceMonotoneInPrice(p: int, q: int, pct: int)
    requires p <= q && pct >= 0
    ensures ScaledPrice(p, pct) <= ScaledPrice(q, pct)
  {
  }

  /** The price a strategy button shows and applies. */
  function StrategyPrice(price: int, s: Strategy): int {
    ScaledPrice(price, s.Pct())
  }

  /** "Expected Final Price": 120 per cent of the market value. */
  function ExpectedFinal(price: int): int {
    ScaledPrice(price, ExpectedFinalPct)
  }

  /** For a non-negative market value the four figures are ordered:
      Aggressive ≤ Balanced ≤ Conservative ≤ Expected final. */
  lemma TiersOrdered(price: int)
    requires price >= 0
    ensures StrategyPrice(price, Aggressive) <= StrategyPrice(price, Balanced)
    ensures StrategyPrice(price, Balanced) <= StrategyPrice(price, Conservative)
    ensures StrategyPrice(price, Conservative) <= ExpectedFinal(price)
  {
  }

  /** A non-negative market value gives non-negative start prices, none above
      the expected final price. */
  lemma TiersWithinRange(price: int, s: Strategy)
    requires price >= 0
    ensures 0 <= StrategyPrice(price, s) <= ExpectedFinal(price)
  {
  }
}
