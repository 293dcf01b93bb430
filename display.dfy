/**
 * What a card or table cell shows. Number formatting is external: a cell either
 * holds a literal placeholder or names the number and the formatter applied to it.
 */
module Display {

  /**
   * The formatter applied to a number: `formatAmount(x, unit)`, `formatCryptoBalance(x)`,
   * `formatPercent(x)`, or JavaScript's `x.toFixed(2)`.
   */
  datatype Format = AmountIn(unit: string) | CryptoBalance | Percent | FixedTwo

  datatype Shown =
    | Placeholder(text: string)
    | Formatted(value: real, format: Format)
    | Prefixed(prefix: string, inner: Shown)
    | Suffixed(inner: Shown, suffix: string)

  /** `$${formatAmount(x, 'USD')}`, the usual dollar figure. */
  function Dollars(x: real): (s: Shown)
  {
    Prefixed("$", Formatted(x, AmountIn("USD")))
  }
}
