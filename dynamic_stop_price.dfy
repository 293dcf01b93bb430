/**
 * The dynamic stop price card
 * (components/vault/detailsCards/VaultDetailsCardDynamicStopPrice.tsx): the stop price
 * scaled from the liquidation price by the stop-loss ratio, its "after" value, and
 * the `-` placeholders of an unprotected vault.
 */
module DynamicStopPrice {
  import opened Wrappers
  import opened Display

  /**
   * `liquidationPrice.div(liquidationRatio).times(slRatio)`: the price at which the
   * collateralization ratio would be `slRatio` instead of `liquidationRatio`.
   */
  function StopPrice(liquidationPrice: real, liquidationRatio: real, slRatio: real): (p: real)
    requires liquidationRatio != 0.0
    ensures p * liquidationRatio == liquidationPrice * slRatio
  {
    liquidationPrice / liquidationRatio * slRatio
  }

  /**
   * `afterDynamicStopPrice`: the after values of the liquidation price and the stop-loss
   * ratio, over the current liquidation ratio; zero when either after value is missing.
   */
  function AfterStopPrice(afterLiquidationPrice: Option<real>, afterSlRatio: Option<real>, liquidationRatio: real)
    : (p: real)
    requires liquidationRatio != 0.0
    ensures afterLiquidationPrice.None? || afterSlRatio.None? ==> p == 0.0
    ensures afterLiquidationPrice.Some? && afterSlRatio.Some? ==>
              p * liquidationRatio == afterLiquidationPrice.value * afterSlRatio.value
  {
    if afterLiquidationPrice.Some? && afterSlRatio.Some? then
      StopPrice(afterLiquidationPrice.value, liquidationRatio, afterSlRatio.value)
    else 0.0
  }

  /** The distance from the liquidation price shown under the stop price. */
  function StopPriceMargin(liquidationPrice: real, liquidationRatio: real, slRatio: real): (m: real)
    requires liquidationRatio != 0.0
    ensures m == liquidationPrice * (slRatio - liquidationRatio) / liquidationRatio
  {
    StopPriceMarginIdentity(liquidationPrice, liquidationRatio, slRatio);
    StopPrice(liquidationPrice, liquidationRatio, slRatio) - liquidationPrice
  }

  lemma StopPriceMarginIdentity(liquidationPrice: real, liquidationRatio: real, slRatio: real)
    requires liquidationRatio != 0.0
    ensures StopPrice(liquidationPrice, liquidationRatio, slRatio) - liquidationPrice
            == liquidationPrice * (slRatio - liquidationRatio) / liquidationRatio
  {
  }

  /** A stop-loss ratio equal to the liquidation ratio puts the stop price on the liquidation price. */
  lemma MarginZeroAtLiquidationRatio(liquidationPrice: real, liquidationRatio: real)
    requires liquidationRatio != 0.0
    ensures StopPriceMargin(liquidationPrice, liquidationRatio, liquidationRatio) == 0.0
    ensures StopPrice(liquidationPrice, liquidationRatio, liquidationRatio) == liquidationPrice
  {
  }

  /** For a positive liquidation price and ratio, the margin's sign is that of `slRatio - liquidationRatio`. */
  lemma MarginSign(liquidationPrice: real, liquidationRatio: real, slRatio: real)
    requires liquidationPrice > 0.0 && liquidationRatio > 0.0
    ensures StopPriceMargin(liquidationPrice, liquidationRatio, slRatio) > 0.0 <==> slRatio > liquidationRatio
  {
  }

  /** The worked value: a liquidation price of 200 at ratio 1.5 and stop-loss ratio 1.6 gives 640/3. */
  lemma WorkedExample()
    ensures StopPrice(200.0, 1.5, 1.6) == 640.0 / 3.0
  {
  }

  /** What the card shows: its value, its bottom line (with the i18n key of its caption) and its after-pill. */
  datatype StopPriceCard = StopPriceCard(value: Shown, bottom: Shown, caption: Option<string>, valueAfter: Option<Shown>)

  /**
   * `VaultDetailsCardDynamicStopPrice`: an unprotected vault shows `-` for both the
   * value and the bottom line; a protected one shows the stop price in dollars and
   * its margin above the liquidation price. The after-pill appears only with
   * `showAfterPill`.
   */
  function StopPriceCardOf(
    slRatio: real, afterSlRatio: Option<real>,
    liquidationPrice: real, afterLiquidationPrice: Option<real>,
    liquidationRatio: real, showAfterPill: bool, isProtected: bool)
    : (c: StopPriceCard)
    requires liquidationRatio != 0.0
    ensures !isProtected <==> c.value == Placeholder("-")
    ensures !isProtected <==> c.bottom == Placeholder("-")
    ensures isProtected ==> c.value == Dollars(StopPrice(liquidationPrice, liquidationRatio, slRatio))
    ensures isProtected ==> c.bottom == Dollars(StopPriceMargin(liquidationPrice, liquidationRatio, slRatio))
    ensures c.caption.Some? <==> isProtected
    ensures isProtected ==> c.caption.value == "manage-multiply-vault.card.above-liquidation-price"
    ensures c.valueAfter.Some? <==> showAfterPill
    ensures showAfterPill ==> c.valueAfter.value == Dollars(AfterStopPrice(afterLiquidationPrice, afterSlRatio, liquidationRatio))
  {
    var stop := StopPrice(liquidationPrice, liquidationRatio, slRatio);
    StopPriceCard(
      if isProtected then Dollars(stop) else Placeholder("-"),
      if isProtected then Dollars(stop - liquidationPrice) else Placeholder("-"),
      if isProtected then Some("manage-multiply-vault.card.above-liquidation-price") else None,
      if showAfterPill then Some(Dollars(AfterStopPrice(afterLiquidationPrice, afterSlRatio, liquidationRatio))) else None)
  }
}
