/**
 * The open-vault details panel (features/openVault/OpenVaultDetails.tsx): the
 * after-collateralization figure, the next-price section, the collateral-locked
 * figures and the vault-details table, with their `--` placeholders.
 */
module OpenVaultDetails {
  import opened Wrappers
  import opened I18n
  import opened Display
  import VaultDetails

  /** `afterCollRatio`: `--` exactly for a zero ratio, otherwise the ratio as a percentage. */
  function AfterCollRatioText(afterCollateralizationRatio: real): (s: Shown)
    ensures s == Placeholder("--") <==> afterCollateralizationRatio == 0.0
    ensures afterCollateralizationRatio != 0.0 ==> s == Formatted(afterCollateralizationRatio * 100.0, Percent)
  {
    if afterCollateralizationRatio == 0.0 then Placeholder("--")
    else Formatted(afterCollateralizationRatio * 100.0, Percent)
  }

  /** `nextPriceDiff`: the change from the current to the next price, in percent of the current price. */
  function NextPriceDiff(nextCollateralPrice: real, currentCollateralPrice: real): (d: real)
    requires currentCollateralPrice != 0.0
    ensures d * currentCollateralPrice == (nextCollateralPrice - currentCollateralPrice) * 100.0
  {
    (nextCollateralPrice - currentCollateralPrice) / currentCollateralPrice * 100.0
  }

  /** No change exactly when the next price equals the current one. */
  lemma NextPriceDiffZeroIff(nextCollateralPrice: real, currentCollateralPrice: real)
    requires currentCollateralPrice != 0.0
    ensures NextPriceDiff(nextCollateralPrice, currentCollateralPrice) == 0.0 <==> nextCollateralPrice == currentCollateralPrice
  {
    var d := NextPriceDiff(nextCollateralPrice, currentCollateralPrice);
    assert d * currentCollateralPrice == (nextCollateralPrice - currentCollateralPrice) * 100.0;
  }

  /** For a positive current price the difference is positive exactly when the price rises. */
  lemma NextPriceDiffSign(nextCollateralPrice: real, currentCollateralPrice: real)
    requires currentCollateralPrice > 0.0
    ensures NextPriceDiff(nextCollateralPrice, currentCollateralPrice) > 0.0 <==> nextCollateralPrice > currentCollateralPrice
    ensures NextPriceDiff(nextCollateralPrice, currentCollateralPrice) < 0.0 <==> nextCollateralPrice < currentCollateralPrice
  {
    var d := NextPriceDiff(nextCollateralPrice, currentCollateralPrice);
    assert d * currentCollateralPrice == (nextCollateralPrice - currentCollateralPrice) * 100.0;
    if d > 0.0 {
      assert d * currentCollateralPrice > 0.0;
    } else if d < 0.0 {
      assert d * currentCollateralPrice < 0.0;
    }
  }

  /** The icon beside a non-zero change. */
  datatype ChangeIcon = Increase | Decrease

  /** No icon for no change, `increase` for a rise, `decrease` for a fall. */
  function ChangeIconOf(nextPriceDiff: real): (r: Option<ChangeIcon>)
    ensures r.None? <==> nextPriceDiff == 0.0
    ensures r == Some(Increase) <==> nextPriceDiff > 0.0
    ensures r == Some(Decrease) <==> nextPriceDiff < 0.0
  {
    if nextPriceDiff == 0.0 then None
    else if nextPriceDiff > 0.0 then Some(Increase)
    else Some(Decrease)
  }

  /** The heading of the next-price section: `any time` under two minutes, with the minutes as `count`. */
  function NextPriceLabel(minutesUntilNextPrice: int): (m: Message)
    ensures m.key == "vault.next-price-any-time" <==> minutesUntilNextPrice < 2
    ensures m.key != "vault.next-price-any-time" ==> m.key == "vault.next-price"
    ensures m.arg == Some(CountArg(minutesUntilNextPrice))
  {
    if minutesUntilNextPrice < 2 then Message("vault.next-price-any-time", Some(CountArg(minutesUntilNextPrice)))
    else Message("vault.next-price", Some(CountArg(minutesUntilNextPrice)))
  }

  /** The next-price section shown under a price that is not static. */
  datatype NextPriceSection = NextPriceSection(
    heading: Message,
    nextPrice: real,
    diffPercent: real,
    color: string,
    icon: Option<ChangeIcon>)

  /**
   * The current-price block: a static price has no next-price section; otherwise the
   * section carries the difference, coloured by its sign, and an icon unless it is zero.
   */
  function NextPriceSectionOf(
    isStaticCollateralPrice: bool, currentCollateralPrice: real, nextCollateralPrice: real, minutesUntilNextPrice: int)
    : (r: Option<NextPriceSection>)
    requires currentCollateralPrice != 0.0
    ensures r.None? <==> isStaticCollateralPrice
    ensures r.Some? ==> r.value.heading == NextPriceLabel(minutesUntilNextPrice)
    ensures r.Some? ==> r.value.nextPrice == nextCollateralPrice
    ensures r.Some? ==> r.value.diffPercent == NextPriceDiff(nextCollateralPrice, currentCollateralPrice)
    ensures r.Some? ==> (r.value.color == "text.muted" <==> nextCollateralPrice == currentCollateralPrice)
    ensures r.Some? ==> (r.value.icon.None? <==> nextCollateralPrice == currentCollateralPrice)
    ensures r.Some? ==> r.value.color == VaultDetails.PriceChangeColor(r.value.diffPercent)
    ensures r.Some? ==> r.value.icon == ChangeIconOf(r.value.diffPercent)
    ensures r.Some? && currentCollateralPrice > 0.0 ==>
              (r.value.color == "onSuccess" <==> nextCollateralPrice > currentCollateralPrice)
              && (r.value.color == "onError" <==> nextCollateralPrice < currentCollateralPrice)
              && (r.value.icon == Some(Increase) <==> nextCollateralPrice > currentCollateralPrice)
              && (r.value.icon == Some(Decrease) <==> nextCollateralPrice < currentCollateralPrice)
  {
    if isStaticCollateralPrice then None
    else
      var diff := NextPriceDiff(nextCollateralPrice, currentCollateralPrice);
      NextPriceDiffZeroIff(nextCollateralPrice, currentCollateralPrice);
      Some(NextPriceSection(
        NextPriceLabel(minutesUntilNextPrice),
        nextCollateralPrice,
        diff,
        VaultDetails.PriceChangeColor(diff),
        ChangeIconOf(diff)))
  }

  /** The collateral-locked amount: `--` when absent (a present zero is still formatted). */
  function CollateralLockedAmount(depositAmount: Option<real>, symbol: string): (s: Shown)
    ensures depositAmount.None? <==> s == Placeholder("--")
    ensures depositAmount.Some? ==> s == Formatted(depositAmount.value, AmountIn(symbol))
  {
    match depositAmount
    case None => Placeholder("--")
    case Some(a) => Formatted(a, AmountIn(symbol))
  }

  /** The collateral-locked USD line: a literal `$` before the figure, or before `--` when absent. */
  function CollateralLockedUSD(depositAmountUSD: Option<real>): (s: Shown)
    ensures s.Prefixed? && s.prefix == "$"
    ensures depositAmountUSD.None? <==> s.inner == Placeholder("--")
    ensures depositAmountUSD.Some? ==> s.inner == Formatted(depositAmountUSD.value, AmountIn("USD"))
  {
    Prefixed("$", match depositAmountUSD
      case None => Placeholder("--")
      case Some(a) => Formatted(a, AmountIn("USD")))
  }

  /** `afterFreeCollateral.isNegative() ? zero : afterFreeCollateral`. */
  function AvailableToWithdraw(afterFreeCollateral: real): (a: real)
    ensures a >= 0.0
    ensures a >= afterFreeCollateral
    ensures afterFreeCollateral >= 0.0 ==> a == afterFreeCollateral
    ensures afterFreeCollateral < 0.0 ==> a == 0.0
  {
    if afterFreeCollateral < 0.0 then 0.0 else afterFreeCollateral
  }

  /** The fields of `ilkData` the table shows. */
  datatype IlkFees = IlkFees(liquidationRatio: real, stabilityFee: real, liquidationPenalty: real)

  /** What `VaultDetailsTable` shows, each figure with the unit text written beside it. */
  datatype DetailsTable = DetailsTable(
    daiDebt: Shown,
    availableToWithdraw: Shown,
    withdrawUnit: string,
    availableToGenerate: Shown,
    generateUnit: string,
    liquidationRatio: Shown,
    stabilityFee: Shown,
    liquidationPenalty: Shown)

  /**
   * `VaultDetailsTable`: the debt to generate (zero when absent), the free collateral
   * clamped at zero, the maximum to generate (formatted as DAI but labelled USD), and
   * the ilk's ratio, fee and penalty as percentages.
   */
  function DetailsTableOf(
    generateAmount: Option<real>, afterFreeCollateral: real, symbol: string,
    maxGenerateAmountCurrentPrice: real, ilk: IlkFees)
    : (t: DetailsTable)
    ensures t.daiDebt == Formatted(generateAmount.GetOr(0.0), AmountIn("DAI"))
    ensures generateAmount.None? ==> t.daiDebt.value == 0.0
    ensures t.availableToWithdraw == Formatted(AvailableToWithdraw(afterFreeCollateral), AmountIn(symbol))
    ensures t.availableToWithdraw.value >= 0.0
    ensures afterFreeCollateral >= 0.0 ==> t.availableToWithdraw.value == afterFreeCollateral
    ensures afterFreeCollateral < 0.0 ==> t.availableToWithdraw.value == 0.0
    ensures t.withdrawUnit == symbol
    ensures t.availableToGenerate == Formatted(maxGenerateAmountCurrentPrice, AmountIn("DAI")) && t.generateUnit == "USD"
    ensures t.liquidationRatio == Formatted(ilk.liquidationRatio * 100.0, Percent)
    ensures t.stabilityFee == Formatted(ilk.stabilityFee * 100.0, Percent)
    ensures t.liquidationPenalty == Formatted(ilk.liquidationPenalty * 100.0, Percent)
  {
    DetailsTable(
      Formatted(generateAmount.GetOr(0.0), AmountIn("DAI")),
      Formatted(AvailableToWithdraw(afterFreeCollateral), AmountIn(symbol)),
      symbol,
      Formatted(maxGenerateAmountCurrentPrice, AmountIn("DAI")),
      "USD",
      Formatted(ilk.liquidationRatio * 100.0, Percent),
      Formatted(ilk.stabilityFee * 100.0, Percent),
      Formatted(ilk.liquidationPenalty * 100.0, Percent))
  }
}
