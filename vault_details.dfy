/**
 * The decision rules inside components/vault/VaultDetails.tsx: the risk colour of a
 * collateralization ratio, the colour of a price change, the after-pill colours,
 * the net-value modal's valuations and the liquidation-price card's wording.
 */
module VaultDetails {
  import opened Wrappers
  import opened JsStrings
  import opened Display

  /** `CollRatioColor`. */
  datatype CollRatioColor = Primary | OnError | OnWarning | OnSuccess

  /** The theme colour name each value stands for. */
  function ColorName(c: CollRatioColor): string {
    match c
    case Primary => "primary"
    case OnError => "onError"
    case OnWarning => "onWarning"
    case OnSuccess => "onSuccess"
  }

  /** The risk thresholds of an ilk's `ilkData`. */
  datatype IlkRisk = IlkRisk(
    liquidationRatio: real,
    collateralizationDangerThreshold: real,
    collateralizationWarningThreshold: real)

  /**
   * `getCollRatioColor`. Zero is `primary` whatever else holds; with empty inputs
   * every other ratio is `onSuccess`; otherwise a ratio below the liquidation ratio
   * or at most the danger threshold is `onError` (so the danger threshold itself
   * is an error), and a ratio above both up to the warning threshold is `onWarning`.
   */
  function CollRatioColorOf(inputAmountsEmpty: bool, ilk: IlkRisk, ratio: real): (c: CollRatioColor)
    ensures c == Primary <==> ratio == 0.0
    ensures ratio != 0.0 && inputAmountsEmpty ==> c == OnSuccess
    ensures ratio != 0.0 && !inputAmountsEmpty ==>
              (c == OnError <==> ratio < ilk.liquidationRatio || ratio <= ilk.collateralizationDangerThreshold)
    ensures ratio != 0.0 && !inputAmountsEmpty ==>
              (c == OnWarning <==> ilk.liquidationRatio <= ratio
                                   && ilk.collateralizationDangerThreshold < ratio
                                   && ratio <= ilk.collateralizationWarningThreshold)
  {
    var atRiskLevelDanger :=
      !inputAmountsEmpty
      && ratio >= ilk.liquidationRatio
      && ratio <= ilk.collateralizationDangerThreshold;
    var atRiskLevelWarning :=
      !inputAmountsEmpty
      && ratio > ilk.collateralizationDangerThreshold
      && ratio <= ilk.collateralizationWarningThreshold;
    var underCollateralized :=
      !inputAmountsEmpty
      && ratio < ilk.liquidationRatio
      && ratio != 0.0;
    if ratio == 0.0 then Primary
    else if atRiskLevelDanger || underCollateralized then OnError
    else if atRiskLevelWarning then OnWarning
    else OnSuccess
  }

  /** How alarming a colour is: error above warning above success. */
  function Severity(c: CollRatioColor): nat {
    match c
    case OnError => 2
    case OnWarning => 1
    case OnSuccess | Primary => 0
  }

  /** A healthier (larger, non-zero) ratio never gets a more alarming colour, whatever the thresholds. */
  lemma RiskNeverRisesWithRatio(inputAmountsEmpty: bool, ilk: IlkRisk, r1: real, r2: real)
    requires 0.0 < r1 <= r2
    ensures Severity(CollRatioColorOf(inputAmountsEmpty, ilk, r2)) <= Severity(CollRatioColorOf(inputAmountsEmpty, ilk, r1))
  {
  }

  /** Boundary ownership: the liquidation ratio and the danger threshold are errors, the warning threshold a warning. */
  lemma ThresholdBoundaries(ilk: IlkRisk)
    requires 0.0 < ilk.liquidationRatio < ilk.collateralizationDangerThreshold < ilk.collateralizationWarningThreshold
    ensures CollRatioColorOf(false, ilk, ilk.liquidationRatio) == OnError
    ensures CollRatioColorOf(false, ilk, ilk.collateralizationDangerThreshold) == OnError
    ensures CollRatioColorOf(false, ilk, ilk.collateralizationWarningThreshold) == OnWarning
  {
  }

  /** `getPriceChangeColor`: muted for no change, success for a rise, error for a fall. */
  function PriceChangeColor(change: real): (color: string)
    ensures color == "text.muted" <==> change == 0.0
    ensures color == "onSuccess" <==> change > 0.0
    ensures color == "onError" <==> change < 0.0
  {
    if change == 0.0 then "text.muted"
    else if change > 0.0 then "onSuccess"
    else "onError"
  }

  /** The `{ color, bg }` pair of an after-pill. */
  datatype PillColors = PillColors(color: string, bg: string)

  /**
   * `getAfterPillColors`: `primary` becomes the success pair; any other colour keeps
   * its name and takes as background `name.split('on')[1].toLowerCase()`, i.e. the
   * lower-cased name without its leading `on`.
   */
  function AfterPillColors(c: CollRatioColor): (r: PillColors)
    ensures c == Primary ==> r == PillColors("onSuccess", "success")
    ensures c != Primary ==> r.color == ColorName(c)
    ensures c != Primary ==> ColorName(c)[..2] == "on" && r.bg == ToLower(ColorName(c)[2..])
  {
    if c == Primary then PillColors("onSuccess", "success")
    else
      var name := ColorName(c);
      var piece := SplitPiece1(name, "on");
      assert piece == Some(name[2..]) by { NameSplitsAfterOn(c); }
      PillColors(name, ToLower(piece.value))
  }

  /** A non-primary colour name starts with `on` and contains it nowhere else. */
  lemma NameSplitsAfterOn(c: CollRatioColor)
    requires c != Primary
    ensures SplitPiece1(ColorName(c), "on") == Some(ColorName(c)[2..])
  {
  }

  /** The name `primary` contains no `on`: without the special case, `split('on')[1]` would be undefined. */
  lemma PrimaryHasNoSplitPiece()
    ensures SplitPiece1(ColorName(Primary), "on") == None
  {
  }

  /** `onError` pairs with the `error` background. */
  lemma AfterPillColorsOfError()
    ensures AfterPillColors(OnError) == PillColors("onError", "error")
  {
    assert "onError"[2..] == "Error";
    assert ToLower("Error") == "error";
  }

  /** `onWarning` pairs with the `warning` background. */
  lemma AfterPillColorsOfWarning()
    ensures AfterPillColors(OnWarning) == PillColors("onWarning", "warning")
  {
    assert "onWarning"[2..] == "Warning";
    assert ToLower("Warning") == "warning";
  }

  /** `onSuccess` gives the same pair as the `primary` special case. */
  lemma AfterPillColorsOfSuccess()
    ensures AfterPillColors(OnSuccess) == AfterPillColors(Primary) == PillColors("onSuccess", "success")
  {
    assert "onSuccess"[2..] == "Success";
    assert ToLower("Success") == "success";
  }

  /** The fields of a vault the net-value modal reads; `isLpToken` is its token's `lp-token` tag. */
  datatype Vault = Vault(
    token: string,
    isLpToken: bool,
    lockedCollateral: real,
    lockedCollateralUSD: Option<real>,
    debt: real)

  /** The figures `VaultDetailsNetValueModal` derives before formatting them. */
  datatype NetValueFigures = NetValueFigures(
    isCollateralLpToken: bool,
    renderCollateralValue: bool,
    basedOnPriceKey: string,
    shownPrice: real,
    lockedCollateralUSD: real,
    daiDebtUndercollateralizedToken: real,
    netValueUndercollateralizedToken: real)

  /**
   * `VaultDetailsNetValueModal`'s valuations. An LP-token vault is valued with the
   * oracle price, any other vault with the market price, and without a market price
   * (or without a vault) the figures fall back to zero. The amounts in collateral
   * token are the USD amounts divided by the price used, so multiplying back gives
   * the USD amounts.
   */
  function NetValueModalFigures(marketPrice: Option<real>, netValueUSD: real, vault: Option<Vault>, oraclePrice: real)
    : (f: NetValueFigures)
    requires vault.Some? && vault.value.isLpToken ==> oraclePrice != 0.0
    requires vault.Some? && !vault.value.isLpToken && marketPrice.Some? ==> marketPrice.value != 0.0
    ensures f.isCollateralLpToken <==> vault.Some? && vault.value.isLpToken
    ensures f.renderCollateralValue != f.isCollateralLpToken
    ensures f.shownPrice == marketPrice.GetOr(oraclePrice)
    ensures f.basedOnPriceKey == if f.isCollateralLpToken then "manage-multiply-vault.card.based-on-price-lp"
                                 else "manage-multiply-vault.card.based-on-price"
    ensures vault.None? || (!vault.value.isLpToken && marketPrice.None?) ==>
              f.lockedCollateralUSD == 0.0 && f.daiDebtUndercollateralizedToken == 0.0
              && f.netValueUndercollateralizedToken == 0.0
    ensures vault.Some? && vault.value.isLpToken ==>
              f.lockedCollateralUSD == vault.value.lockedCollateralUSD.GetOr(0.0)
              && f.daiDebtUndercollateralizedToken * oraclePrice == vault.value.debt
              && f.netValueUndercollateralizedToken * oraclePrice == netValueUSD
    ensures vault.Some? && !vault.value.isLpToken && marketPrice.Some? ==>
              f.lockedCollateralUSD == vault.value.lockedCollateral * marketPrice.value
              && f.daiDebtUndercollateralizedToken * marketPrice.value == vault.value.debt
              && f.netValueUndercollateralizedToken * marketPrice.value == netValueUSD
  {
    var isLp := vault.Some? && vault.value.isLpToken;
    var lockedUSD :=
      if isLp then (if vault.Some? then vault.value.lockedCollateralUSD.GetOr(0.0) else 0.0)
      else if vault.Some? && marketPrice.Some? then vault.value.lockedCollateral * marketPrice.value
      else 0.0;
    var debtInToken :=
      if vault.Some? then
        (if isLp then vault.value.debt / oraclePrice
         else if marketPrice.Some? then vault.value.debt / marketPrice.value
         else 0.0)
      else 0.0;
    var netValueInToken :=
      if vault.Some? then
        (if isLp then netValueUSD / oraclePrice
         else if marketPrice.Some? then netValueUSD / marketPrice.value
         else 0.0)
      else 0.0;
    NetValueFigures(
      isLp,
      !isLp,
      if isLp then "manage-multiply-vault.card.based-on-price-lp" else "manage-multiply-vault.card.based-on-price",
      marketPrice.GetOr(oraclePrice),
      lockedUSD,
      debtInToken,
      netValueInToken)
  }

  /** Where the liquidation price stands against the current price. */
  datatype Direction = Above | Below

  /** The text after the percentage: ` above current price` or ` below current price`. */
  function Wording(d: Direction): string {
    " " + (match d case Above => "above" case Below => "below") + " current price"
  }

  /** The wording under the liquidation price: the percentage shown, the direction and the text after it. */
  datatype LiquidationDifference = LiquidationDifference(percent: real, direction: Direction, wording: string)

  /**
   * `VaultDetailsCardLiquidationPrice`'s bottom line, present whenever the difference
   * is: its absolute value as a percentage, `above` for a negative difference and
   * `below` otherwise (zero included).
   */
  function LiquidationDifferenceLine(difference: Option<real>): (r: Option<LiquidationDifference>)
    ensures r.Some? <==> difference.Some?
    ensures r.Some? ==> r.value.percent >= 0.0
    ensures r.Some? ==> r.value.percent == difference.value * 100.0 || r.value.percent == -difference.value * 100.0
    ensures r.Some? ==> (r.value.direction == Above <==> difference.value < 0.0)
    ensures r.Some? ==> r.value.wording == Wording(r.value.direction)
  {
    match difference
    case None => None
    case Some(d) =>
      var times100 := d * 100.0;
      var direction := if d < 0.0 then Above else Below;
      Some(LiquidationDifference(if times100 < 0.0 then -times100 else times100, direction, Wording(direction)))
  }

  /** The after-pill of a card: shown in dollars only with `showAfterPill`, with a missing figure shown as zero. */
  function AfterValue(showAfterPill: bool, after: Option<real>): (r: Option<Shown>)
    ensures r.Some? <==> showAfterPill
    ensures r.Some? && after.None? ==> r.value == Dollars(0.0)
    ensures r.Some? && after.Some? ==> r.value == Dollars(after.value)
  {
    if showAfterPill then Some(Dollars(after.GetOr(0.0))) else None
  }

  /** A price that rose and one that fell by the same amount read the same percentage, with opposite words. */
  lemma LiquidationWordingSymmetric(d: real)
    requires d != 0.0
    ensures LiquidationDifferenceLine(Some(d)).value.percent == LiquidationDifferenceLine(Some(-d)).value.percent
    ensures LiquidationDifferenceLine(Some(d)).value.direction != LiquidationDifferenceLine(Some(-d)).value.direction
  {
  }

  /** The current-price card's bottom line: the next price, the change as a percentage, and its colour. */
  datatype NextPriceLine = NextPriceLine(nextPrice: real, changePercent: real, color: string)

  /** `VaultDetailsCardCurrentPrice`: a static price has no next-price line. */
  function CurrentPriceCardBottom(isStaticCollateralPrice: bool, nextCollateralPrice: real, percentageChange: real)
    : (r: Option<NextPriceLine>)
    ensures r.None? <==> isStaticCollateralPrice
    ensures r.Some? ==> r.value.nextPrice == nextCollateralPrice && r.value.changePercent == percentageChange * 100.0
    ensures r.Some? ==> (r.value.color == "text.muted" <==> percentageChange == 0.0)
    ensures r.Some? ==> (r.value.color == "onSuccess" <==> percentageChange > 0.0)
    ensures r.Some? ==> (r.value.color == "onError" <==> percentageChange < 0.0)
  {
    if isStaticCollateralPrice then None
    else Some(NextPriceLine(nextCollateralPrice, percentageChange * 100.0, PriceChangeColor(percentageChange)))
  }

  /** The error a render throws when it calls a method on a prop that is `undefined`. */
  datatype RenderError = UndefinedProp(name: string)

  /** What `VaultDetailsCardNetValue` shows: the net value, the unrealised PnL as a percentage, the after value and the pill colours. */
  datatype NetValueCard = NetValueCard(value: Shown, pnlPercent: real, valueAfter: Option<Shown>, pillColors: PillColors)

  /**
   * `VaultDetailsCardNetValue`. Its bottom line evaluates `currentPnL.times(100)` while
   * rendering, so without a `currentPnL` the card throws instead of showing anything;
   * with one, it shows the net value in dollars, the PnL as a percentage, and the after
   * value only with `showAfterPill`.
   */
  function NetValueCardOf(
    netValueUSD: real, afterNetValueUSD: real, currentPnL: Option<real>, pillColors: PillColors, showAfterPill: bool)
    : (r: Result<NetValueCard, RenderError>)
    ensures r.Failure? <==> currentPnL.None?
    ensures r.Failure? ==> r.error == UndefinedProp("currentPnL")
    ensures r.Success? ==> r.value.value == Dollars(netValueUSD) && r.value.pnlPercent == currentPnL.value * 100.0
    ensures r.Success? ==> (r.value.valueAfter.Some? <==> showAfterPill)
    ensures r.Success? && showAfterPill ==> r.value.valueAfter.value == Dollars(afterNetValueUSD)
    ensures r.Success? ==> r.value.pillColors == pillColors
  {
    match currentPnL
    case None => Failure(UndefinedProp("currentPnL"))
    case Some(pnl) =>
      Success(NetValueCard(
        Dollars(netValueUSD),
        pnl * 100.0,
        if showAfterPill then Some(Dollars(afterNetValueUSD)) else None,
        pillColors))
  }
}
