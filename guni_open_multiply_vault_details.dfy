/**
 * The details of a Guni open-multiply vault
 * (features/openMultiplyVault/variants/guni/open/GuniOpenMultiplyVaultDetails.tsx):
 * when the after-pills show, their fixed colours, and the before and after figures
 * of the summary.
 */
module GuniOpenMultiplyVaultDetails {
  import opened Wrappers
  import opened Display
  import VaultDetails

  /** `!inputAmountsEmpty && stage !== 'txSuccess'`, over the Guni flow's own stage tag. */
  function ShowAfterPill(inputAmountsEmpty: bool, stage: string): (show: bool)
    ensures inputAmountsEmpty ==> !show
    ensures stage == "txSuccess" ==> !show
    ensures !inputAmountsEmpty && stage != "txSuccess" ==> show
  {
    !inputAmountsEmpty && stage != "txSuccess"
  }

  /** The after-pill colours: always those of `onSuccess`, i.e. `onSuccess` on `success`. */
  function GuniAfterPillColors(): (c: VaultDetails.PillColors)
    ensures c == VaultDetails.PillColors("onSuccess", "success")
  {
    VaultDetails.AfterPillColorsOfSuccess();
    VaultDetails.AfterPillColors(VaultDetails.OnSuccess)
  }

  /** One summary item: the before value and the after value, present only with the pill. */
  datatype SummaryItem = SummaryItem(before: Shown, after: Option<Shown>)

  /** The three items of `GuniOpenMultiplyVaultDetailsSummary`. */
  datatype Summary = Summary(debt: SummaryItem, totalCollateral: SummaryItem, multiple: SummaryItem)

  /**
   * The summary. Before opening, the debt is 0 DAI, the collateral 0 and the multiple
   * `0.00x`; the after values (the outstanding debt, the total collateral and the
   * multiple, whose absence prints nothing before the `x`) appear only with the pill.
   */
  function SummaryOf(showAfterPill: bool, afterOutstandingDebt: real, totalCollateral: real, multiply: Option<real>)
    : (s: Summary)
    ensures s.debt.before == Formatted(0.0, AmountIn("DAI"))
    ensures s.totalCollateral.before == Formatted(0.0, CryptoBalance)
    ensures s.multiple.before == Placeholder("0.00x")
    ensures s.debt.after.Some? == s.totalCollateral.after.Some? == s.multiple.after.Some? == showAfterPill
    ensures showAfterPill ==> s.debt.after.value == Formatted(afterOutstandingDebt, AmountIn("DAI"))
    ensures showAfterPill ==> s.totalCollateral.after.value == Formatted(totalCollateral, CryptoBalance)
    ensures showAfterPill && multiply.Some? ==> s.multiple.after.value == Suffixed(Formatted(multiply.value, FixedTwo), "x")
    ensures showAfterPill && multiply.None? ==> s.multiple.after.value == Placeholder("x")
  {
    Summary(
      SummaryItem(
        Formatted(0.0, AmountIn("DAI")),
        if showAfterPill then Some(Formatted(afterOutstandingDebt, AmountIn("DAI"))) else None),
      SummaryItem(
        Formatted(0.0, CryptoBalance),
        if showAfterPill then Some(Formatted(totalCollateral, CryptoBalance)) else None),
      SummaryItem(
        Placeholder("0.00x"),
        if !showAfterPill then None
        else if multiply.Some? then Some(Suffixed(Formatted(multiply.value, FixedTwo), "x"))
        else Some(Placeholder("x"))))
  }

  /**
   * The net-value card as `GuniOpenMultiplyVaultDetails` renders it: the net value
   * defaults to zero, but no `currentPnL` is passed, so rendering the card throws.
   */
  function NetValueCardAsWritten(netValueUSD: Option<real>, afterNetValueUSD: real, inputAmountsEmpty: bool, stage: string)
    : (r: Result<VaultDetails.NetValueCard, VaultDetails.RenderError>)
    ensures r == Failure(VaultDetails.UndefinedProp("currentPnL"))
  {
    VaultDetails.NetValueCardOf(
      netValueUSD.GetOr(0.0), afterNetValueUSD, None, GuniAfterPillColors(), ShowAfterPill(inputAmountsEmpty, stage))
  }

  /**
   * The net-value card with a `currentPnL` passed: it renders, with the net value
   * defaulting to zero, the after value only while the pill shows, and the success pill colours.
   */
  function NetValueCardOf(
    netValueUSD: Option<real>, afterNetValueUSD: real, currentPnL: real, inputAmountsEmpty: bool, stage: string)
    : (c: VaultDetails.NetValueCard)
    ensures netValueUSD.None? ==> c.value == Dollars(0.0)
    ensures netValueUSD.Some? ==> c.value == Dollars(netValueUSD.value)
    ensures c.pnlPercent == currentPnL * 100.0
    ensures c.valueAfter.Some? <==> !inputAmountsEmpty && stage != "txSuccess"
    ensures c.valueAfter.Some? ==> c.valueAfter.value == Dollars(afterNetValueUSD)
    ensures c.pillColors == VaultDetails.PillColors("onSuccess", "success")
  {
    var r := VaultDetails.NetValueCardOf(
      netValueUSD.GetOr(0.0), afterNetValueUSD, Some(currentPnL), GuniAfterPillColors(),
      ShowAfterPill(inputAmountsEmpty, stage));
    r.value
  }

  /** Whatever the inputs, the card as written throws, and passing any `currentPnL` makes it render. */
  lemma NetValueCardNeedsPnL(
    netValueUSD: Option<real>, afterNetValueUSD: real, currentPnL: real, inputAmountsEmpty: bool, stage: string)
    ensures NetValueCardAsWritten(netValueUSD, afterNetValueUSD, inputAmountsEmpty, stage).Failure?
    ensures VaultDetails.NetValueCardOf(
              netValueUSD.GetOr(0.0), afterNetValueUSD, Some(currentPnL), GuniAfterPillColors(),
              ShowAfterPill(inputAmountsEmpty, stage))
            == Success(NetValueCardOf(netValueUSD, afterNetValueUSD, currentPnL, inputAmountsEmpty, stage))
  {
  }
}
