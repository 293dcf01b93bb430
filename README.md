# Open-vault wizard and vault-detail rules, in Dafny

This project models the decision rules of an oasis-borrow frontend for a
Maker-style collateralized-debt-position system. Almost all of that frontend is
React view composition. The rules modelled here are the pure logic inside it:

- **The open-vault wizard's stage interpreter.** The primary button's label is a
  partial function of the stage: it throws `UnreachableCaseError` for a stage its
  switch does not list. The secondary label, the enable, spinner and visibility
  flags, and the effects of the two click handlers are modelled too. The panel
  shown for each stage is a total function that falls back to "no panel".
- **The risk and colour classifiers.** These cover the collateralization-ratio
  colour against the liquidation ratio and the danger and warning thresholds, the
  sign colour of a price change, and the after-pill colours.
- **The derived vault figures.** These are the net-value modal's valuations, the
  liquidation-price wording, the dynamic stop price, the next-price difference,
  the free-collateral clamp, and the `--` and `-` placeholders.

The button and the view use two different vocabularies of stage names. The button
uses `proxyFailure`, `allowanceFailure` and `open*`. The view uses `proxyFiasco`,
`allowanceFiasco`, `transaction*` and `editingWaitingToContinue`. `OpenVault.Stage`
is the union of both. Each stage is described as a (phase, step) pair, and the
lemmas in `OpenVaultView` state exactly where the two switches agree and where
they do not. For example, `openSuccess` has a label but no panel, and
`transactionSuccess` has a panel but no label.

Conventions:

- BigNumber values are exact `real`s. A BigNumber object is truthy even when it is
  zero, so `x || zero` and `x ? … : '--'` on an optional BigNumber test only for
  presence. They are modelled with `Option`.
- Labels are i18n keys (`I18n.Message`), because translation is external.
- Formatted numbers (`Display.Shown`) name the number and its formatter. They do
  not render digits.
- The click handlers return the list of effects they perform, in order
  (`OpenVault.Effect`).

Modules: `Wrappers`, `I18n`, `Display`, `JsStrings` (the JavaScript string
built-ins one rule uses), `OpenVault` (stages and snapshot), `OpenVaultButton`,
`OpenVaultView`, `VaultDetails`, `DynamicStopPrice`, `OpenVaultDetails` and
`GuniOpenMultiplyVaultDetails`.

Three facts about the code that are easy to misread:

- Only `allowanceFailure` gets the `edit-token-allowance` secondary label;
  `allowanceFiasco` gets `edit-vault-details` (`OpenVaultButton.FiascoIsNotAllowanceFailure`).
- With non-empty inputs, a ratio equal to the danger threshold is coloured as an
  error, not a warning (`VaultDetails.ThresholdBoundaries`). With empty inputs every
  non-zero ratio is `onSuccess`.
- The button's `open*` stages and the view's `transaction*` stages are different
  tags, handled by different switches (`OpenVaultView.SuccessStagesDisagree`).

## Model

| member | source | states |
|---|---|---|
| `OpenVault.StageIsPhaseAndStep` | features/openVault/OpenVaultButton.tsx:21-64 | every stage is exactly one (phase, step) pair: the pair gives the stage back |
| `OpenVault.PhaseAndStepDetermineStage` | features/openVault/OpenVaultView.tsx:44-68 | a fact about the encoding: two stages with the same phase and step are the same stage |
| `OpenVaultButton.PrimaryButtonText` | features/openVault/OpenVaultButton.tsx:10-66 | a label is produced exactly for the stages the switch lists (the editing, proxy, allowance and open phases, never a `Fiasco` or transaction stage, nor `editingWaitingToContinue`); every other stage gives `UnreachableCaseError` carrying its tag; a label's key is never empty; every failure stage's key starts with `retry` |
| `OpenVaultButton.EditingEmptyInputsFirst` | features/openVault/OpenVaultButton.tsx:22-24 | at `editing`, empty inputs give `enter-an-amount` whatever the proxy and allowance flags are |
| `OpenVaultButton.EditingPrecedence` | features/openVault/OpenVaultButton.tsx:25-29 | at `editing` with inputs: no (truthy) proxy address gives `setup-proxy`; then insufficient allowance gives `set-token-allowance` with the token; otherwise `confirm` |
| `OpenVaultButton.ProxySuccessLabel` | features/openVault/OpenVaultButton.tsx:38-39 | `proxySuccess` gives `set-token-allowance` with the token if and only if the allowance is insufficient, else `continue` |
| `OpenVaultButton.AllowanceConfirmationLabel` | features/openVault/OpenVaultButton.tsx:41-44 | `allowanceWaitingForConfirmation` gives `enter-allowance-amount` if and only if the custom amount is empty, else `set-token-allowance` |
| `OpenVaultButton.SharedLabels` | features/openVault/OpenVaultButton.tsx:31-62 | approval-wait and in-progress share `creating-proxy` in the proxy phase and `approving-allowance` in the allowance phase; in the open phase it is approval-wait and confirmation-wait that share `create-vault` |
| `OpenVaultButton.FixedLabels` | features/openVault/OpenVaultButton.tsx:31-59 | `proxyWaitingForConfirmation` gives `create-proxy-btn`; the failure and success stages' fixed labels; `openSuccess` gives `go-to-vault` carrying the vault id |
| `OpenVaultButton.LabelIgnoresFlagsElsewhere` | features/openVault/OpenVaultButton.tsx:21-65 | outside `editing`, `proxySuccess` and `allowanceWaitingForConfirmation`, the label depends on the stage (and the id) only |
| `OpenVaultButton.SecondaryButtonText` | features/openVault/OpenVaultButton.tsx:87-88 | `edit-token-allowance` (with the token) if and only if the stage is `allowanceFailure`, otherwise `edit-vault-details` |
| `OpenVaultButton.FiascoIsNotAllowanceFailure` | features/openVault/OpenVaultButton.tsx:63-64 | `allowanceFiasco` has no primary label and gets the `edit-vault-details` secondary label |
| `OpenVaultButton.HandleProgress` | features/openVault/OpenVaultButton.tsx:73-79 | prevents the default action first and calls `progress` last; a redirect to `/{id}` comes between them if and only if the stage is `openSuccess` |
| `OpenVaultButton.HandleRegress` | features/openVault/OpenVaultButton.tsx:81-84 | prevents the default action, then calls `regress` |
| `OpenVaultButton.Render` | features/openVault/OpenVaultButton.tsx:86-108 | rendering succeeds exactly when the label does; the primary button shows that label, is disabled if and only if progress is not allowed, and busy exactly while the stage loads; the secondary button appears if and only if regress is allowed, with the secondary label |
| `OpenVaultView.ProxyFlow` | features/openVault/OpenVaultView.tsx:29-39 | only `proxyWaitingForConfirmation` offers the create-proxy button; any other stage shows its own tag |
| `OpenVaultView.PanelFor` | features/openVault/OpenVaultView.tsx:42-70 | a panel exists exactly for the stages the view lists, and then it is the panel of the stage's phase (proxy, allowance, editing or transaction); every other stage gets no panel and no error |
| `OpenVaultView.HandleProxyCreateAsWritten` | features/openVault/OpenVaultView.tsx:24-27 | with `createProxy` present, the create-proxy click as written only calls it: its effects are exactly that one call |
| `OpenVaultView.HandleProxyCreate` | features/openVault/OpenVaultView.tsx:24-27 | corrected, with `createProxy` present: prevents the default action, then calls `createProxy` |
| `OpenVaultView.ProxyCreateAsWrittenKeepsDefault` | features/openVault/OpenVaultView.tsx:25 | the handler as written never prevents the default action, unlike both button handlers |
| `OpenVaultView.HandlersPreventDefaultFirst` | features/openVault/OpenVaultButton.tsx:73-84 | with the correction, every wizard handler prevents the default action first |
| `OpenVaultView.EveryStageHandledSomewhere` | features/openVault/OpenVaultView.tsx:44-68 | every stage of either vocabulary has a primary label or a panel |
| `OpenVaultView.SharedVocabulary` | features/openVault/OpenVaultView.tsx:44-68 | a stage has both a label and a panel if and only if it is `editing` or a confirmation-wait, approval-wait or in-progress stage of the proxy or allowance phase |
| `OpenVaultView.SuccessStagesDisagree` | features/openVault/OpenVaultView.tsx:61-68 | `openSuccess` has a label and no panel; `transactionSuccess` has the transaction panel and no label |
| `OpenVaultView.ButtonOnlyStagesHaveNoPanel` | features/openVault/OpenVaultView.tsx:67-68 | the proxy, allowance and open failure and success stages get no panel |
| `OpenVaultView.FiascoStages` | features/openVault/OpenVaultView.tsx:45-66 | each `Fiasco` stage gets its phase's panel (the proxy panel showing `proxyFiasco`) and no primary label |
| `JsStrings.OccursAtSlice` | components/vault/VaultDetails.tsx:72 | a character-by-character occurrence of the separator is a slice of the string equal to it |
| `JsStrings.IndexOf` | components/vault/VaultDetails.tsx:72 | returns the first position at or after `from` where the separator occurs, or nothing when it occurs nowhere from there |
| `JsStrings.SplitPiece1` | components/vault/VaultDetails.tsx:72 | element 1 of `split(sep)` is `undefined` when the separator does not occur; otherwise it is the text that starts just after the first occurrence and ends at the next occurrence or at the end of the string |
| `JsStrings.ToLower` | components/vault/VaultDetails.tsx:72 | keeps the length and lower-cases every ASCII letter in place |
| `VaultDetails.CollRatioColorOf` | components/vault/VaultDetails.tsx:24-50 | `primary` if and only if the ratio is zero; with empty inputs every non-zero ratio is `onSuccess`; otherwise `onError` if and only if the ratio is below the liquidation ratio or at most the danger threshold, and `onWarning` if and only if it is at least the liquidation ratio, above the danger threshold and at most the warning threshold |
| `VaultDetails.RiskNeverRisesWithRatio` | components/vault/VaultDetails.tsx:28-49 | for positive ratios, a larger ratio never gets a more severe colour, whatever the thresholds |
| `VaultDetails.ThresholdBoundaries` | components/vault/VaultDetails.tsx:28-36 | with ordered thresholds, the liquidation ratio and the danger threshold themselves are `onError`; the warning threshold is `onWarning` |
| `VaultDetails.PriceChangeColor` | components/vault/VaultDetails.tsx:52-60 | `text.muted` if and only if the change is zero, `onSuccess` if and only if it is positive, `onError` if and only if it is negative |
| `VaultDetails.AfterPillColors` | components/vault/VaultDetails.tsx:62-74 | `primary` becomes (`onSuccess`, `success`); any other colour keeps its name and takes as background its lower-cased name without the leading `on` |
| `VaultDetails.NameSplitsAfterOn` | components/vault/VaultDetails.tsx:72 | `split('on')[1]` of each non-primary colour name is the name without its leading `on` |
| `VaultDetails.PrimaryHasNoSplitPiece` | components/vault/VaultDetails.tsx:63-68 | `primary` contains no `on`, so without its special case `split('on')[1]` would be undefined |
| `VaultDetails.AfterPillColorsOfError` | components/vault/VaultDetails.tsx:70-73 | `onError` gives (`onError`, `error`) |
| `VaultDetails.AfterPillColorsOfWarning` | components/vault/VaultDetails.tsx:70-73 | `onWarning` gives (`onWarning`, `warning`) |
| `VaultDetails.AfterPillColorsOfSuccess` | components/vault/VaultDetails.tsx:62-73 | `onSuccess` gives the same pair as the `primary` special case, (`onSuccess`, `success`) |
| `VaultDetails.NetValueModalFigures` | components/vault/VaultDetails.tsx:343-369 | an LP-token vault uses the locked USD value (or 0) and divides debt and net value by the oracle price; another vault multiplies its locked collateral by the market price and divides by it; no vault, or a non-LP vault without a market price, gives 0; the market price must be non-zero only where it divides; converting back by the price used gives the USD amounts; the price shown is the market price, or the oracle price when there is none |
| `VaultDetails.LiquidationDifferenceLine` | components/vault/VaultDetails.tsx:568-582 | the line is present if and only if the difference is; it shows the difference's absolute value ×100, and says `above current price` if and only if the difference is negative, `below current price` otherwise |
| `VaultDetails.LiquidationWordingSymmetric` | components/vault/VaultDetails.tsx:571-578 | opposite non-zero differences show the same percentage with opposite words |
| `VaultDetails.AfterValue` | components/vault/VaultDetails.tsx:567 | an after-pill value exists if and only if `showAfterPill` holds, in dollars; a missing figure shows as $0 |
| `VaultDetails.CurrentPriceCardBottom` | components/vault/VaultDetails.tsx:595-633 | a static price has no next-price line; otherwise the line shows the next price and the change ×100, coloured `text.muted` if and only if the change is zero, `onSuccess` if and only if it is positive and `onError` if and only if it is negative |
| `DynamicStopPrice.StopPrice` | components/vault/detailsCards/VaultDetailsCardDynamicStopPrice.tsx:44 | the stop price times the liquidation ratio is the liquidation price times the stop-loss ratio |
| `DynamicStopPrice.AfterStopPrice` | components/vault/detailsCards/VaultDetailsCardDynamicStopPrice.tsx:45-48 | 0 when either after value is absent; otherwise the after liquidation price and after stop-loss ratio over the current liquidation ratio |
| `DynamicStopPrice.StopPriceMargin` | components/vault/detailsCards/VaultDetailsCardDynamicStopPrice.tsx:57 | the margin shown under the stop price equals liquidationPrice·(slRatio − liquidationRatio)/liquidationRatio |
| `DynamicStopPrice.StopPriceMarginIdentity` | components/vault/detailsCards/VaultDetailsCardDynamicStopPrice.tsx:44-57 | stop price minus liquidation price equals liquidationPrice·(slRatio − liquidationRatio)/liquidationRatio |
| `DynamicStopPrice.MarginZeroAtLiquidationRatio` | components/vault/detailsCards/VaultDetailsCardDynamicStopPrice.tsx:44-57 | a stop-loss ratio equal to the liquidation ratio gives a zero margin: the stop price is the liquidation price |
| `DynamicStopPrice.MarginSign` | components/vault/detailsCards/VaultDetailsCardDynamicStopPrice.tsx:57-59 | for positive price and ratio, the margin is positive if and only if the stop-loss ratio exceeds the liquidation ratio |
| `DynamicStopPrice.WorkedExample` | components/vault/detailsCards/VaultDetailsCardDynamicStopPrice.tsx:44 | 200 / 1.5 × 1.6 = 640/3 |
| `DynamicStopPrice.StopPriceCardOf` | components/vault/detailsCards/VaultDetailsCardDynamicStopPrice.tsx:50-70 | the value and the bottom line are `-` if and only if the vault is unprotected; a protected vault shows the stop price and its margin above the liquidation price; the after value, the after stop price in dollars, appears if and only if `showAfterPill` holds |
| `OpenVaultDetails.AfterCollRatioText` | features/openVault/OpenVaultDetails.tsx:130-132 | `--` if and only if the ratio is zero, otherwise the ratio ×100 as a percentage |
| `OpenVaultDetails.NextPriceDiff` | features/openVault/OpenVaultDetails.tsx:136-139 | the difference times the current price is (next − current)·100 |
| `OpenVaultDetails.NextPriceDiffZeroIff` | features/openVault/OpenVaultDetails.tsx:136-139 | the difference is zero if and only if the next price equals the current one |
| `OpenVaultDetails.NextPriceDiffSign` | features/openVault/OpenVaultDetails.tsx:136-145 | for a positive current price, the difference is positive (negative) if and only if the price rises (falls) |
| `OpenVaultDetails.ChangeIconOf` | features/openVault/OpenVaultDetails.tsx:198-200 | no icon if and only if the difference is zero; `increase` if and only if positive; `decrease` if and only if negative |
| `OpenVaultDetails.NextPriceLabel` | features/openVault/OpenVaultDetails.tsx:187-189 | `vault.next-price-any-time` if and only if fewer than 2 minutes remain, else `vault.next-price`, with the minutes as `count` |
| `OpenVaultDetails.NextPriceSectionOf` | features/openVault/OpenVaultDetails.tsx:168-203 | a static price suppresses the section; otherwise the section carries the difference, is muted and has no icon if and only if the price does not change, and takes the colour and icon of the difference's sign: for a positive current price, `onSuccess` and `increase` if and only if the price rises, `onError` and `decrease` if and only if it falls |
| `OpenVaultDetails.CollateralLockedAmount` | features/openVault/OpenVaultDetails.tsx:212 | `--` if and only if the deposit amount is absent |
| `OpenVaultDetails.CollateralLockedUSD` | features/openVault/OpenVaultDetails.tsx:214 | a literal `$` followed by `--` if and only if the USD amount is absent |
| `OpenVaultDetails.AvailableToWithdraw` | features/openVault/OpenVaultDetails.tsx:66-69 | never negative and never below the free collateral; unchanged when non-negative, zero when negative |
| `OpenVaultDetails.DetailsTableOf` | features/openVault/OpenVaultDetails.tsx:34-111 | a missing generate amount shows as 0 DAI of debt; the free collateral shows in the collateral token, clamped at zero (0 when negative); the maximum to generate is formatted as DAI but labelled USD; the ilk's ratio, fee and penalty show ×100 as percentages |
| `GuniOpenMultiplyVaultDetails.ShowAfterPill` | features/openMultiplyVault/variants/guni/open/GuniOpenMultiplyVaultDetails.tsx:89 | the pill shows if and only if the inputs are not empty and the stage is not `txSuccess` |
| `GuniOpenMultiplyVaultDetails.GuniAfterPillColors` | features/openMultiplyVault/variants/guni/open/GuniOpenMultiplyVaultDetails.tsx:87-88 | the pill colours are always (`onSuccess`, `success`) |
| `GuniOpenMultiplyVaultDetails.SummaryOf` | features/openMultiplyVault/variants/guni/open/GuniOpenMultiplyVaultDetails.tsx:17-76 | the before values are 0 DAI, 0 collateral and `0.00x`; the after values for debt, total collateral and multiple all appear if and only if the pill shows, and an absent multiple prints just `x` |
| `VaultDetails.NetValueCardOf` | components/vault/VaultDetails.tsx:692-745 | the card throws if and only if `currentPnL` is absent; otherwise it shows the net value in dollars, the PnL ×100, the after value if and only if `showAfterPill` holds, and the given pill colours |
| `GuniOpenMultiplyVaultDetails.NetValueCardAsWritten` | features/openMultiplyVault/variants/guni/open/GuniOpenMultiplyVaultDetails.tsx:91-100 | as written, no `currentPnL` is passed, so rendering the net-value card always throws |
| `GuniOpenMultiplyVaultDetails.NetValueCardOf` | features/openMultiplyVault/variants/guni/open/GuniOpenMultiplyVaultDetails.tsx:78-100 | corrected, with a `currentPnL` passed: an absent net value shows as 0; the PnL shows ×100; the after value appears if and only if the pill shows; the pill colours are the success pair |
| `GuniOpenMultiplyVaultDetails.NetValueCardNeedsPnL` | features/openMultiplyVault/variants/guni/open/GuniOpenMultiplyVaultDetails.tsx:91-100 | for every input the card as written throws, and the same call with any `currentPnL` renders the corrected card |

## Left out

- Rendering: JSX, theme-ui styling, responsive grids, modals, `useModal`, `useObservable`, `useAppContext`, and `OpenVaultModal` with the `openVault$` pipeline behind it. They are view plumbing with no decision logic.
- Number formatting: `formatAmount`, `formatPercent` and `formatCryptoBalance` live in helpers/formatters/format, which is not part of this model. Cells name the number and the formatter. Digits, precision and `ROUND_DOWN` are not modelled.
- Translation: `t` is external, so labels are their i18n keys with the interpolation argument.
- Time: `moment(dateNextCollateralPrice).diff(Date.now(), 'minutes')` is taken as the integer input `minutesUntilNextPrice`.
- Token metadata: the `getToken(token).tags` lookup is taken as the boolean `Vault.isLpToken`. Token symbols are taken as strings.
- BigNumber arithmetic is exact `real` arithmetic. Finite precision is not modelled.
- `NetValueModalFigures`, `StopPrice`, `AfterStopPrice`, `StopPriceMargin`, `StopPriceCardOf`, `NextPriceDiff` and `NextPriceSectionOf`: they require a non-zero divisor, because BigNumber's `Infinity`/`NaN` results of a division by zero are not modelled.
- `OpenVaultButton.HandleProgress`, `OpenVaultButton.HandleRegress`, `OpenVaultView.HandleProxyCreateAsWritten` and `OpenVaultView.HandleProxyCreate`: they require their callback (`progress`, `regress`, `createProxy`) to be present. The source asserts this with `!` (features/openVault/OpenVaultButton.tsx:78 and 83, features/openVault/OpenVaultView.tsx:51), and the `TypeError` a missing callback would raise is not modelled.
- `JsStrings.ToLower`: it lower-cases ASCII letters only, not the full Unicode mapping of `toLowerCase`. The colour names are ASCII.
- Stub panels: the transaction, editing and allowance panels render nothing (features/openVault/OpenVaultView.tsx:8-16). Here they are bare `Panel` constructors. The `console.log` of the stage is not modelled.
- The placeholder `totalCollateral = 12345` default (features/openMultiplyVault/variants/guni/open/GuniOpenMultiplyVaultDetails.tsx:23): the summary takes the total collateral as an input.
- Parts of components/vault/VaultDetails.tsx outside the rules above: the collateral-locked card (`VaultDetailsCardCollateralLocked`); the current-price, collateralization-ratio, collateral-locked, buying-power and liquidation modals (`VaultDetailsCardCurrentPriceModal`, `VaultDetailsCardCollaterlizationRatioModal`, `VaultDetailsCardCollateralLockedModal`, `VaultDetailsBuyingPowerModal`, `VaultDetailsLiquidationModal`), with their `|| zero` fallbacks and their `collateralLockedUSD && …` and `liquidationPriceCurrentPriceDifference && …` guards; and, of the net-value modal (`VaultDetailsNetValueModal`), everything except the valuations `VaultDetails.NetValueModalFigures` models, namely its PnL and gas lines.
- components/blockchain/calls/vat.ts is not part of this model. It defines contract calls over web3 and unit helpers that live outside this code.

## Findings

| source | as written | input that shows it | evidently intended | confidence | as-written member | corrected member |
|---|---|---|---|---|---|---|
| features/openVault/OpenVaultView.tsx:25 | `handleProxyCreate` evaluates `e.preventDefault` without calling it, so the click's default action is not prevented | any click on the Create Proxy button | `e.preventDefault()`, as both handlers in OpenVaultButton.tsx do | high (not executed) | `OpenVaultView.HandleProxyCreateAsWritten` | `OpenVaultView.HandleProxyCreate` |
| features/openMultiplyVault/variants/guni/open/GuniOpenMultiplyVaultDetails.tsx:93-100 | `VaultDetailsCardNetValue` is given only `netValueUSD`, `afterNetValueUSD`, `afterPillColors` and `showAfterPill`, but it evaluates `currentPnL.times(100)` while rendering (components/vault/VaultDetails.tsx:720-721), so the card throws a `TypeError` | any render of the Guni open-vault details | the card is given a `currentPnL`, and then shows the net value, the PnL and the after value | medium (not executed) | `GuniOpenMultiplyVaultDetails.NetValueCardAsWritten` | `GuniOpenMultiplyVaultDetails.NetValueCardOf` |
