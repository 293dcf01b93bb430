/**
 * The open-vault wizard's buttons (features/openVault/OpenVaultButton.tsx): the
 * primary label chosen from the stage, the secondary label, the enablement
 * flags and what the two click handlers do.
 */
module OpenVaultButton {
  import opened Wrappers
  import opened I18n
  import opened OpenVault

  /** `new UnreachableCaseError(stage)`, thrown by the label switch's `default` branch. */
  datatype UnreachableCaseError = UnreachableCaseError(stage: string)

  /** `key` begins with `prefix`. */
  predicate StartsWith(key: string, prefix: string) {
    |prefix| <= |key| && key[..|prefix|] == prefix
  }

  /**
   * `openVaultPrimaryButtonText`: the primary button's label, or the unreachable-case
   * error for a stage the switch does not list.
   */
  function PrimaryButtonText(st: OpenVaultState): (r: Result<Message, UnreachableCaseError>)
    ensures r.Success? <==> InButtonVocabulary(st.stage)
    ensures r.Failure? ==> r.error == UnreachableCaseError(Tag(st.stage))
    ensures r.Success? ==> r.value.key != ""
    ensures r.Success? && StepOf(st.stage) == Failed ==> StartsWith(r.value.key, "retry")
  {
    match st.stage
    case Editing =>
      Success(
        if st.inputAmountsEmpty then Key("enter-an-amount")
        else if !Truthy(st.proxyAddress) then Key("setup-proxy")
        else if st.insufficientAllowance then KeyWithToken("set-token-allowance", st.token)
        else Key("confirm"))
    case ProxyWaitingForConfirmation => Success(Key("create-proxy-btn"))
    case ProxyWaitingForApproval | ProxyInProgress => Success(Key("creating-proxy"))
    case ProxyFailure => Success(Key("retry-create-proxy"))
    case ProxySuccess =>
      Success(if st.insufficientAllowance then KeyWithToken("set-token-allowance", st.token) else Key("continue"))
    case AllowanceWaitingForConfirmation =>
      Success(
        if st.customAllowanceAmountEmpty then Key("enter-allowance-amount")
        else KeyWithToken("set-token-allowance", st.token))
    case AllowanceWaitingForApproval | AllowanceInProgress => Success(Key("approving-allowance"))
    case AllowanceFailure => Success(Key("retry-allowance-approval"))
    case AllowanceSuccess => Success(Key("continue"))
    case OpenFailure => Success(Key("retry"))
    case OpenInProgress => Success(Key("creating-vault"))
    case OpenSuccess => Success(Message("go-to-vault", Some(IdArg(st.id))))
    case OpenWaitingForApproval | OpenWaitingForConfirmation => Success(Key("create-vault"))
    case _ => Failure(UnreachableCaseError(Tag(st.stage)))
  }

  /** The secondary (regress) button's label. */
  function SecondaryButtonText(st: OpenVaultState): (r: Message)
    ensures r.key == "edit-token-allowance" <==> st.stage == AllowanceFailure
    ensures r.key != "edit-token-allowance" ==> r == Key("edit-vault-details")
    ensures r.key == "edit-token-allowance" ==> r.arg == Some(TokenArg(st.token))
  {
    if st.stage == AllowanceFailure then KeyWithToken("edit-token-allowance", st.token)
    else Key("edit-vault-details")
  }

  /** The path the template literal `/${id}` builds: an absent id prints as `undefined`. */
  function VaultPath(id: Option<string>): string {
    "/" + id.GetOr("undefined")
  }

  /**
   * `handleProgress`: prevent the default action, redirect to the new vault's page
   * at `openSuccess` only, then call `progress` (which the source asserts present).
   */
  function HandleProgress(st: OpenVaultState): (r: seq<Effect>)
    requires st.hasProgress
    ensures |r| == 2 || |r| == 3
    ensures |r| == 3 <==> st.stage == OpenSuccess
    ensures r[0] == PreventDefault && r[|r| - 1] == CallProgress
    ensures st.stage == OpenSuccess ==> r[1] == Replace(VaultPath(st.id))
  {
    [PreventDefault]
    + (if st.stage == OpenSuccess then [Replace(VaultPath(st.id))] else [])
    + [CallProgress]
  }

  /** `handleRegress`: prevent the default action and call `regress` (asserted present). */
  function HandleRegress(st: OpenVaultState): (r: seq<Effect>)
    requires st.hasRegress
    ensures r == [PreventDefault, CallRegress]
  {
    [PreventDefault, CallRegress]
  }

  /** What `OpenVaultButton` renders. */
  datatype ButtonsView = ButtonsView(
    primaryDisabled: bool,
    primaryBusy: bool,
    primaryText: Message,
    secondaryText: Option<Message>)

  /**
   * `OpenVaultButton`: the primary button is disabled unless `canProgress`, shows a
   * spinner beside its label while `isLoadingStage`, and the secondary button is
   * rendered only when `canRegress`. An unreachable stage makes rendering throw.
   */
  function Render(st: OpenVaultState): (r: Result<ButtonsView, UnreachableCaseError>)
    ensures r.Success? <==> InButtonVocabulary(st.stage)
    ensures r.Success? ==> r.value.primaryText == PrimaryButtonText(st).value
    ensures r.Success? ==> r.value.primaryDisabled != st.canProgress
    ensures r.Success? ==> r.value.primaryBusy == st.isLoadingStage
    ensures r.Success? ==> r.value.secondaryText.Some? == st.canRegress
    ensures r.Success? && st.canRegress ==> r.value.secondaryText.value == SecondaryButtonText(st)
  {
    match PrimaryButtonText(st)
    case Failure(e) => Failure(e)
    case Success(text) =>
      Success(ButtonsView(
        !st.canProgress,
        st.isLoadingStage,
        text,
        if st.canRegress then Some(SecondaryButtonText(st)) else None))
  }

  // Properties of the primary label.

  /** At `editing`, empty inputs win over every other flag. */
  lemma EditingEmptyInputsFirst(st: OpenVaultState)
    requires st.stage == Editing && st.inputAmountsEmpty
    ensures PrimaryButtonText(st) == Success(Key("enter-an-amount"))
  {
  }

  /** At `editing` with inputs: no proxy, then insufficient allowance, then confirm. */
  lemma EditingPrecedence(st: OpenVaultState)
    requires st.stage == Editing && !st.inputAmountsEmpty
    ensures !Truthy(st.proxyAddress) ==> PrimaryButtonText(st) == Success(Key("setup-proxy"))
    ensures Truthy(st.proxyAddress) && st.insufficientAllowance
            ==> PrimaryButtonText(st) == Success(KeyWithToken("set-token-allowance", st.token))
    ensures Truthy(st.proxyAddress) && !st.insufficientAllowance
            ==> PrimaryButtonText(st) == Success(Key("confirm"))
  {
  }

  /** `proxySuccess` asks for an allowance exactly when it is insufficient. */
  lemma ProxySuccessLabel(st: OpenVaultState)
    requires st.stage == ProxySuccess
    ensures PrimaryButtonText(st).Success?
    ensures PrimaryButtonText(st).value.key == "set-token-allowance" <==> st.insufficientAllowance
    ensures st.insufficientAllowance ==> PrimaryButtonText(st).value == KeyWithToken("set-token-allowance", st.token)
    ensures !st.insufficientAllowance ==> PrimaryButtonText(st).value == Key("continue")
  {
  }

  /** `allowanceWaitingForConfirmation` asks for an amount exactly when the custom amount is empty. */
  lemma AllowanceConfirmationLabel(st: OpenVaultState)
    requires st.stage == AllowanceWaitingForConfirmation
    ensures PrimaryButtonText(st).Success?
    ensures PrimaryButtonText(st).value.key == "enter-allowance-amount" <==> st.customAllowanceAmountEmpty
    ensures !st.customAllowanceAmountEmpty
            ==> PrimaryButtonText(st).value == KeyWithToken("set-token-allowance", st.token)
  {
  }

  /**
   * In the proxy and allowance phases, waiting for approval and running share a
   * label; in the open phase it is waiting for approval and waiting for
   * confirmation that share one.
   */
  lemma SharedLabels(st: OpenVaultState, su: OpenVaultState)
    requires PhaseOf(st.stage) == PhaseOf(su.stage)
    ensures PhaseOf(st.stage) in {ProxyPhase, AllowancePhase}
            && StepOf(st.stage) in {ApprovalWait, InProgress} && StepOf(su.stage) in {ApprovalWait, InProgress}
            ==> PrimaryButtonText(st) == PrimaryButtonText(su)
    ensures PhaseOf(st.stage) == OpenPhase
            && StepOf(st.stage) in {ApprovalWait, ConfirmationWait} && StepOf(su.stage) in {ApprovalWait, ConfirmationWait}
            ==> PrimaryButtonText(st) == PrimaryButtonText(su) == Success(Key("create-vault"))
    ensures PhaseOf(st.stage) == ProxyPhase && StepOf(st.stage) == ApprovalWait
            ==> PrimaryButtonText(st) == Success(Key("creating-proxy"))
    ensures PhaseOf(st.stage) == AllowancePhase && StepOf(st.stage) == ApprovalWait
            ==> PrimaryButtonText(st) == Success(Key("approving-allowance"))
  {
  }

  /** The fixed labels of the proxy confirmation, failure and success stages, and the vault id carried at `openSuccess`. */
  lemma FixedLabels(st: OpenVaultState)
    ensures st.stage == ProxyWaitingForConfirmation ==> PrimaryButtonText(st) == Success(Key("create-proxy-btn"))
    ensures st.stage == ProxyFailure ==> PrimaryButtonText(st) == Success(Key("retry-create-proxy"))
    ensures st.stage == AllowanceFailure ==> PrimaryButtonText(st) == Success(Key("retry-allowance-approval"))
    ensures st.stage == OpenFailure ==> PrimaryButtonText(st) == Success(Key("retry"))
    ensures st.stage == AllowanceSuccess ==> PrimaryButtonText(st) == Success(Key("continue"))
    ensures st.stage == OpenInProgress ==> PrimaryButtonText(st) == Success(Key("creating-vault"))
    ensures st.stage == OpenSuccess ==> PrimaryButtonText(st) == Success(Message("go-to-vault", Some(IdArg(st.id))))
  {
  }

  /** The label depends on the flags only at `editing`, `proxySuccess` and `allowanceWaitingForConfirmation`. */
  lemma LabelIgnoresFlagsElsewhere(st: OpenVaultState, su: OpenVaultState)
    requires st.stage == su.stage && st.id == su.id
    requires st.stage !in {Editing, ProxySuccess, AllowanceWaitingForConfirmation}
    ensures PrimaryButtonText(st) == PrimaryButtonText(su)
  {
  }

  /** `allowanceFiasco`, the view's name for the failed allowance, still gets the vault-details label. */
  lemma FiascoIsNotAllowanceFailure(st: OpenVaultState)
    requires st.stage == AllowanceFiasco
    ensures SecondaryButtonText(st) == Key("edit-vault-details")
    ensures PrimaryButtonText(st).Failure?
  {
  }
}
