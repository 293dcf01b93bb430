/**
 * The open-vault wizard's state as this core sees it: the stage tag and the
 * control flags of an `OpenVaultState` snapshot, and the effects its handlers emit.
 *
 * The button and the view name the stages differently: the button speaks of
 * `proxyFailure`, `allowanceFailure` and `open*`, the view of `proxyFiasco`,
 * `allowanceFiasco`, `transaction*` and `editingWaitingToContinue`. `Stage` is
 * the union of both vocabularies.
 */
module OpenVault {
  import opened Wrappers

  datatype Stage =
    | Editing
    | EditingWaitingToContinue
    | ProxyWaitingForConfirmation
    | ProxyWaitingForApproval
    | ProxyInProgress
    | ProxyFailure
    | ProxyFiasco
    | ProxySuccess
    | AllowanceWaitingForConfirmation
    | AllowanceWaitingForApproval
    | AllowanceInProgress
    | AllowanceFailure
    | AllowanceFiasco
    | AllowanceSuccess
    | OpenWaitingForConfirmation
    | OpenWaitingForApproval
    | OpenInProgress
    | OpenFailure
    | OpenSuccess
    | TransactionWaitingForConfirmation
    | TransactionWaitingForApproval
    | TransactionInProgress
    | TransactionFiasco
    | TransactionSuccess

  /** The string literal the source uses for a stage. */
  function Tag(s: Stage): string {
    match s
    case Editing => "editing"
    case EditingWaitingToContinue => "editingWaitingToContinue"
    case ProxyWaitingForConfirmation => "proxyWaitingForConfirmation"
    case ProxyWaitingForApproval => "proxyWaitingForApproval"
    case ProxyInProgress => "proxyInProgress"
    case ProxyFailure => "proxyFailure"
    case ProxyFiasco => "proxyFiasco"
    case ProxySuccess => "proxySuccess"
    case AllowanceWaitingForConfirmation => "allowanceWaitingForConfirmation"
    case AllowanceWaitingForApproval => "allowanceWaitingForApproval"
    case AllowanceInProgress => "allowanceInProgress"
    case AllowanceFailure => "allowanceFailure"
    case AllowanceFiasco => "allowanceFiasco"
    case AllowanceSuccess => "allowanceSuccess"
    case OpenWaitingForConfirmation => "openWaitingForConfirmation"
    case OpenWaitingForApproval => "openWaitingForApproval"
    case OpenInProgress => "openInProgress"
    case OpenFailure => "openFailure"
    case OpenSuccess => "openSuccess"
    case TransactionWaitingForConfirmation => "transactionWaitingForConfirmation"
    case TransactionWaitingForApproval => "transactionWaitingForApproval"
    case TransactionInProgress => "transactionInProgress"
    case TransactionFiasco => "transactionFiasco"
    case TransactionSuccess => "transactionSuccess"
  }

  /** The four wizard phases of the button's vocabulary, and the view's transaction phase. */
  datatype Phase = EditingPhase | ProxyPhase | AllowancePhase | OpenPhase | TransactionPhase

  /** The position of a stage inside its phase. */
  datatype Step =
    | Entry
    | ContinueWait
    | ConfirmationWait
    | ApprovalWait
    | InProgress
    | Failed
    | Fiasco
    | Succeeded

  function PhaseOf(s: Stage): Phase {
    match s
    case Editing | EditingWaitingToContinue => EditingPhase
    case ProxyWaitingForConfirmation | ProxyWaitingForApproval | ProxyInProgress
       | ProxyFailure | ProxyFiasco | ProxySuccess => ProxyPhase
    case AllowanceWaitingForConfirmation | AllowanceWaitingForApproval | AllowanceInProgress
       | AllowanceFailure | AllowanceFiasco | AllowanceSuccess => AllowancePhase
    case OpenWaitingForConfirmation | OpenWaitingForApproval | OpenInProgress
       | OpenFailure | OpenSuccess => OpenPhase
    case TransactionWaitingForConfirmation | TransactionWaitingForApproval | TransactionInProgress
       | TransactionFiasco | TransactionSuccess => TransactionPhase
  }

  function StepOf(s: Stage): Step {
    match s
    case Editing => Entry
    case EditingWaitingToContinue => ContinueWait
    case ProxyWaitingForConfirmation | AllowanceWaitingForConfirmation
       | OpenWaitingForConfirmation | TransactionWaitingForConfirmation => ConfirmationWait
    case ProxyWaitingForApproval | AllowanceWaitingForApproval
       | OpenWaitingForApproval | TransactionWaitingForApproval => ApprovalWait
    case ProxyInProgress | AllowanceInProgress | OpenInProgress | TransactionInProgress => InProgress
    case ProxyFailure | AllowanceFailure | OpenFailure => Failed
    case ProxyFiasco | AllowanceFiasco | TransactionFiasco => Fiasco
    case ProxySuccess | AllowanceSuccess | OpenSuccess | TransactionSuccess => Succeeded
  }

  /** The stage at a given phase and step, if the union of both vocabularies has one. */
  function StageAt(p: Phase, t: Step): (r: Option<Stage>)
    ensures r.Some? ==> PhaseOf(r.value) == p && StepOf(r.value) == t
  {
    match (p, t)
    case (EditingPhase, Entry) => Some(Editing)
    case (EditingPhase, ContinueWait) => Some(EditingWaitingToContinue)
    case (ProxyPhase, ConfirmationWait) => Some(ProxyWaitingForConfirmation)
    case (ProxyPhase, ApprovalWait) => Some(ProxyWaitingForApproval)
    case (ProxyPhase, InProgress) => Some(ProxyInProgress)
    case (ProxyPhase, Failed) => Some(ProxyFailure)
    case (ProxyPhase, Fiasco) => Some(ProxyFiasco)
    case (ProxyPhase, Succeeded) => Some(ProxySuccess)
    case (AllowancePhase, ConfirmationWait) => Some(AllowanceWaitingForConfirmation)
    case (AllowancePhase, ApprovalWait) => Some(AllowanceWaitingForApproval)
    case (AllowancePhase, InProgress) => Some(AllowanceInProgress)
    case (AllowancePhase, Failed) => Some(AllowanceFailure)
    case (AllowancePhase, Fiasco) => Some(AllowanceFiasco)
    case (AllowancePhase, Succeeded) => Some(AllowanceSuccess)
    case (OpenPhase, ConfirmationWait) => Some(OpenWaitingForConfirmation)
    case (OpenPhase, ApprovalWait) => Some(OpenWaitingForApproval)
    case (OpenPhase, InProgress) => Some(OpenInProgress)
    case (OpenPhase, Failed) => Some(OpenFailure)
    case (OpenPhase, Succeeded) => Some(OpenSuccess)
    case (TransactionPhase, ConfirmationWait) => Some(TransactionWaitingForConfirmation)
    case (TransactionPhase, ApprovalWait) => Some(TransactionWaitingForApproval)
    case (TransactionPhase, InProgress) => Some(TransactionInProgress)
    case (TransactionPhase, Fiasco) => Some(TransactionFiasco)
    case (TransactionPhase, Succeeded) => Some(TransactionSuccess)
    case _ => None
  }

  /** A stage is exactly one (phase, step) pair: the pair determines the stage. */
  lemma StageIsPhaseAndStep(s: Stage)
    ensures StageAt(PhaseOf(s), StepOf(s)) == Some(s)
  {
  }

  /**
   * A fact about the (phase, step) encoding itself: it is injective, so a rule stated
   * over phases and steps (as the two vocabularies are) picks out stages unambiguously.
   */
  lemma PhaseAndStepDetermineStage(s: Stage, u: Stage)
    requires PhaseOf(s) == PhaseOf(u) && StepOf(s) == StepOf(u)
    ensures s == u
  {
    StageIsPhaseAndStep(s);
    StageIsPhaseAndStep(u);
  }

  /**
   * The stages `openVaultPrimaryButtonText` lists: the editing, proxy, allowance
   * and open phases, with `Failure` and never `Fiasco`.
   */
  predicate InButtonVocabulary(s: Stage) {
    PhaseOf(s) != TransactionPhase && StepOf(s) != ContinueWait && StepOf(s) != Fiasco
  }

  /**
   * The stages `OpenVaultView` lists: both editing stages, the waiting, running and
   * `Fiasco` stages of the proxy and allowance phases, and the whole transaction phase.
   */
  predicate InViewVocabulary(s: Stage) {
    match PhaseOf(s)
    case EditingPhase | TransactionPhase => true
    case ProxyPhase | AllowancePhase => StepOf(s) in {ConfirmationWait, ApprovalWait, InProgress, Fiasco}
    case OpenPhase => false
  }

  /** The control part of an `OpenVaultState` snapshot. */
  datatype OpenVaultState = OpenVaultState(
    stage: Stage,
    id: Option<string>,
    token: string,
    proxyAddress: Option<string>,
    insufficientAllowance: bool,
    inputAmountsEmpty: bool,
    customAllowanceAmountEmpty: bool,
    canProgress: bool,
    canRegress: bool,
    isLoadingStage: bool,
    hasProgress: bool,
    hasRegress: bool,
    hasCreateProxy: bool)

  /** JavaScript truthiness of an optional string: `undefined` and `""` are falsy. */
  predicate Truthy(s: Option<string>) {
    s.Some? && s.value != ""
  }

  /** What an event handler does, in order. */
  datatype Effect =
    | PreventDefault
    | Replace(path: string)
    | CallProgress
    | CallRegress
    | CallCreateProxy
}
