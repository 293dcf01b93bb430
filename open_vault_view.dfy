/**
 * The open-vault wizard's panel selection (features/openVault/OpenVaultView.tsx):
 * a total grouping of stages into four panels, with "no panel" as the fallback,
 * and the proxy panel's per-stage content.
 */
module OpenVaultView {
  import opened Wrappers
  import opened OpenVault
  import OpenVaultButton

  /** What `OpenVaultProxyFlow` renders: the create-proxy button, or the bare stage name. */
  datatype ProxyFlowContent = CreateProxyButton | StageName(name: string)

  datatype Panel =
    | ProxyPanel(content: ProxyFlowContent)
    | AllowancePanel
    | EditingPanel
    | TransactionPanel

  /** `OpenVaultProxyFlow`: only `proxyWaitingForConfirmation` offers the create-proxy action. */
  function ProxyFlow(stage: Stage): (r: ProxyFlowContent)
    ensures r == CreateProxyButton <==> stage == ProxyWaitingForConfirmation
    ensures r != CreateProxyButton ==> r == StageName(Tag(stage))
  {
    if stage == ProxyWaitingForConfirmation then CreateProxyButton
    else if stage == ProxyWaitingForApproval then StageName(Tag(stage))
    else if stage == ProxyInProgress then StageName(Tag(stage))
    else StageName(Tag(stage))
  }

  /** The panel that goes with each phase. */
  function PhasePanel(p: Phase, stage: Stage): Option<Panel> {
    match p
    case ProxyPhase => Some(ProxyPanel(ProxyFlow(stage)))
    case AllowancePhase => Some(AllowancePanel)
    case EditingPhase => Some(EditingPanel)
    case TransactionPhase => Some(TransactionPanel)
    case OpenPhase => None
  }

  /**
   * `OpenVaultView`: the panel for a stage. Total: a stage the switch does not list
   * gets no panel, never an error; a listed stage gets its phase's panel.
   */
  function PanelFor(stage: Stage): (r: Option<Panel>)
    ensures r.Some? <==> InViewVocabulary(stage)
    ensures r.Some? ==> r == PhasePanel(PhaseOf(stage), stage)
  {
    match stage
    case ProxyWaitingForConfirmation | ProxyWaitingForApproval | ProxyInProgress | ProxyFiasco =>
      Some(ProxyPanel(ProxyFlow(stage)))
    case AllowanceWaitingForConfirmation | AllowanceWaitingForApproval | AllowanceInProgress | AllowanceFiasco =>
      Some(AllowancePanel)
    case EditingWaitingToContinue | Editing =>
      Some(EditingPanel)
    case TransactionWaitingForConfirmation | TransactionWaitingForApproval | TransactionInProgress
       | TransactionFiasco | TransactionSuccess =>
      Some(TransactionPanel)
    case _ => None
  }

  /**
   * `handleProxyCreate` as written: `e.preventDefault` is read but never called,
   * so the click only calls `createProxy` (which the view asserts present).
   */
  function HandleProxyCreateAsWritten(st: OpenVaultState): (r: seq<Effect>)
    requires st.hasCreateProxy
    ensures r == [CallCreateProxy]
  {
    [CallCreateProxy]
  }

  /** `handleProxyCreate` as evidently intended: prevent the default action, then create the proxy. */
  function HandleProxyCreate(st: OpenVaultState): (r: seq<Effect>)
    requires st.hasCreateProxy
    ensures |r| == 2 && r[0] == PreventDefault && r[1] == CallCreateProxy
  {
    [PreventDefault, CallCreateProxy]
  }

  /** The handler as written never prevents the default action, unlike the button's two handlers. */
  lemma ProxyCreateAsWrittenKeepsDefault(st: OpenVaultState)
    requires st.hasProgress && st.hasRegress && st.hasCreateProxy
    ensures PreventDefault !in HandleProxyCreateAsWritten(st)
    ensures OpenVaultButton.HandleProgress(st)[0] == PreventDefault
    ensures OpenVaultButton.HandleRegress(st)[0] == PreventDefault
  {
  }

  /** With the correction, every wizard handler prevents the default action before its call. */
  lemma HandlersPreventDefaultFirst(st: OpenVaultState)
    requires st.hasProgress && st.hasRegress && st.hasCreateProxy
    ensures HandleProxyCreate(st)[0] == PreventDefault
    ensures OpenVaultButton.HandleProgress(st)[0] == PreventDefault
    ensures OpenVaultButton.HandleRegress(st)[0] == PreventDefault
  {
  }

  // The two vocabularies side by side.

  /** Every stage of the union is understood by the button or by the view (or both). */
  lemma EveryStageHandledSomewhere(st: OpenVaultState)
    ensures OpenVaultButton.PrimaryButtonText(st).Success? || PanelFor(st.stage).Some?
  {
  }

  /**
   * The stages both switches list are the editing stage and the waiting and running
   * stages of the proxy and allowance phases.
   */
  lemma SharedVocabulary(st: OpenVaultState)
    ensures OpenVaultButton.PrimaryButtonText(st).Success? && PanelFor(st.stage).Some?
            <==> st.stage == Editing
                 || (PhaseOf(st.stage) in {ProxyPhase, AllowancePhase}
                     && StepOf(st.stage) in {ConfirmationWait, ApprovalWait, InProgress})
  {
  }

  /** `openSuccess` has a label but no panel; `transactionSuccess` has a panel but no label. */
  lemma SuccessStagesDisagree(st: OpenVaultState, su: OpenVaultState)
    requires st.stage == OpenSuccess && su.stage == TransactionSuccess
    ensures OpenVaultButton.PrimaryButtonText(st).Success? && PanelFor(st.stage).None?
    ensures OpenVaultButton.PrimaryButtonText(su).Failure? && PanelFor(su.stage) == Some(TransactionPanel)
  {
  }

  /** The button's failure stages and the proxy and allowance success stages have no panel. */
  lemma ButtonOnlyStagesHaveNoPanel(s: Stage)
    requires StepOf(s) in {Failed, Succeeded} && PhaseOf(s) != TransactionPhase
    ensures PanelFor(s).None?
  {
  }

  /** The view's `Fiasco` stages group with their phase, and the button rejects them. */
  lemma FiascoStages(st: OpenVaultState)
    requires StepOf(st.stage) == Fiasco
    ensures OpenVaultButton.PrimaryButtonText(st).Failure?
    ensures st.stage == ProxyFiasco ==> PanelFor(st.stage) == Some(ProxyPanel(StageName("proxyFiasco")))
    ensures st.stage == AllowanceFiasco ==> PanelFor(st.stage) == Some(AllowancePanel)
    ensures st.stage == TransactionFiasco ==> PanelFor(st.stage) == Some(TransactionPanel)
  {
  }
}
