/** Which action buttons the header shows, which of them are disabled, and
    which amount it displays: the flag derivations of the component, computed
    afresh from one snapshot. */
module Eligibility {
  import opened Wrappers
  import opened Snapshot
  import opened Aggregates

  /** Only the account that created the request may delete it, and only while
      the report allows deletion and the creating action is not deleted. */
  function CanDeleteRequest(s: Inputs): (r: bool)
    ensures r ==> s.parentAction.Some? && !s.parentAction.value.isDeleted && s.canDeleteTransaction
    ensures r ==> s.sessionAccountID.Some? && s.parentAction.value.actorAccountID == s.sessionAccountID
    ensures (s.parentAction.Some? && !s.parentAction.value.isDeleted && s.canDeleteTransaction
             && s.sessionAccountID.Some? && s.parentAction.value.actorAccountID == s.sessionAccountID) ==> r
  {
    var isActionOwner := s.parentAction.Some? && s.parentAction.value.actorAccountID.Some?
      && s.sessionAccountID.Some? && s.parentAction.value.actorAccountID == s.sessionAccountID;
    var isDeletedParentAction := s.parentAction.Some? && s.parentAction.value.isDeleted;
    isActionOwner && s.canDeleteTransaction && !isDeletedParentAction
  }

  /** The payer can only settle outside the app. */
  function OnlyShowPayElsewhere(s: Inputs): (r: bool)
    ensures s.canIOUBePaid ==> !r
    ensures r ==> s.canIOUBePaidElsewhere
    ensures !s.canIOUBePaid && s.canIOUBePaidElsewhere ==> r
  {
    !s.canIOUBePaid && s.canIOUBePaidElsewhere
  }

  function ShowPayButton(s: Inputs): (r: bool)
    ensures r <==> s.canIOUBePaid || s.canIOUBePaidElsewhere
    ensures OnlyShowPayElsewhere(s) ==> r
    ensures r && !s.canIOUBePaid ==> OnlyShowPayElsewhere(s)
  {
    s.canIOUBePaid || OnlyShowPayElsewhere(s)
  }

  /** Approval is offered when the IOU rules allow it, unless the report holds
      pending card transactions only. */
  function ShowApproveButton(s: Inputs): (r: bool)
    ensures r <==> (s.canApproveIOU &&
      !(|s.allTransactions| > 0 &&
        forall i :: 0 <= i < |s.allTransactions| ==> s.allTransactions[i].isExpensifyCard && s.allTransactions[i].isPending))
  {
    s.canApproveIOU && !HasOnlyPendingTransactions(s.allTransactions)
  }

  /** A shown approve button is disabled exactly when the user may not approve. */
  function DisableApproveButton(s: Inputs): (r: bool)
    ensures r ==> ShowApproveButton(s)
    ensures ShowApproveButton(s) ==> (r <==> !s.isAllowedToApproveExpenseReport)
  {
    ShowApproveButton(s) && !s.isAllowedToApproveExpenseReport
  }

  function IsAdmin(s: Inputs): bool {
    s.policyRole == Some(Admin)
  }

  /** The current user owns or manages the report, or administers its policy. */
  predicate MayActOnReport(s: Inputs)
    requires s.report.Some?
  {
    s.report.value.ownerAccountID == Some(s.currentUserAccountID)
    || IsAdmin(s)
    || s.report.value.managerID == Some(s.currentUserAccountID)
  }

  /** Submission needs an open, non-archived report with a non-zero
      reimbursable total, no pending-match or broken-connection violation, and
      a user who owns, manages or administers it. */
  function ShowSubmitButton(s: Inputs): (r: bool)
    ensures r ==> s.report.Some? && !s.isArchivedReport && s.isOpenExpenseReport && s.reimbursableSpend != 0
    ensures r ==> !s.allHavePendingRTERViolation && !s.shouldShowBrokenConnectionViolation && MayActOnReport(s)
    ensures (s.report.Some? && !s.isArchivedReport && s.isOpenExpenseReport && s.reimbursableSpend != 0
             && !s.allHavePendingRTERViolation && !s.shouldShowBrokenConnectionViolation && MayActOnReport(s)) ==> r
  {
    s.report.Some?
    && !s.isArchivedReport
    && s.isOpenExpenseReport
    && s.reimbursableSpend != 0
    && !s.allHavePendingRTERViolation
    && !s.shouldShowBrokenConnectionViolation
    && (s.report.value.ownerAccountID == Some(s.currentUserAccountID) || IsAdmin(s)
        || s.report.value.managerID == Some(s.currentUserAccountID))
  }

  /** A shown submit button is disabled exactly when the user may not submit
      the draft. */
  function DisableSubmitButton(s: Inputs): (r: bool)
    ensures r ==> ShowSubmitButton(s)
    ensures ShowSubmitButton(s) ==> (r <==> !s.isAllowedToSubmitDraftExpenseReport)
  {
    ShowSubmitButton(s) && !s.isAllowedToSubmitDraftExpenseReport
  }

  /** Export to the connected accounting integration replaces the pay and
      submit buttons, and is offered to policy admins only. */
  function ShowExportIntegrationButton(s: Inputs): (r: bool)
    ensures r ==> !ShowPayButton(s) && !ShowSubmitButton(s)
    ensures r ==> IsAdmin(s) && s.connectedIntegration.Some? && s.canBeExported
    ensures (!ShowPayButton(s) && !ShowSubmitButton(s) && IsAdmin(s) && s.connectedIntegration.Some?
             && s.canBeExported) ==> r
  {
    !ShowPayButton(s) && !ShowSubmitButton(s) && s.connectedIntegration.Some? && IsAdmin(s) && s.canBeExported
  }

  /** The settlement button carries pay and approve; it gives way to the export
      button and to pending-match and broken-connection violations. */
  function ShowSettlementButton(s: Inputs): (r: bool)
    ensures r ==> !ShowExportIntegrationButton(s)
    ensures r ==> (ShowPayButton(s) || ShowApproveButton(s))
    ensures r ==> !s.allHavePendingRTERViolation && !s.shouldShowBrokenConnectionViolation
    ensures ((ShowPayButton(s) || ShowApproveButton(s)) && !s.allHavePendingRTERViolation
             && !s.shouldShowBrokenConnectionViolation && !ShowExportIntegrationButton(s)) ==> r
  {
    (ShowPayButton(s) || ShowApproveButton(s)) && !s.allHavePendingRTERViolation
    && !ShowExportIntegrationButton(s) && !s.shouldShowBrokenConnectionViolation
  }

  /** True when any condition that calls for a status banner holds. */
  function ShowStatusBar(s: Inputs): (r: bool)
    ensures r <==>
      (s.allHavePendingRTERViolation || s.shouldShowBrokenConnectionViolation || s.hasOnlyHeldExpenses
       || (exists i :: 0 <= i < |s.receiptTransactions| && s.receiptTransactions[i].isReceiptBeingScanned)
       || s.isPayAtEndExpense
       || (|s.allTransactions| > 0 &&
           forall i :: 0 <= i < |s.allTransactions| ==> s.allTransactions[i].isExpensifyCard && s.allTransactions[i].isPending))
  {
    s.allHavePendingRTERViolation || s.shouldShowBrokenConnectionViolation || s.hasOnlyHeldExpenses
    || SomeReceiptBeingScanned(s.receiptTransactions) || s.isPayAtEndExpense
    || HasOnlyPendingTransactions(s.allTransactions)
  }

  /** Mark-as-cash resolves a pending-match violation, or a broken connection
      for a non-admin or for the submitter. When it shows, submit and
      settlement do not, and a status banner is called for. */
  function ShowMarkAsCashButton(s: Inputs): (r: bool)
    ensures r <==> (s.allHavePendingRTERViolation
                    || (s.shouldShowBrokenConnectionViolation && (!s.isPolicyAdmin || s.isCurrentUserSubmitter)))
    ensures r ==> !ShowSubmitButton(s) && !ShowSettlementButton(s) && ShowStatusBar(s)
  {
    s.allHavePendingRTERViolation
    || (s.shouldShowBrokenConnectionViolation && (!s.isPolicyAdmin || s.isCurrentUserSubmitter))
  }

  function IsFromPaidPolicy(s: Inputs): bool {
    s.policyType == Some(Team) || s.policyType == Some(Corporate)
  }

  /** The next-step advisory shows on a paid policy with a non-empty message,
      unless the report is closed and empty or a status banner is called for. */
  function ShowNextStep(s: Inputs): (r: bool)
    ensures r ==> !ShowStatusBar(s) && !s.isClosedExpenseReportWithNoExpenses && |s.nextStepMessage| > 0
    ensures r ==> s.policyType == Some(Team) || s.policyType == Some(Corporate)
    ensures (!ShowStatusBar(s) && !s.isClosedExpenseReportWithNoExpenses && |s.nextStepMessage| > 0
             && IsFromPaidPolicy(s)) ==> r
  {
    !s.isClosedExpenseReportWithNoExpenses && IsFromPaidPolicy(s) && |s.nextStepMessage| > 0 && !ShowStatusBar(s)
  }

  /** The amount shown on the settlement button: the non-held amount when some
      expense is held, the total can be trusted and a valid non-held amount
      exists; otherwise the formatted reimbursable total. */
  function DisplayedAmount(s: Inputs): (r: string)
    ensures var a := s.amountsFor(ShowPayButton(s));
      s.hasHeldExpenses && s.hasUpdatedTotal && a.hasValidNonHeldAmount ==> r == a.nonHeldAmount
    ensures var a := s.amountsFor(ShowPayButton(s));
      !(s.hasHeldExpenses && s.hasUpdatedTotal && a.hasValidNonHeldAmount) ==> r == s.formattedAmount
  {
    var amounts := s.amountsFor(ShowPayButton(s));
    var isAnyTransactionOnHold := s.hasHeldExpenses;
    if isAnyTransactionOnHold && s.hasUpdatedTotal && amounts.hasValidNonHeldAmount then amounts.nonHeldAmount
    else s.formattedAmount
  }

  datatype SettlementButtonProps = SettlementButtonProps(
    shouldUseSuccessStyle: bool,
    onlyShowPayElsewhere: bool,
    shouldHidePaymentOptions: bool,
    shouldShowApproveButton: bool,
    shouldDisableApproveButton: bool,
    formattedAmount: string,
    isDisabled: bool,
    isLoading: bool)

  /** The decision-bearing props handed to the settlement button. Offline with
      a stale total disables it; online with a stale total shows it loading. */
  function SettlementButton(s: Inputs, isOffline: bool): (p: SettlementButtonProps)
    ensures !(p.isDisabled && p.isLoading)
    ensures p.isDisabled || p.isLoading <==> !s.hasUpdatedTotal
    ensures p.isDisabled <==> isOffline && !s.hasUpdatedTotal
    ensures p.isLoading <==> !isOffline && !s.hasUpdatedTotal
    ensures p.shouldHidePaymentOptions <==> !ShowPayButton(s)
    ensures p.onlyShowPayElsewhere == OnlyShowPayElsewhere(s)
    ensures p.shouldShowApproveButton == ShowApproveButton(s)
    ensures p.shouldDisableApproveButton == DisableApproveButton(s)
    ensures p.shouldUseSuccessStyle <==> !s.hasHeldExpenses
    ensures s.hasOnlyHeldExpenses ==> p.formattedAmount == ""
    ensures !s.hasOnlyHeldExpenses ==> p.formattedAmount == DisplayedAmount(s)
    ensures p.shouldHidePaymentOptions ==> !p.onlyShowPayElsewhere
    ensures p.shouldDisableApproveButton ==> p.shouldShowApproveButton
  {
    SettlementButtonProps(
      !s.hasHeldExpenses,
      OnlyShowPayElsewhere(s),
      !ShowPayButton(s),
      ShowApproveButton(s),
      DisableApproveButton(s),
      if !s.hasOnlyHeldExpenses then DisplayedAmount(s) else "",
      isOffline && !s.hasUpdatedTotal,
      !isOffline && !s.hasUpdatedTotal)
  }

  datatype HoldMenuProps = HoldMenuProps(nonHeldAmount: Option<string>, fullAmount: string, transactionCount: nat)

  /** The amounts and transaction count handed to the hold menu. */
  function HoldMenu(s: Inputs): (p: HoldMenuProps)
    ensures var a := s.amountsFor(ShowPayButton(s));
      p.nonHeldAmount.Some? <==> !s.hasOnlyHeldExpenses && a.hasValidNonHeldAmount
    ensures var a := s.amountsFor(ShowPayButton(s));
      p.fullAmount == a.fullAmount && (p.nonHeldAmount.Some? ==> p.nonHeldAmount.value == a.nonHeldAmount)
    ensures p.transactionCount == |s.allTransactions|
  {
    var a := s.amountsFor(ShowPayButton(s));
    var transactionIDs := TransactionIds(s.allTransactions);
    HoldMenuProps(
      if !s.hasOnlyHeldExpenses && a.hasValidNonHeldAmount then Some(a.nonHeldAmount) else None,
      a.fullAmount,
      |transactionIDs|)
  }
}
