/** The snapshot the header reads on every render. Everything the component
    obtains from a store subscription or from an imported helper whose code is
    not part of this model is a plain field here. */
module Snapshot {
  import opened Wrappers

  type AccountID = int
  type ID = string
  type Route = string

  datatype PolicyType = Personal | Team | Corporate
  datatype PolicyRole = Admin | Auditor | User
  datatype ArchiveReason = BookingEndDateHasPassed | OtherArchiveReason

  /** The expense report being looked at (`moneyRequestReport`). */
  datatype Report = Report(reportID: ID, ownerAccountID: Option<AccountID>, managerID: Option<AccountID>)

  /** The report action that created the transaction thread
      (`requestParentReportAction`); the booleans are the results of
      `isDeletedAction`, `isMoneyRequestAction` and `isTrackExpenseAction`. */
  datatype ParentAction = ParentAction(
    actorAccountID: Option<AccountID>,
    isDeleted: bool,
    isMoneyRequest: bool,
    isTrackExpense: bool,
    originalIouTransactionID: Option<ID>)

  /** One transaction of the report, with the per-transaction helper results
      the component folds over. */
  datatype Transaction = Transaction(
    transactionID: ID,
    isExpensifyCard: bool,
    isPending: bool,
    isReceiptBeingScanned: bool)

  /** What `getNonHeldAndFullAmount` returns: two formatted amounts and whether
      the non-held one is meaningful. */
  datatype Amounts = Amounts(nonHeldAmount: string, fullAmount: string, hasValidNonHeldAmount: bool)

  datatype Inputs = Inputs(
    // store entries and props
    report: Option<Report>,
    hasChatReport: bool,
    // `transactionThreadReport?.reportID`: the ID of the loaded thread report,
    // absent while that report has not loaded
    threadReportID: Option<ID>,
    parentAction: Option<ParentAction>,
    sessionAccountID: Option<AccountID>,
    currentUserAccountID: AccountID,
    policyType: Option<PolicyType>,
    policyRole: Option<PolicyRole>,
    connectedIntegration: Option<string>,
    archiveReason: Option<ArchiveReason>,
    nextStepMessage: seq<string>,
    allTransactions: seq<Transaction>,
    receiptTransactions: seq<Transaction>,
    isDelegateAccessRestricted: bool,
    // results of helpers from the report, transaction, policy and IOU libraries
    reimbursableSpend: int,
    formattedAmount: string,
    amountsFor: bool -> Amounts,
    canDeleteTransaction: bool,
    hasUpdatedTotal: bool,
    isOpenExpenseReport: bool,
    hasHeldExpenses: bool,
    hasOnlyHeldExpenses: bool,
    allHavePendingRTERViolation: bool,
    shouldShowBrokenConnectionViolation: bool,
    isPayAtEndExpense: bool,
    isArchivedReport: bool,
    canIOUBePaid: bool,
    canIOUBePaidElsewhere: bool,
    isPolicyAdmin: bool,
    isCurrentUserSubmitter: bool,
    canApproveIOU: bool,
    isAllowedToApproveExpenseReport: bool,
    isAllowedToSubmitDraftExpenseReport: bool,
    canBeExported: bool,
    isClosedExpenseReportWithNoExpenses: bool,
    isDuplicate: bool,
    isInvoiceReport: bool)

  /** JavaScript truthiness of an optional identifier: `undefined` and the
      empty string are both falsy. */
  predicate IsTruthy(id: Option<ID>) {
    id.Some? && id.value != ""
  }

  /** The transaction ID carried by the parent action's original message; only
      a money-request action has one. */
  function IouTransactionID(a: ParentAction): Option<ID> {
    if a.isMoneyRequest then a.originalIouTransactionID else None
  }

  /** `moneyRequestReport?.reportID` */
  function ReportID(s: Inputs): Option<ID> {
    if s.report.Some? then Some(s.report.value.reportID) else None
  }
}
