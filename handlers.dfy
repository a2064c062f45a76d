/** The header's transient UI state and the handlers that update it. The
    operations the handlers hand off to (pay, approve, delete, mark as cash)
    are not performed: each call is recorded as a `Command`. */
module Handlers {
  import opened Wrappers
  import opened Snapshot
  import opened Eligibility

  datatype PaymentMethod = Elsewhere | Expensify | Vbba

  /** What the hold menu is resolving (`ActionHandledType`). */
  datatype RequestType = Pay | Approve

  /** A call to one of the operations the header hands off to. Arguments the
      operation takes from the snapshot unchanged (the reports, the parent
      action, the constant `true` flags) are not repeated here. */
  datatype Command =
    | PayInvoice(paymentType: PaymentMethod, payAsBusiness: Option<bool>)
    | PayMoneyRequest(paymentType: PaymentMethod)
    | ApproveMoneyRequest
    | DeleteTrackExpense(reportID: Option<ID>, transactionID: Option<ID>)
    | DeleteMoneyRequest(transactionID: Option<ID>)
    | MarkAsCash(cashTransactionID: ID, threadReportID: ID)

  /** What a pay or approve request leads to. */
  datatype Response = Ignore | OpenNoDelegateAccess | OpenHoldMenu | Run(command: Command)

  /** The precedence of a payment request: a missing method or chat report
      ignores it; otherwise a delegate restriction wins, then a held expense,
      and only then is the report paid, as an invoice or as a money request. */
  function PaymentResponse(s: Inputs, payType: Option<PaymentMethod>, payAsBusiness: Option<bool>): (r: Response)
    ensures r == Ignore <==> payType.None? || !s.hasChatReport
    ensures r == OpenNoDelegateAccess <==> r != Ignore && s.isDelegateAccessRestricted
    ensures r == OpenHoldMenu <==> r != Ignore && !s.isDelegateAccessRestricted && s.hasHeldExpenses
    ensures r.Run? <==> r != Ignore && !s.isDelegateAccessRestricted && !s.hasHeldExpenses
    ensures r.Run? ==> r.command == if s.isInvoiceReport then PayInvoice(payType.value, payAsBusiness)
                                     else PayMoneyRequest(payType.value)
  {
    if payType.None? || !s.hasChatReport then Ignore
    else if s.isDelegateAccessRestricted then OpenNoDelegateAccess
    else if s.hasHeldExpenses then OpenHoldMenu
    else if s.isInvoiceReport then Run(PayInvoice(payType.value, payAsBusiness))
    else Run(PayMoneyRequest(payType.value))
  }

  /** The precedence of an approval request: never ignored; a delegate
      restriction wins, then a held expense, and only then is it approved. */
  function ApprovalResponse(s: Inputs): (r: Response)
    ensures r != Ignore
    ensures s.isDelegateAccessRestricted <==> r == OpenNoDelegateAccess
    ensures r == OpenHoldMenu <==> !s.isDelegateAccessRestricted && s.hasHeldExpenses
    ensures r.Run? <==> !s.isDelegateAccessRestricted && !s.hasHeldExpenses
    ensures r.Run? ==> r.command == ApproveMoneyRequest
  {
    if s.isDelegateAccessRestricted then OpenNoDelegateAccess
    else if s.hasHeldExpenses then OpenHoldMenu
    else Run(ApproveMoneyRequest)
  }

  /** A payment that is not ignored meets the same gates as an approval. */
  lemma PaymentAndApprovalSharePrecedence(s: Inputs, payType: Option<PaymentMethod>, payAsBusiness: Option<bool>)
    requires payType.Some? && s.hasChatReport
    ensures PaymentResponse(s, payType, payAsBusiness) == OpenNoDelegateAccess <==> ApprovalResponse(s) == OpenNoDelegateAccess
    ensures PaymentResponse(s, payType, payAsBusiness) == OpenHoldMenu <==> ApprovalResponse(s) == OpenHoldMenu
    ensures PaymentResponse(s, payType, payAsBusiness).Run? <==> ApprovalResponse(s).Run?
  {
  }

  /** The deletion to run on confirm: none without a parent action; a track
      expense is deleted with the report ID, anything else as a money request;
      the transaction ID is the money-request one, if any. */
  function DeleteCommand(s: Inputs): (r: Option<Command>)
    ensures r.Some? <==> s.parentAction.Some?
    ensures r.Some? ==> (r.value.DeleteTrackExpense? <==> s.parentAction.value.isTrackExpense)
    ensures r.Some? ==> r.value.DeleteTrackExpense? || r.value.DeleteMoneyRequest?
    ensures r.Some? ==> r.value.transactionID == IouTransactionID(s.parentAction.value)
    ensures r.Some? && r.value.DeleteTrackExpense? ==> r.value.reportID == ReportID(s)
  {
    match s.parentAction
    case None => None
    case Some(a) =>
      var iouTransactionID := IouTransactionID(a);
      if a.isTrackExpense then Some(DeleteTrackExpense(ReportID(s), iouTransactionID))
      else Some(DeleteMoneyRequest(iouTransactionID))
  }

  /** The mark-as-cash call: only when the parent action carries a transaction
      ID and the thread report has an ID, neither of them empty. */
  function MarkAsCashCommand(s: Inputs): (r: Option<Command>)
    ensures r.Some? <==> s.parentAction.Some? && IsTruthy(IouTransactionID(s.parentAction.value))
                         && IsTruthy(s.threadReportID)
    ensures r.Some? ==> r.value.MarkAsCash? && r.value.cashTransactionID != "" && r.value.threadReportID != ""
    ensures r.Some? ==> Some(r.value.cashTransactionID) == IouTransactionID(s.parentAction.value)
                        && Some(r.value.threadReportID) == s.threadReportID
  {
    if s.parentAction.None? then None
    else
      var iouTransactionID := IouTransactionID(s.parentAction.value);
      var reportID := s.threadReportID;
      if !IsTruthy(iouTransactionID) || !IsTruthy(reportID) then None
      else Some(MarkAsCash(iouTransactionID.value, reportID.value))
  }

  class HeaderState {
    var isDeleteRequestModalVisible: bool
    var isHoldMenuVisible: bool
    var isNoDelegateAccessMenuVisible: bool
    var paymentType: Option<PaymentMethod>
    var requestType: Option<RequestType>
    var navigateBackToAfterDelete: Option<Route>
    /** The hand-off calls made so far, oldest first. */
    var issued: seq<Command>

    /** The hold menu is only opened once a request type is chosen, and a
        payment's method is recorded whenever a payment is being resolved. */
    ghost predicate Valid()
      reads this
    {
      (isHoldMenuVisible ==> requestType.Some?)
      && (requestType == Some(Pay) ==> paymentType.Some?)
    }

    /** The hold menu is rendered when it is visible and a request type is set. */
    function IsHoldMenuRendered(): (b: bool)
      reads this
      ensures b ==> isHoldMenuVisible
      ensures Valid() ==> (b <==> isHoldMenuVisible)
    {
      isHoldMenuVisible && requestType.Some?
    }

    constructor ()
      ensures Valid()
      ensures !isDeleteRequestModalVisible && !isHoldMenuVisible && !isNoDelegateAccessMenuVisible
      ensures paymentType.None? && requestType.None? && navigateBackToAfterDelete.None? && issued == []
    {
      isDeleteRequestModalVisible := false;
      isHoldMenuVisible := false;
      isNoDelegateAccessMenuVisible := false;
      paymentType := None;
      requestType := None;
      navigateBackToAfterDelete := None;
      issued := [];
    }

    method ConfirmPayment(s: Inputs, payType: Option<PaymentMethod>, payAsBusiness: Option<bool>)
      requires Valid()
      modifies this
      ensures Valid()
      ensures var r := PaymentResponse(s, payType, payAsBusiness);
        && (r == Ignore ==> paymentType == old(paymentType) && requestType == old(requestType))
        && (r != Ignore ==> paymentType == payType && requestType == Some(Pay))
        && isNoDelegateAccessMenuVisible == (old(isNoDelegateAccessMenuVisible) || r == OpenNoDelegateAccess)
        && isHoldMenuVisible == (old(isHoldMenuVisible) || r == OpenHoldMenu)
        && issued == old(issued) + (if r.Run? then [r.command] else [])
      ensures isDeleteRequestModalVisible == old(isDeleteRequestModalVisible)
      ensures navigateBackToAfterDelete == old(navigateBackToAfterDelete)
    {
      if payType.None? || !s.hasChatReport {
        return;
      }
      paymentType := payType;
      requestType := Some(Pay);
      if s.isDelegateAccessRestricted {
        isNoDelegateAccessMenuVisible := true;
      } else if s.hasHeldExpenses {
        isHoldMenuVisible := true;
      } else if s.isInvoiceReport {
        issued := issued + [PayInvoice(payType.value, payAsBusiness)];
      } else {
        issued := issued + [PayMoneyRequest(payType.value)];
      }
    }

    method ConfirmApproval(s: Inputs)
      requires Valid()
      modifies this
      ensures Valid()
      ensures var r := ApprovalResponse(s);
        && requestType == Some(Approve)
        && isNoDelegateAccessMenuVisible == (old(isNoDelegateAccessMenuVisible) || r == OpenNoDelegateAccess)
        && isHoldMenuVisible == (old(isHoldMenuVisible) || r == OpenHoldMenu)
        && issued == old(issued) + (if r.Run? then [r.command] else [])
      ensures paymentType == old(paymentType)
      ensures isDeleteRequestModalVisible == old(isDeleteRequestModalVisible)
      ensures navigateBackToAfterDelete == old(navigateBackToAfterDelete)
    {
      requestType := Some(Approve);
      if s.isDelegateAccessRestricted {
        isNoDelegateAccessMenuVisible := true;
      } else if s.hasHeldExpenses {
        isHoldMenuVisible := true;
      } else {
        issued := issued + [ApproveMoneyRequest];
      }
    }

    /** Confirming the delete prompt. `returned` is the route the deletion
        operation hands back, kept for navigating once the prompt is hidden. */
    method DeleteTransaction(s: Inputs, returned: Option<Route>)
      requires Valid()
      modifies this
      ensures Valid()
      ensures !isDeleteRequestModalVisible
      ensures var c := DeleteCommand(s);
        && issued == old(issued) + (if c.Some? then [c.value] else [])
        && navigateBackToAfterDelete == (if c.Some? then returned else old(navigateBackToAfterDelete))
      ensures isHoldMenuVisible == old(isHoldMenuVisible)
      ensures isNoDelegateAccessMenuVisible == old(isNoDelegateAccessMenuVisible)
      ensures paymentType == old(paymentType) && requestType == old(requestType)
    {
      if s.parentAction.Some? {
        var action := s.parentAction.value;
        var iouTransactionID := if action.isMoneyRequest then action.originalIouTransactionID else None;
        if action.isTrackExpense {
          issued := issued + [DeleteTrackExpense(ReportID(s), iouTransactionID)];
        } else {
          issued := issued + [DeleteMoneyRequest(iouTransactionID)];
        }
        navigateBackToAfterDelete := returned;
      }
      isDeleteRequestModalVisible := false;
    }

    method MarkAsCashPressed(s: Inputs)
      requires Valid()
      modifies this
      ensures Valid()
      ensures var c := MarkAsCashCommand(s);
        issued == old(issued) + (if c.Some? then [c.value] else [])
      ensures isDeleteRequestModalVisible == old(isDeleteRequestModalVisible)
      ensures isHoldMenuVisible == old(isHoldMenuVisible)
      ensures isNoDelegateAccessMenuVisible == old(isNoDelegateAccessMenuVisible)
      ensures paymentType == old(paymentType) && requestType == old(requestType)
      ensures navigateBackToAfterDelete == old(navigateBackToAfterDelete)
    {
      if s.parentAction.None? {
        return;
      }
      var action := s.parentAction.value;
      var iouTransactionID := if action.isMoneyRequest then action.originalIouTransactionID else None;
      var reportID := s.threadReportID;
      if iouTransactionID.None? || iouTransactionID.value == "" || reportID.None? || reportID.value == "" {
        return;
      }
      issued := issued + [MarkAsCash(iouTransactionID.value, reportID.value)];
    }

    /** The effect that runs when `canDeleteRequest` changes: once deletion is
        no longer allowed the delete prompt is closed, and nothing is deleted. */
    method SyncDeleteModal(s: Inputs)
      requires Valid()
      modifies this
      ensures Valid()
      ensures !CanDeleteRequest(s) ==> !isDeleteRequestModalVisible
      ensures CanDeleteRequest(s) ==> isDeleteRequestModalVisible == old(isDeleteRequestModalVisible)
      ensures issued == old(issued)
      ensures isHoldMenuVisible == old(isHoldMenuVisible)
      ensures isNoDelegateAccessMenuVisible == old(isNoDelegateAccessMenuVisible)
      ensures paymentType == old(paymentType) && requestType == old(requestType)
      ensures navigateBackToAfterDelete == old(navigateBackToAfterDelete)
    {
      if CanDeleteRequest(s) {
        return;
      }
      isDeleteRequestModalVisible := false;
    }

    /** The hold menu's close callback. */
    method CloseHoldMenu()
      requires Valid()
      modifies this`isHoldMenuVisible
      ensures Valid() && !isHoldMenuVisible
    {
      isHoldMenuVisible := false;
    }

    /** The no-delegate-access prompt's close callback. */
    method CloseNoDelegateAccessMenu()
      requires Valid()
      modifies this`isNoDelegateAccessMenuVisible
      ensures Valid() && !isNoDelegateAccessMenuVisible
    {
      isNoDelegateAccessMenuVisible := false;
    }

    /** The delete prompt's cancel callback. */
    method CancelDelete()
      requires Valid()
      modifies this`isDeleteRequestModalVisible
      ensures Valid() && !isDeleteRequestModalVisible
    {
      isDeleteRequestModalVisible := false;
    }
  }
}
