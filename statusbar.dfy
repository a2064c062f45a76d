/** The single status banner under the header: the first condition of a fixed
    priority list that holds picks it. */
module StatusBar {
  import opened Wrappers
  import opened Snapshot
  import opened Aggregates
  import opened Eligibility

  datatype Banner =
    | BookingPending
    | BookingArchived
    | ExpensesOnHold
    | BrokenConnection
    | PendingMatchWithCreditCard
    | TransactionPending
    | ReceiptScanInProgress

  /** The banners from highest to lowest priority. */
  const Priority: seq<Banner> := [BookingPending, BookingArchived, ExpensesOnHold, BrokenConnection,
                                  PendingMatchWithCreditCard, TransactionPending, ReceiptScanInProgress]

  /** The condition for each banner of `Priority`, at the same position. */
  function BannerConditions(s: Inputs): (c: seq<bool>)
    ensures |c| == |Priority|
  {
    [ s.isPayAtEndExpense && !s.isArchivedReport,
      s.isPayAtEndExpense && s.isArchivedReport && s.archiveReason == Some(BookingEndDateHasPassed),
      s.hasOnlyHeldExpenses,
      s.shouldShowBrokenConnectionViolation,
      s.allHavePendingRTERViolation,
      HasOnlyPendingTransactions(s.allTransactions),
      SomeReceiptBeingScanned(s.receiptTransactions) ]
  }

  /** The position of the first condition that holds, or the length when none
      does. */
  function FirstHolding(conds: seq<bool>): (k: nat)
    ensures k <= |conds|
    ensures forall j :: 0 <= j < k ==> !conds[j]
    ensures k < |conds| ==> conds[k]
  {
    if conds == [] then 0
    else if conds[0] then 0
    else 1 + FirstHolding(conds[1..])
  }

  /** On a list of seven conditions, the first holding position as a chain of
      tests. */
  lemma FirstHoldingOfSeven(c: seq<bool>)
    requires |c| == 7
    ensures FirstHolding(c) ==
      if c[0] then 0 else if c[1] then 1 else if c[2] then 2 else if c[3] then 3
      else if c[4] then 4 else if c[5] then 5 else if c[6] then 6 else 7
  {
  }

  /** The reference reading of the priority list: the banner of the first
      condition that holds. */
  function FirstMatchBanner(s: Inputs): Option<Banner> {
    var k := FirstHolding(BannerConditions(s));
    if k < |Priority| then Some(Priority[k]) else None
  }

  /** The banner the header shows, if any, as the component's if-chain picks
      it. It agrees with the first-match reading; a banner is only ever picked
      when the status bar is called for; every condition but pay-at-end
      guarantees one; and the status bar is called for without a banner
      exactly for an archived pay-at-end report whose archive reason is not
      the end of the booking, with no other condition holding. */
  function StatusBanner(s: Inputs): (r: Option<Banner>)
    ensures r == FirstMatchBanner(s)
    ensures r.Some? ==> ShowStatusBar(s)
    ensures (s.hasOnlyHeldExpenses || s.shouldShowBrokenConnectionViolation || s.allHavePendingRTERViolation
             || HasOnlyPendingTransactions(s.allTransactions) || SomeReceiptBeingScanned(s.receiptTransactions))
            ==> r.Some?
    ensures (r.None? && ShowStatusBar(s)) <==>
      (s.isPayAtEndExpense && s.isArchivedReport && s.archiveReason != Some(BookingEndDateHasPassed)
       && !s.hasOnlyHeldExpenses && !s.shouldShowBrokenConnectionViolation && !s.allHavePendingRTERViolation
       && !HasOnlyPendingTransactions(s.allTransactions) && !SomeReceiptBeingScanned(s.receiptTransactions))
  {
    FirstHoldingOfSeven(BannerConditions(s));
    if s.isPayAtEndExpense && !s.isArchivedReport then Some(BookingPending)
    else if s.isPayAtEndExpense && s.isArchivedReport && s.archiveReason == Some(BookingEndDateHasPassed)
    then Some(BookingArchived)
    else if s.hasOnlyHeldExpenses then Some(ExpensesOnHold)
    else if s.shouldShowBrokenConnectionViolation then Some(BrokenConnection)
    else if s.allHavePendingRTERViolation then Some(PendingMatchWithCreditCard)
    else if HasOnlyPendingTransactions(s.allTransactions) then Some(TransactionPending)
    else if SomeReceiptBeingScanned(s.receiptTransactions) then Some(ReceiptScanInProgress)
    else None
  }

  /** A pending-match violation outranks a receipt that is still scanning. */
  lemma PendingMatchOutranksScanning(s: Inputs)
    requires s.allHavePendingRTERViolation && SomeReceiptBeingScanned(s.receiptTransactions)
    requires !(s.isPayAtEndExpense && !s.isArchivedReport)
    requires !(s.isPayAtEndExpense && s.isArchivedReport && s.archiveReason == Some(BookingEndDateHasPassed))
    requires !s.hasOnlyHeldExpenses && !s.shouldShowBrokenConnectionViolation
    ensures StatusBanner(s) == Some(PendingMatchWithCreditCard)
    ensures ShowStatusBar(s) && !ShowNextStep(s)
  {
  }

  /** An archived pay-at-end report with another archive reason and nothing
      else to report calls for the status bar but gets no banner, and the
      next step is hidden all the same. */
  lemma ArchivedPayAtEndFallsThrough(s: Inputs)
    requires s.isPayAtEndExpense && s.isArchivedReport && s.archiveReason != Some(BookingEndDateHasPassed)
    requires !s.hasOnlyHeldExpenses && !s.shouldShowBrokenConnectionViolation && !s.allHavePendingRTERViolation
    requires !HasOnlyPendingTransactions(s.allTransactions) && !SomeReceiptBeingScanned(s.receiptTransactions)
    ensures StatusBanner(s).None? && ShowStatusBar(s) && !ShowNextStep(s)
  {
  }
}
