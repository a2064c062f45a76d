# MoneyReportHeader: action eligibility and status banner

A Dafny model of the decision logic inside the `MoneyReportHeader` component of
an expense-reporting app. From one snapshot of the report, its policy, its
transactions and the session, the header decides:

- which action buttons it shows: submit, pay/approve (the settlement button),
  export to the accounting integration, and mark as cash;
- which of those buttons are disabled;
- whether a status bar or the next-step advisory is shown;
- which single status banner wins;
- which amount the settlement button displays.

The header also keeps a little UI state: the delete prompt, the hold menu, the
no-delegate-access prompt, the chosen payment method and request type, and the
route to go back to after a delete. Its handlers update that state in a fixed
precedence: a delegate restriction first, then a held expense, and only then
the hand-off to the pay, approve, delete or mark-as-cash operation.

Files:

- `wrappers.dfy`: `Option`.
- `snapshot.dfy`: the input snapshot `Inputs`. Every value the component gets
  from a store subscription or from an imported helper is a field. Examples:
  `canApproveIOU`, `hasUpdatedTotal`, `isArchivedReport`, the two results of
  `canIOUBePaid` (with and without `onlyShowPayElsewhere`), and
  `getNonHeldAndFullAmount` as `amountsFor: bool -> Amounts`, because the
  component passes it the derived pay flag.
- `aggregates.dfy`: the folds the component runs over the transaction lists
  (`every`, `some`, `map`), each proved against its quantified meaning.
- `eligibility.dfy`: one function per flag the component derives, the
  displayed amount, and the decision-bearing props of the settlement button
  and of the hold menu.
- `statusbar.dfy`: the banner if-chain, proved equal to a first-match reading
  of a priority list.
- `handlers.dfy`: the responses of the pay and approve handlers, the delete
  and mark-as-cash commands, and the class `HeaderState` whose methods are the
  handlers and the delete-prompt effect. The hand-off operations are recorded
  as `Command` values in `issued`; they are not performed.

Points where the code does something a reader may not expect; the model follows the code:

- An archived pay-at-end report whose archive reason is not "booking end date
  has passed" gets no banner from the first two rules. It falls through to the
  later rules. If none of them holds, the status bar is called for (which hides
  the next step) but no banner is picked (`ArchivedPayAtEndFallsThrough`).
- `deleteTransaction` does not itself check `canDeleteRequest`. It deletes
  whenever a parent action exists (`DeleteTransaction`).
- Nothing in this file ever opens the delete prompt: its visibility is only
  ever set to false. The model keeps the field and the effect that closes it.
- `shouldShowSubmitButton` compares the report's owner and manager with
  `getCurrentUserAccountID()`. `canDeleteRequest` compares the action's actor
  with `session.accountID`. The model keeps these as two inputs.
- `isAdmin` (the policy role is admin) and `isPolicyAdmin(policy)` are also
  kept as two inputs.

## Model

| member | source | states |
|---|---|---|
| `Aggregates.EveryPendingCard` | src/components/MoneyReportHeader.tsx:142 | True exactly when every transaction is an Expensify Card transaction that is pending. |
| `Aggregates.SomeReceiptBeingScanned` | src/components/MoneyReportHeader.tsx:141 | True exactly when some transaction with a receipt is still being scanned. |
| `Aggregates.TransactionIds` | src/components/MoneyReportHeader.tsx:143 | One ID per transaction, position by position. |
| `Eligibility.CanDeleteRequest` | src/components/MoneyReportHeader.tsx:124-130 | Deletion is allowed exactly when the signed-in account created the (non-deleted) parent action and the report allows deletion. |
| `Eligibility.OnlyShowPayElsewhere` | src/components/MoneyReportHeader.tsx:151-157 | Set exactly when the IOU cannot be paid directly but can be paid elsewhere. |
| `Eligibility.ShowPayButton` | src/components/MoneyReportHeader.tsx:162 | Pay is shown exactly when the IOU can be paid directly or elsewhere. A shown pay button that cannot pay directly offers pay-elsewhere only. |
| `Eligibility.ShowApproveButton` | src/components/MoneyReportHeader.tsx:164 | Approve is shown exactly when approval is allowed and the report does not hold only pending card transactions (a non-empty list, all pending card). |
| `Eligibility.DisableApproveButton` | src/components/MoneyReportHeader.tsx:166 | Disabled implies shown; a shown approve button is disabled exactly when the user may not approve. |
| `Eligibility.ShowSubmitButton` | src/components/MoneyReportHeader.tsx:168-178 | Submit is shown exactly when: a report exists, is not archived, is open, has a non-zero reimbursable total, has no pending-match or broken-connection violation, and the user is its owner, its manager or a policy admin. |
| `Eligibility.DisableSubmitButton` | src/components/MoneyReportHeader.tsx:185 | Disabled implies shown; a shown submit button is disabled exactly when the user may not submit the draft. |
| `Eligibility.ShowExportIntegrationButton` | src/components/MoneyReportHeader.tsx:180 | Export is shown exactly when neither pay nor submit is shown, an integration is connected, the user is a policy admin and the report can be exported. |
| `Eligibility.ShowSettlementButton` | src/components/MoneyReportHeader.tsx:182-183 | Never together with export. Shown exactly when pay or approve is shown, neither a pending-match nor a broken-connection violation holds, and export is not shown. |
| `Eligibility.ShowStatusBar` | src/components/MoneyReportHeader.tsx:187-188 | Called for exactly when any of these holds: pending match, broken connection, only held expenses, a scanning receipt, pay-at-end, or only pending card transactions. |
| `Eligibility.ShowMarkAsCashButton` | src/components/MoneyReportHeader.tsx:159-160 | Shown exactly for a pending-match violation, or for a broken connection when the user is not an admin or is the submitter. When shown, submit and settlement are not, and the status bar is called for. |
| `Eligibility.ShowNextStep` | src/components/MoneyReportHeader.tsx:186-189 | Implies: no status bar, a Team or Corporate policy, a non-empty message and a report that is not closed and empty. These conditions together imply it. |
| `Eligibility.DisplayedAmount` | src/components/MoneyReportHeader.tsx:199-202 | The non-held amount when some expense is held, the total is up to date and the non-held amount is valid; the formatted reimbursable total otherwise. |
| `Eligibility.SettlementButton` | src/components/MoneyReportHeader.tsx:370-390 | Disabled exactly when offline with a stale total; loading exactly when online with a stale total; never both. Payment options hidden exactly when pay is not shown. The pay-elsewhere, approve-shown and approve-disabled props equal their flags. Success style exactly when no expense is held. No amount when only held expenses remain, otherwise the displayed amount. |
| `Eligibility.HoldMenu` | src/components/MoneyReportHeader.tsx:492-503 | The non-held amount is passed exactly when not all expenses are held and it is valid. The transaction count equals the number of transactions. |
| `StatusBar.FirstHolding` | src/components/MoneyReportHeader.tsx:276-309 | The position of the first holding condition: every earlier condition fails, and the one there holds (when within bounds). |
| `StatusBar.StatusBanner` | src/components/MoneyReportHeader.tsx:276-309 | Equals the first match of the priority list. A banner implies the status bar. Held-only, broken connection, pending match, pending card or scanning each force a banner. Status bar without banner happens exactly for an archived pay-at-end report with another reason and nothing else. |
| `StatusBar.PendingMatchOutranksScanning` | src/components/MoneyReportHeader.tsx:300-307 | A pending-match violation wins over a scanning receipt when neither pay-at-end rule, held-only nor broken connection picks a banner; the next step is then hidden. |
| `StatusBar.ArchivedPayAtEndFallsThrough` | src/components/MoneyReportHeader.tsx:277-284 | An archived pay-at-end report with another archive reason and no other condition gets no banner. The status bar is still called for and the next step is hidden. |
| `Handlers.PaymentResponse` | src/components/MoneyReportHeader.tsx:210-228 | Ignored exactly when the method or the chat report is missing. Otherwise: the delegate prompt exactly when restricted; the hold menu exactly when unrestricted with a held expense; the payment runs exactly when neither, as an invoice payment exactly for an invoice report. |
| `Handlers.ApprovalResponse` | src/components/MoneyReportHeader.tsx:230-239 | Never ignored. Delegate prompt exactly when restricted; hold menu exactly when unrestricted with a held expense; approval runs otherwise. |
| `Handlers.PaymentAndApprovalSharePrecedence` | src/components/MoneyReportHeader.tsx:217-237 | A payment that is not ignored takes the same branch as an approval. |
| `Handlers.DeleteCommand` | src/components/MoneyReportHeader.tsx:241-249 | A deletion exactly when a parent action exists: a track-expense deletion (with the report ID) exactly for a track-expense action, a money-request deletion otherwise, with the action's transaction ID. |
| `Handlers.MarkAsCashCommand` | src/components/MoneyReportHeader.tsx:254-265 | A call exactly when the parent action has a non-empty transaction ID and the thread report has a non-empty ID; it carries those two IDs. |
| `Handlers.HeaderState.constructor` | src/components/MoneyReportHeader.tsx:119-139 | Every prompt closed, no payment method, request type or route, nothing issued. |
| `Handlers.HeaderState.IsHoldMenuRendered` | src/components/MoneyReportHeader.tsx:492 | The hold menu renders only when visible; under the state invariant, exactly when visible. |
| `Handlers.HeaderState.ConfirmPayment` | src/components/MoneyReportHeader.tsx:210-228 | No change when ignored. Otherwise records the method and the Pay request type, then opens the prompt or menu, or issues the payment, that `PaymentResponse` picks. Nothing else changes, and the state invariant is kept. |
| `Handlers.HeaderState.ConfirmApproval` | src/components/MoneyReportHeader.tsx:230-239 | Records the Approve request type, then opens the prompt or menu, or issues the approval, that `ApprovalResponse` picks. Keeps the payment method and the invariant. |
| `Handlers.HeaderState.DeleteTransaction` | src/components/MoneyReportHeader.tsx:241-252 | Always closes the delete prompt. It issues `DeleteCommand` and stores the returned route exactly when there is a parent action. |
| `Handlers.HeaderState.MarkAsCashPressed` | src/components/MoneyReportHeader.tsx:254-265 | Issues `MarkAsCashCommand` when there is one; nothing else changes. |
| `Handlers.HeaderState.SyncDeleteModal` | src/components/MoneyReportHeader.tsx:336-342 | Once deletion is no longer allowed the delete prompt is closed; nothing is deleted and nothing else changes. |
| `Handlers.HeaderState.CloseHoldMenu` | src/components/MoneyReportHeader.tsx:497 | Closes the hold menu and keeps the invariant. |
| `Handlers.HeaderState.CloseNoDelegateAccessMenu` | src/components/MoneyReportHeader.tsx:507 | Closes the no-delegate-access prompt. |
| `Handlers.HeaderState.CancelDelete` | src/components/MoneyReportHeader.tsx:514 | Closes the delete prompt. |

## Left out

- The imported helpers (report, transaction, policy and IOU utilities): their code is not part of this model. Each helper result is an input field, so the model assumes no relation between them. For example, `hasOnlyHeldExpenses` does not imply `hasHeldExpenses` here.
- The lookups of the parent action and of its transaction (lines 104-115) are inputs: store plumbing.
- Store subscriptions, memoisation and hook lifecycles: replaced by one immutable snapshot per render.
- Currency formatting (`convertToDisplayString`) and localisation: formatted amounts are opaque strings, and banners are an enum rather than icons and translated text.
- The hold-explanation auto-navigation effect (lines 328-334), the post-delete navigation on prompt hide (line 515) and the duplicate-review navigation: routing to opaque routes.
- The submit button's press handler (lines 408, 470): an inline call to the submit operation; whether it can be pressed is `ShowSubmitButton` and `DisableSubmitButton`.
- Layout and styling: narrow versus wide placement, `shouldShowAnyButton` (lines 190-197, read only by `isMoreContentShown`), `isMoreContentShown`, `shouldAddGapToContents`, `shouldDisplaySearchRouter`, `isWaitingForSubmissionFromCurrentUser` and `shouldDuplicateButtonBeSuccess`.
- What the hand-off operations do, and whether they succeed or fail: they are asynchronous calls owned elsewhere. The model only records that each one was called, and with which arguments.
- `ShowExportIntegrationButton`: in the source the expression's value is the result of `canBeExported` when every earlier conjunct holds, and otherwise `false` or an undefined `connectedIntegration`. The model keeps only its truthiness, and a connected integration name is truthy.
- `Snapshot.Inputs`: `nextStep?.message?.length` becomes a sequence of message parts. An absent next step and an empty message are therefore the same.
- `reimbursableSpend` is an unbounded integer. The source only compares it with zero.
