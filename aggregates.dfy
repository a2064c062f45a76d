/** The folds over the report's transactions that the component computes
    itself (`every`, `some`, `map`). */
module Aggregates {
  import opened Snapshot

  /** `transactions.every((t) => isExpensifyCardTransaction(t) && isPending(t))` */
  function EveryPendingCard(ts: seq<Transaction>): (r: bool)
    ensures r <==> forall i :: 0 <= i < |ts| ==> ts[i].isExpensifyCard && ts[i].isPending
  {
    if ts == [] then true
    else ts[0].isExpensifyCard && ts[0].isPending && EveryPendingCard(ts[1..])
  }

  /** `transactions.some((t) => isReceiptBeingScanned(t))` */
  function SomeReceiptBeingScanned(ts: seq<Transaction>): (r: bool)
    ensures r <==> exists i :: 0 <= i < |ts| && ts[i].isReceiptBeingScanned
  {
    if ts == [] then false
    else ts[0].isReceiptBeingScanned || SomeReceiptBeingScanned(ts[1..])
  }

  /** `transactions.map((t) => t.transactionID)` */
  function TransactionIds(ts: seq<Transaction>): (r: seq<ID>)
    ensures |r| == |ts|
    ensures forall i :: 0 <= i < |ts| ==> r[i] == ts[i].transactionID
  {
    if ts == [] then [] else [ts[0].transactionID] + TransactionIds(ts[1..])
  }

  /** There is at least one transaction and every one is a pending card
      transaction. */
  predicate HasOnlyPendingTransactions(ts: seq<Transaction>) {
    |ts| > 0 && EveryPendingCard(ts)
  }
}
