/** services/watcher/matcher.go: one payment against the order its memo names. */
module Matcher {
  import opened Wrappers
  import opened Decimals
  import opened Models

  datatype Observed = Observed(
    source: string,
    destination: string,
    assetCode: string,
    assetIssuer: string,
    amount: Decimal,
    memo: string)

  function Match(o: Observed, order: Option<OrderIntent>): (Verdict, RejectReason) {
    if order.None? then (VerdictRejected, InvalidMemo)
    else if OrderFinal(order.value.status) then (VerdictDuplicate, NoReason)
    else if o.destination != order.value.destinationAccount then (VerdictRejected, WrongDestination)
    else if o.assetCode != order.value.assetCode
      || o.assetIssuer != order.value.assetIssuer then (VerdictRejected, WrongAsset)
    else if o.source != order.value.buyerWallet then (VerdictRejected, WrongBuyerWallet)
    else if LessThan(o.amount, order.value.expectedAmount) then (VerdictRejected, Underpayment)
    else (VerdictMatched, NoReason)
  }

  function Terminal(v: Verdict): OrderStatus {
    if v == VerdictMatched then Validated else Rejected
  }

  /** The payment is what the order asks for, and at least as much. */
  ghost predicate Satisfies(o: Observed, order: OrderIntent) {
    && o.destination == order.destinationAccount
    && o.assetCode == order.assetCode && o.assetIssuer == order.assetIssuer
    && o.source == order.buyerWallet
    && Value(order.expectedAmount) <= Value(o.amount)
  }

  /** The order as it stands before any payment was judged. */
  function Opening(order: OrderIntent): OrderIntent {
    order.(status := AwaitingPayment, rejectReason := NoReason, onChainTxHash := None)
  }

  /**
   * Matched means an open order and a satisfying payment; duplicate means a settled order; every
   * rejection is named, and invalid_memo is the name exactly when there is no order.
   */
  lemma {:induction false} MatchMeaning(o: Observed, order: Option<OrderIntent>)
    ensures var (v, r) := Match(o, order);
            && (v == VerdictMatched <==> order.Some? && !OrderFinal(order.value.status) && Satisfies(o, order.value))
            && (v == VerdictDuplicate <==> order.Some? && OrderFinal(order.value.status))
            && (v == VerdictRejected <==> ValidRejectReason(r))
            && (v != VerdictRejected <==> r == NoReason)
            && (r == InvalidMemo <==> order.None?)
  {
    if order.Some? {
      LessThanIsValueOrder(o.amount, order.value.expectedAmount);
    }
  }

  /** The first check that fails names the reason: destination, asset, wallet, amount. */
  lemma {:induction false} FirstFailureWins(o: Observed, order: OrderIntent)
    requires !OrderFinal(order.status)
    ensures var r := Match(o, Some(order)).1;
            var to, asset, wallet := o.destination == order.destinationAccount,
              o.assetCode == order.assetCode && o.assetIssuer == order.assetIssuer, o.source == order.buyerWallet;
            && (r == WrongDestination <==> !to)
            && (r == WrongAsset <==> to && !asset)
            && (r == WrongBuyerWallet <==> to && asset && !wallet)
            && (r == Underpayment <==> to && asset && wallet && Value(o.amount) < Value(order.expectedAmount))
  {
    LessThanIsValueOrder(o.amount, order.expectedAmount);
  }

  /** Any copy of an order that is still open is judged like the order itself. */
  lemma {:induction false} MatchOfOpenCopy(o: Observed, copy: OrderIntent, order: OrderIntent)
    requires Opening(copy) == Opening(order) && !OrderFinal(copy.status)
    ensures Match(o, Some(copy)) == Match(o, Some(Opening(order)))
  {
    var c := Opening(copy);
    assert c.destinationAccount == copy.destinationAccount && c.assetCode == copy.assetCode
           && c.assetIssuer == copy.assetIssuer && c.buyerWallet == copy.buyerWallet
              && c.expectedAmount == copy.expectedAmount;
  }
}
