/** The rows and closed enums of models/order_intent.go and models/payment_evidence.go. */
module Models {
  import opened Wrappers
  import opened Decimals

  /** OrderStatus is a Go string: four named values and anything else. */
  datatype OrderStatus = AwaitingPayment | PaymentDetected | Validated | Rejected | OtherStatus(text: string)

  /** RejectReason is a Go string: the empty one, the five names, and anything else. */
  datatype RejectReason =
    | NoReason
    | Underpayment
    | WrongAsset
    | WrongDestination
    | WrongBuyerWallet
    | InvalidMemo
    | OtherReason(text: string)

  datatype Verdict = VerdictMatched | VerdictRejected | VerdictDuplicate

  const ALL_REJECT_REASONS: seq<RejectReason> :=
    [Underpayment, WrongAsset, WrongDestination, WrongBuyerWallet, InvalidMemo]

  type TxHash = nat

  /** A row of shopble_order_intent. onChainTxHash None stands for NULL or ''. */
  datatype OrderIntent = OrderIntent(
    id: string,
    productRef: string,
    expectedAmount: Decimal,
    assetCode: string,
    assetIssuer: string,
    destinationAccount: string,
    memo: string,
    buyerWallet: string,
    status: OrderStatus,
    rejectReason: RejectReason,
    onChainTxHash: Option<TxHash>,
    createdAt: nat)

  /** A row of shopble_payment_evidence, without its surrogate key and capture time. */
  datatype PaymentEvidence = PaymentEvidence(
    opId: string,
    pagingToken: nat,
    txHash: string,
    sourceAccount: string,
    destinationAccount: string,
    assetCode: string,
    assetIssuer: string,
    amount: Decimal,
    memo: string,
    ledgerCloseAt: int,
    orderId: string,
    verdict: Verdict,
    rejectReason: RejectReason)

  predicate ValidRejectReason(r: RejectReason) { r in ALL_REJECT_REASONS }

  /** The row of the transition table for one status; a status without a row has no edges. */
  function Transitions(from: OrderStatus): seq<OrderStatus> {
    match from
    case AwaitingPayment => [PaymentDetected]
    case PaymentDetected => [Validated, Rejected]
    case _ => []
  }

  predicate CanTransition(from: OrderStatus, to: OrderStatus) { to in Transitions(from) }

  predicate OrderFinal(s: OrderStatus) { s == Validated || s == Rejected }

  /** Settled, and no transaction hash recorded. */
  predicate AwaitsHash(o: OrderIntent) { OrderFinal(o.status) && o.onChainTxHash == None }

  /** A numeric(23,7) column keeps seven places. */
  function ToColumn(d: Decimal): Decimal { Decimal(RoundStroops(d), -PLACES) }

  /** Storing keeps the rounded stroop count, and nothing at all is lost with at most seven places. */
  lemma {:induction false} ColumnKeepsStroops(d: Decimal)
    ensures RoundStroops(ToColumn(d)) == RoundStroops(d)
    ensures d.exp >= -PLACES ==> Value(ToColumn(d)) == Value(d)
  {
    RoundExact(ToColumn(d));
    if d.exp >= -PLACES {
      RoundExact(d);
    }
  }
}
