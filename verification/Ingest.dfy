/**
 * The database transaction of watcher.process: what one payment does to the orders, the evidence
 * and the cursor, given the copy of the order its lookup returned.
 */
module Ingest {
  import opened Wrappers
  import opened Decimals
  import opened Instruction
  import opened Models
  import opened Matcher
  import opened Horizon

  /** Rows by primary key, evidence in insertion order, one cursor per stream name. */
  datatype Db = Db(
    orders: map<string, OrderIntent>,
    evidence: seq<PaymentEvidence>,
    cursors: map<string, nat>)

  const EMPTY_DB := Db(map[], [], map[])

  /** decimal.NewFromString, with zero for what does not parse. */
  function AmountOf(p: Payment): Decimal {
    match NewFromString(p.amount) case Some(d) => d case None => ZERO
  }

  function Observe(p: Payment): Observed {
    Observed(p.from, p.to, p.assetCode, p.assetIssuer, AmountOf(p), p.memo)
  }

  /** The row whose memo is the payment's. The memo column is unique and equals the id (OrdersOk). */
  function FindByMemo(orders: map<string, OrderIntent>, memo: string): Option<OrderIntent> {
    if memo != "" && memo in orders && orders[memo].memo == memo then Some(orders[memo]) else None
  }

  function EvidenceOf(p: Payment, order: Option<OrderIntent>): PaymentEvidence {
    var (v, r) := Match(Observe(p), order);
    PaymentEvidence(p.id, p.token, p.txHash, p.from, p.to, p.assetCode, p.assetIssuer,
                    ToColumn(AmountOf(p)), p.memo, p.ledgerCloseAt,
                    if order.Some? then order.value.id else "", v, r)
  }

  predicate Seen(evidence: seq<PaymentEvidence>, opId: string) {
    exists j :: 0 <= j < |evidence| && evidence[j].opId == opId
  }

  /** The guarded updates change a row: the order is found, judged, and not settled by someone else. */
  predicate Settles(orders: map<string, OrderIntent>, p: Payment, order: Option<OrderIntent>) {
    && order.Some? && Match(Observe(p), order).0 != VerdictDuplicate
    && order.value.id in orders && orders[order.value.id].status == AwaitingPayment
  }

  function SetVerdict(row: OrderIntent, v: Verdict, r: RejectReason): OrderIntent {
    row.(status := Terminal(v), rejectReason := r)
  }

  function OrdersAfter(orders: map<string, OrderIntent>, p: Payment, order: Option<OrderIntent>): map<string,
    OrderIntent> {
    if Settles(orders, p, order) then
      var (v, r) := Match(Observe(p), order);
      orders[order.value.id := SetVerdict(orders[order.value.id], v, r)]
    else orders
  }

  /** The state committed for payment p when its lookup returned `order`. */
  function CommitTx(db: Db, p: Payment, order: Option<OrderIntent>, stream: string): Db {
    var isNew := !Seen(db.evidence, p.id);
    Db(if isNew then OrdersAfter(db.orders, p, order) else db.orders,
       if isNew then db.evidence + [EvidenceOf(p, order)] else db.evidence,
       db.cursors[stream := p.token])
  }

  // --- Creating an order ------------------------------------------------------------

  /** The row and instruction POST /orders builds, or its refusal. */
  function NewOrder(c: StellarConfig, id: string, productRef: string, amount: Decimal, buyer: string, now: nat)
    : Result<(OrderIntent, PaymentInstruction), InstructionError>
  {
    if !ValidAccount(buyer) then Err(BadWallet)
    else match BuildInstruction(c, amount, id)
      case Err(e) => Err(e)
      case Ok(i) => Ok((OrderIntent(id, productRef, ToColumn(amount), c.assetCode, c.assetIssuer, c.destinationAccount,
                                    id, buyer, AwaitingPayment, NoReason, None, now), i))
  }

  /** What CreateOrder establishes of a row. */
  predicate OpeningRow(o: OrderIntent) {
    && o.id != "" && o.memo == o.id && Acceptable(o.expectedAmount)
    && o.status == AwaitingPayment && o.rejectReason == NoReason && o.onChainTxHash == None
  }

  /** An order is accepted exactly when the wallet, the amount and the memo are, and its row opens correctly. */
  lemma {:induction false} NewOrderOpens(c: StellarConfig, id: string, productRef: string, amount: Decimal,
    buyer: string, now: nat)
    ensures NewOrder(c, id, productRef, amount, buyer, now).Ok? <==>
            ValidAccount(buyer) && Acceptable(amount) && ValidMemo(id)
    ensures var r := NewOrder(c, id, productRef, amount, buyer, now);
            r.Ok? ==> OpeningRow(r.value.0) && Value(r.value.0.expectedAmount) == Value(amount)
                      && r.value.0.id == id && r.value.0.buyerWallet == buyer
  {
    NormalizeAcceptsExactly(amount);
    if Acceptable(amount) {
      ColumnKeepsStroops(amount);
      NormalizeAcceptsExactly(ToColumn(amount));
      RoundExact(ToColumn(amount));
    }
  }

  /** An accepted request's row is opened from the request and the configuration, and the instruction asks for it. */
  lemma {:induction false} NewOrderFields(c: StellarConfig, id: string, productRef: string, amount: Decimal,
    buyer: string, now: nat)
    requires NewOrder(c, id, productRef, amount, buyer, now).Ok?
    ensures var (o, i) := NewOrder(c, id, productRef, amount, buyer, now).value;
            && Acceptable(amount)
            && o.id == id && o.memo == id && o.productRef == productRef && o.buyerWallet == buyer && o.createdAt == now
            && o.assetCode == c.assetCode && o.assetIssuer == c.assetIssuer
            && o.destinationAccount == c.destinationAccount
            && i.destination == c.destinationAccount && i.assetCode == c.assetCode && i.assetIssuer == c.assetIssuer
            && i.memo == id && i.memoType == "MEMO_TEXT" && i.network == c.networkPassphrase
            && i.amount == Fixed7(RoundStroops(amount)) && RoundStroops(amount) as real == Stroops(amount)
  {
    NormalizeAcceptsExactly(amount);
    RoundExact(amount);
  }

  /** A refused request is refused for its wallet first, then its amount, then its memo. */
  lemma {:induction false} NewOrderRefuses(c: StellarConfig, id: string, productRef: string, amount: Decimal,
    buyer: string, now: nat)
    ensures var r, account, stroops :=
              NewOrder(c, id, productRef, amount, buyer, now), |buyer| == 56 && buyer[0] == 'G', Stroops(amount);
            && (r == Err(BadWallet) <==> !account)
            && (r == Err(NotPositive) <==> account && stroops <= 0.0)
            && (r == Err(AboveCeiling) <==> account && stroops > 9_223_372_036_854_775_807.0)
            && (r == Err(TooPrecise) <==>
                  account && 0.0 < stroops <= 9_223_372_036_854_775_807.0 && amount.exp < -7)
            && (r == Err(BadMemo) <==>
                  account && 0.0 < stroops <= 9_223_372_036_854_775_807.0 && amount.exp >= -7
                  && (id == "" || |id| > 28))
            && (r.Ok? <==>
                  account && 0.0 < stroops <= 9_223_372_036_854_775_807.0 && amount.exp >= -7 && 1 <= |id| <= 28)
  {
    NormalizeRefuses(amount);
    NormalizeAcceptsExactly(amount);
  }

  /** The payment a wallet makes by copying the instruction. */
  predicate Follows(p: Payment, i: PaymentInstruction, buyer: string) {
    && p.from == buyer && p.to == i.destination && p.assetCode == i.assetCode && p.assetIssuer == i.assetIssuer
    && p.amount == i.amount && p.memo == i.memo
  }

  /**
   * Whoever pays exactly the instruction's amount from the buyer wallet is matched, for every accepted order
   * that is still open, whatever else the table holds; and the order ends up validated.
   */
  lemma {:induction false} ExactPayerMatched(c: StellarConfig, id: string, productRef: string, amount: Decimal,
    buyer: string, now: nat,
                                             orders: map<string, OrderIntent>, p: Payment)
    requires NewOrder(c, id, productRef, amount, buyer, now).Ok?
    requires id in orders && orders[id] == NewOrder(c, id, productRef, amount, buyer, now).value.0
    requires Follows(p, NewOrder(c, id, productRef, amount, buyer, now).value.1, buyer)
    ensures FindByMemo(orders, p.memo) == Some(orders[id])
    ensures Match(Observe(p), Some(orders[id])) == (VerdictMatched, NoReason)
    ensures var after := OrdersAfter(orders, p, FindByMemo(orders, p.memo));
            after == orders[id := orders[id].(status := Validated)]
  {
    NewOrderOpens(c, id, productRef, amount, buyer, now);
    AmountRoundTrip(amount);
    MatchMeaning(Observe(p), Some(orders[id]));
  }

  /** An amount that does not parse counts as zero and satisfies no order. */
  lemma {:induction false} UnparsableNeverMatched(p: Payment, order: OrderIntent)
    requires NewFromString(p.amount).None? && Acceptable(order.expectedAmount)
    ensures Match(Observe(p), Some(order)).0 != VerdictMatched
  {
    MatchMeaning(Observe(p), Some(order));
    NormalizeAcceptsExactly(order.expectedAmount);
    assert Value(ZERO) == 0.0;
  }
}
