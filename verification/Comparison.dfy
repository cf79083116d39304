/** api/v1/evidence_api.go: the expected-versus-observed view, and its agreement with the verdict. */
module Comparison {
  import opened Wrappers
  import opened Text
  import opened Decimals
  import opened Instruction
  import opened Models
  import opened Matcher

  datatype Field = Amount | AssetCode | AssetIssuer | DestinationAccount | BuyerWallet | Memo

  datatype FieldComparison = FieldComparison(field: Field, expected: string, observed: string, matches: bool)

  const FIELDS := [Amount, AssetCode, AssetIssuer, DestinationAccount, BuyerWallet, Memo]

  function Expected(order: OrderIntent, f: Field): string {
    match f
    case Amount => StringFixed7(order.expectedAmount)
    case AssetCode => order.assetCode
    case AssetIssuer => order.assetIssuer
    case DestinationAccount => order.destinationAccount
    case BuyerWallet => order.buyerWallet
    case Memo => order.memo
  }

  function Shown(ev: PaymentEvidence, f: Field): string {
    match f
    case Amount => StringFixed7(ev.amount)
    case AssetCode => ev.assetCode
    case AssetIssuer => ev.assetIssuer
    case DestinationAccount => ev.destinationAccount
    case BuyerWallet => ev.sourceAccount
    case Memo => ev.memo
  }

  /** Equal strings, or an overpayment. */
  predicate FieldMatches(order: OrderIntent, ev: PaymentEvidence, f: Field) {
    Expected(order, f) == Shown(ev, f) || (f == Amount && GreaterThan(ev.amount, order.expectedAmount))
  }

  method Compare(order: OrderIntent, ev: PaymentEvidence) returns (out: seq<FieldComparison>)
    ensures |out| == |FIELDS|
    ensures forall i :: 0 <= i < |FIELDS| ==>
      out[i] == FieldComparison(FIELDS[i], Expected(order, FIELDS[i]), Shown(ev, FIELDS[i]),
        FieldMatches(order, ev, FIELDS[i]))
  {
    hide StringFixed7, GreaterThan;
    var pairs := [
      (Amount, StringFixed7(order.expectedAmount), StringFixed7(ev.amount)),
      (AssetCode, order.assetCode, ev.assetCode),
      (AssetIssuer, order.assetIssuer, ev.assetIssuer),
      (DestinationAccount, order.destinationAccount, ev.destinationAccount),
      (BuyerWallet, order.buyerWallet, ev.sourceAccount),
      (Memo, order.memo, ev.memo)];
    out := [];
    for k := 0 to |pairs|
      invariant |out| == k
      invariant forall i :: 0 <= i < k ==>
        out[i] == FieldComparison(FIELDS[i], Expected(order, FIELDS[i]), Shown(ev, FIELDS[i]),
          FieldMatches(order, ev, FIELDS[i]))
    {
      var (field, expected, observed) := pairs[k];
      var same := expected == observed;
      if field == Amount && !same && GreaterThan(ev.amount, order.expectedAmount) {
        same := true;
      }
      out := out + [FieldComparison(field, expected, observed, same)];
    }
  }

  ghost predicate AllMatch(order: OrderIntent, ev: PaymentEvidence) {
    forall f: Field :: FieldMatches(order, ev, f)
  }

  /** The reject reason of the first field that fails, in the matcher's order of precedence. */
  function FirstMismatch(order: OrderIntent, ev: PaymentEvidence): RejectReason {
    if !FieldMatches(order, ev, DestinationAccount) then WrongDestination
    else if !FieldMatches(order, ev, AssetCode) || !FieldMatches(order, ev, AssetIssuer) then WrongAsset
    else if !FieldMatches(order, ev, BuyerWallet) then WrongBuyerWallet
    else if !FieldMatches(order, ev, Amount) then Underpayment
    else NoReason
  }

  /** The payment falls short by at most half a stroop, which rounding to seven places hides. */
  ghost predicate ShortByAHair(observed: Decimal, expected: Decimal) {
    Value(observed) < Value(expected) && Stroops(expected) - 0.5 <= Stroops(observed)
  }

  /** Two fixed-7 strings agree exactly when the rounded amounts do. */
  lemma {:induction false} FixedStringsEqual(a: Decimal, b: Decimal)
    requires RoundStroops(a) >= 0
    ensures StringFixed7(a) == StringFixed7(b) <==> RoundStroops(a) == RoundStroops(b)
  {
    var m, n := RoundStroops(a), RoundStroops(b);
    var w, f := Fixed7Parts(m);
    if n < 0 {
      assert Fixed7(m)[0] == w[0];
    } else if Fixed7(m) == Fixed7(n) {
      Fixed7Injective(m, n);
    }
  }

  /** An evidence row holds what was observed, with the amount as its column keeps it. */
  predicate RowOf(ev: PaymentEvidence, o: Observed) {
    && ev.sourceAccount == o.source && ev.destinationAccount == o.destination
    && ev.assetCode == o.assetCode && ev.assetIssuer == o.assetIssuer
    && ev.amount == ToColumn(o.amount) && ev.memo == o.memo
  }

  /** The amount row matches the stored amount exactly when the payment covers the order or is short by a hair. */
  lemma {:induction false} AmountRow(order: OrderIntent, o: Observed, ev: PaymentEvidence)
    requires Acceptable(order.expectedAmount) && RowOf(ev, o)
    ensures FieldMatches(order, ev, Amount) <==>
            Value(order.expectedAmount) <= Value(o.amount) || ShortByAHair(o.amount, order.expectedAmount)
  {
    var d, e := o.amount, order.expectedAmount;
    NormalizeAcceptsExactly(e);
    RoundExact(e);
    RoundNearest(d);
    ValueSign(d);
    RoundExact(ev.amount);
    ColumnKeepsStroops(d);
    FixedStringsEqual(e, ev.amount);
    LessThanIsValueOrder(e, ev.amount);
  }

  /** The other rows match exactly when the observed field is the order's. */
  lemma {:induction false} OtherRows(order: OrderIntent, o: Observed, ev: PaymentEvidence)
    requires RowOf(ev, o) && order.memo == o.memo
    ensures FieldMatches(order, ev, DestinationAccount) <==> o.destination == order.destinationAccount
    ensures FieldMatches(order, ev, AssetCode) <==> o.assetCode == order.assetCode
    ensures FieldMatches(order, ev, AssetIssuer) <==> o.assetIssuer == order.assetIssuer
    ensures FieldMatches(order, ev, BuyerWallet) <==> o.source == order.buyerWallet
    ensures FieldMatches(order, ev, Memo)
    ensures AllMatch(order, ev) <==> FirstMismatch(order, ev) == NoReason
  {
    var none := FieldMatches(order, ev, Amount) && FieldMatches(order, ev, AssetCode)
      && FieldMatches(order, ev, AssetIssuer)
                && FieldMatches(order, ev, DestinationAccount) && FieldMatches(order, ev, BuyerWallet);
    if none {
      forall f: Field ensures FieldMatches(order, ev, f) {
        match f
        case Amount =>
        case AssetCode =>
        case AssetIssuer =>
        case DestinationAccount =>
        case BuyerWallet =>
        case Memo =>
      }
    }
  }

  /** A shortfall the view hides: all else is as ordered, and the amount is short by a hair. */
  ghost predicate Hidden(o: Observed, order: OrderIntent) {
    && o.destination == order.destinationAccount
    && o.assetCode == order.assetCode && o.assetIssuer == order.assetIssuer
    && o.source == order.buyerWallet
    && ShortByAHair(o.amount, order.expectedAmount)
  }

  /**
   * For a payment judged against an open order, the stored row shows every field matching exactly when
   * the verdict is matched, and the first mismatching field names the reason; each of the two holds
   * if and only if the verdict is not an underpayment by at most half a stroop.
   */
  lemma {:induction false} ViewAgrees(order: OrderIntent, o: Observed, ev: PaymentEvidence)
    requires Acceptable(order.expectedAmount) && !OrderFinal(order.status)
    requires RowOf(ev, o) && order.memo == o.memo
    ensures (AllMatch(order, ev) <==> Match(o, Some(order)).0 == VerdictMatched) <==> !Hidden(o, order)
    ensures FirstMismatch(order, ev) == Match(o, Some(order)).1 <==> !Hidden(o, order)
  {
    AmountRow(order, o, ev);
    OtherRows(order, o, ev);
    LessThanIsValueOrder(o.amount, order.expectedAmount);
  }

  /** With at most seven places, as Horizon reports amounts, the view and the verdict never part. */
  lemma {:induction false} SevenPlacesAgree(order: OrderIntent, o: Observed, ev: PaymentEvidence)
    requires Acceptable(order.expectedAmount) && !OrderFinal(order.status)
    requires RowOf(ev, o) && order.memo == o.memo && o.amount.exp >= -PLACES
    ensures AllMatch(order, ev) <==> Match(o, Some(order)).0 == VerdictMatched
    ensures FirstMismatch(order, ev) == Match(o, Some(order)).1
  {
    ViewAgrees(order, o, ev);
    WholeStroops(o.amount, order.expectedAmount);
  }

  lemma {:induction false} WholeStroops(a: Decimal, b: Decimal)
    requires a.exp >= -PLACES && b.exp >= -PLACES
    ensures !ShortByAHair(a, b)
  {
    RoundExact(a);
    RoundExact(b);
  }

  /**
   * 0.99999995 against 1: rejected as an underpayment, shown with every field matching. Stellar amounts have
   * seven places, so no ledger payment is such an input.
   */
  lemma {:induction false} HiddenUnderpayment(order: OrderIntent, o: Observed, ev: PaymentEvidence)
    requires order.expectedAmount == Decimal(10_000_000, -7) && order.status == AwaitingPayment
    requires o == Observed(order.buyerWallet, order.destinationAccount, order.assetCode, order.assetIssuer,
                           Decimal(99_999_995, -8), order.memo)
    requires RowOf(ev, o)
    ensures Match(o, Some(order)) == (VerdictRejected, Underpayment) && AllMatch(order, ev)
  {
    AHairUnderOne();
    ViewAgrees(order, o, ev);
    LessThanIsValueOrder(o.amount, order.expectedAmount);
  }

  lemma {:induction false} AHairUnderOne()
    ensures Acceptable(Decimal(10_000_000, -7))
    ensures ShortByAHair(Decimal(99_999_995, -8), Decimal(10_000_000, -7))
  {
    StroopScale();
    MulAssoc(99_999_995.0, Scale(-8), (10 * STROOP) as real);
    assert 10.0 * Stroops(Decimal(99_999_995, -8)) == 99_999_995.0;
    RoundExact(Decimal(10_000_000, -7));
    assert Pow10(0) == 1;
  }
}
