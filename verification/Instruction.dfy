/** lib/libstellar/instruction.go and the order endpoint of api/v1/order_api.go. */
module Instruction {
  import opened Wrappers
  import opened Text
  import opened Decimals
  import opened Models

  /** 2^63 - 1 stroops, the ceiling of a Stellar amount. */
  const MAX_STROOPS: nat := 9_223_372_036_854_775_807
  const MAX_AMOUNT := Decimal(MAX_STROOPS, -7)
  const MEMO_TEXT_MAX_BYTES := 28
  const ACCOUNT_LENGTH := 56

  datatype InstructionError = NotPositive | AboveCeiling | TooPrecise | BadMemo | BadWallet

  /** The fields of StellarConfig that reach an order. */
  datatype StellarConfig = StellarConfig(
    assetCode: string, assetIssuer: string, destinationAccount: string, networkPassphrase: string)

  /** PaymentInstruction without its URI, which repeats the fields percent-encoded. */
  datatype PaymentInstruction = PaymentInstruction(
    destination: string, assetCode: string, assetIssuer: string, amount: string, memo: string,
    memoType: string, network: string)

  function NormalizeAmount(amount: Decimal): Result<string, InstructionError> {
    if !GreaterThan(amount, ZERO) then Err(NotPositive)
    else if GreaterThan(amount, MAX_AMOUNT) then Err(AboveCeiling)
    else if amount.exp < -PLACES then Err(TooPrecise)
    else Ok(StringFixed7(amount))
  }

  /** An amount an order can carry: positive, at most seven places, within int64 stroops. */
  predicate Acceptable(d: Decimal) { d.exp >= -PLACES && 0 < RoundStroops(d) <= MAX_STROOPS }

  /** The memo is measured in bytes; ids and memos here are one byte a character. */
  predicate ValidMemo(memo: string) { memo != "" && |memo| <= MEMO_TEXT_MAX_BYTES }

  predicate ValidAccount(addr: string) { |addr| == ACCOUNT_LENGTH && addr[0] == 'G' }

  function BuildInstruction(c: StellarConfig, amount: Decimal, memo: string): Result<PaymentInstruction,
    InstructionError> {
    match NormalizeAmount(amount)
    case Err(e) => Err(e)
    case Ok(s) =>
      if !ValidMemo(memo) then Err(BadMemo)
      else Ok(PaymentInstruction(c.destinationAccount, c.assetCode, c.assetIssuer, s, memo, "MEMO_TEXT",
        c.networkPassphrase))
  }

  /** order.ExpectedAmount.Shift(7).IntPart(): the coefficient at exponent 0, truncated, then wrapped to int64. */
  function ChainStroops(amount: Decimal): (r: int)
    ensures -0x8000_0000_0000_0000 <= r < 0x8000_0000_0000_0000
  {
    Wrap64(Rescale(Decimal(amount.coeff, amount.exp + PLACES), 0))
  }

  /** big.Int.Int64: the low 64 bits, read as two's complement. */
  function Wrap64(n: int): (r: int)
    ensures -0x8000_0000_0000_0000 <= r < 0x8000_0000_0000_0000
  {
    var low := n % 0x1_0000_0000_0000_0000;
    if low < 0x8000_0000_0000_0000 then low else low - 0x1_0000_0000_0000_0000
  }

  /** NormalizeAmount accepts exactly the acceptable amounts; no accepted amount is rounded. */
  lemma {:induction false} NormalizeAcceptsExactly(d: Decimal)
    ensures NormalizeAmount(d).Ok? <==> Acceptable(d)
    ensures Acceptable(d) <==> d.exp >= -PLACES && 0.0 < Stroops(d) <= MAX_STROOPS as real
    ensures Acceptable(d) ==> NormalizeAmount(d) == Ok(Fixed7(RoundStroops(d)))
  {
    LessThanIsValueOrder(ZERO, d);
    LessThanIsValueOrder(MAX_AMOUNT, d);
    RoundExact(MAX_AMOUNT);
    assert Value(ZERO) == 0.0;
    assert Pow10(0) == 1;
    if d.exp >= -PLACES {
      RoundExact(d);
    }
  }

  /** Which of the three refusals an amount meets: its value is looked at before its places. */
  lemma {:induction false} NormalizeRefuses(d: Decimal)
    ensures NormalizeAmount(d) == Err(NotPositive) <==> Value(d) <= 0.0
    ensures NormalizeAmount(d) == Err(AboveCeiling) <==> Stroops(d) > MAX_STROOPS as real
    ensures NormalizeAmount(d) == Err(TooPrecise) <==>
      0.0 < Stroops(d) <= MAX_STROOPS as real && d.exp < -PLACES
  {
    LessThanIsValueOrder(ZERO, d);
    LessThanIsValueOrder(MAX_AMOUNT, d);
    RoundExact(MAX_AMOUNT);
    assert Value(ZERO) == 0.0;
    assert Pow10(0) == 1;
  }

  /** The string an accepted amount is shown as parses back to that very amount. */
  lemma {:induction false} AmountRoundTrip(d: Decimal)
    requires Acceptable(d)
    ensures var back := NewFromString(NormalizeAmount(d).value);
            back.Some? && Value(back.value) == Value(d) && back.value == ToColumn(d)
  {
    NormalizeAcceptsExactly(d);
    ParseFixed7(RoundStroops(d));
    ColumnKeepsStroops(d);
  }

  /** Shift(7).IntPart() neither truncates nor wraps on an accepted amount. */
  lemma {:induction false} ChainStroopsLossless(d: Decimal)
    requires Acceptable(d)
    ensures ChainStroops(d) == RoundStroops(d) && ChainStroops(d) as real == Stroops(d)
    ensures ChainStroops(ToColumn(d)) == ChainStroops(d)
  {
    RoundExact(d);
    RoundExact(ToColumn(d));
    assert Rescale(Decimal(d.coeff, d.exp + PLACES), 0) == d.coeff * Pow10(d.exp + PLACES);
    assert Pow10(0) == 1;
  }
}
