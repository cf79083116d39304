/** lib/libsoroban/scval.go: Go values as Soroban values, and how the contract reads them back. */
module ScVal {
  import opened Wrappers
  import opened Models
  import Contract

  datatype ScVal =
    | ScvSymbol(sym: string)
    | ScvString(str: string)
    | ScvAddress(account: string)
    | ScvBytes(hash: Contract.MemoHash)
    | ScvI128(hi: int, lo: nat)
    | ScvVec(vec: seq<ScVal>)

  datatype EncodeError = UnnamedReason(reason: RejectReason) | BadStatus(status: OrderStatus)

  const TWO63: int := 0x8000_0000_0000_0000
  const TWO64: int := 0x1_0000_0000_0000_0000

  function ScEnum(variant: string, payload: seq<ScVal>): ScVal { ScvVec([ScvSymbol(variant)] + payload) }

  /** uint64(v) of a Go int64. */
  function Uint64(v: int): (u: nat)
    ensures u < TWO64
  {
    v % TWO64
  }

  function ScI128(v: int): ScVal { ScvI128(if v < 0 then -1 else 0, Uint64(v)) }

  function RejectVariant(r: RejectReason): Result<string, EncodeError> {
    match r
    case Underpayment => Ok("Underpayment")
    case WrongAsset => Ok("WrongAsset")
    case WrongDestination => Ok("WrongDestination")
    case WrongBuyerWallet => Ok("WrongBuyerWallet")
    case InvalidMemo => Ok("InvalidMemo")
    case _ => Err(UnnamedReason(r))
  }

  function StatusScVal(s: OrderStatus, reason: RejectReason): Result<ScVal, EncodeError> {
    match s
    case AwaitingPayment => Ok(ScEnum("AwaitingPayment", []))
    case PaymentDetected => Ok(ScEnum("PaymentDetected", []))
    case Validated => Ok(ScEnum("Validated", []))
    case Rejected =>
      (match RejectVariant(reason)
       case Ok(v) => Ok(ScEnum("Rejected", [ScEnum(v, [])]))
       case Err(e) => Err(e))
    case OtherStatus(_) => Err(BadStatus(s))
  }

  // --- The contract's side: #[contracttype] enums are vectors headed by the variant name ---------

  function DecodeReason(v: ScVal): Option<Contract.Reason> {
    if !(v.ScvVec? && |v.vec| == 1 && v.vec[0].ScvSymbol?) then None
    else if v.vec[0].sym == "Underpayment" then Some(Contract.Underpayment)
    else if v.vec[0].sym == "WrongAsset" then Some(Contract.WrongAsset)
    else if v.vec[0].sym == "WrongDestination" then Some(Contract.WrongDestination)
    else if v.vec[0].sym == "WrongBuyerWallet" then Some(Contract.WrongBuyerWallet)
    else if v.vec[0].sym == "InvalidMemo" then Some(Contract.InvalidMemo)
    else None
  }

  function DecodeStatus(v: ScVal): Option<Contract.Status> {
    if !(v.ScvVec? && |v.vec| >= 1 && v.vec[0].ScvSymbol?) then None
    else if |v.vec| == 1 && v.vec[0].sym == "AwaitingPayment" then Some(Contract.AwaitingPayment)
    else if |v.vec| == 1 && v.vec[0].sym == "PaymentDetected" then Some(Contract.PaymentDetected)
    else if |v.vec| == 1 && v.vec[0].sym == "Validated" then Some(Contract.Validated)
    else if |v.vec| == 2 && v.vec[0].sym == "Rejected" then
      match DecodeReason(v.vec[1]) { case Some(r) => Some(Contract.Rejected(r)) case None => None }
    else None
  }

  function DecodeI128(v: ScVal): int
    requires v.ScvI128?
  {
    v.hi * TWO64 + v.lo
  }

  // --- Meaning ----------------------------------------------------------------------------

  function ChainReason(r: RejectReason): Contract.Reason
    requires ValidRejectReason(r)
  {
    match r
    case Underpayment => Contract.Underpayment
    case WrongAsset => Contract.WrongAsset
    case WrongDestination => Contract.WrongDestination
    case WrongBuyerWallet => Contract.WrongBuyerWallet
    case InvalidMemo => Contract.InvalidMemo
  }

  /** A status the backend may send: named, and with a named reason when it is a rejection. */
  predicate Sendable(s: OrderStatus, r: RejectReason) {
    !s.OtherStatus? && (s == Rejected ==> ValidRejectReason(r))
  }

  /** The contract status a Go (status, reason) pair stands for. */
  function ChainStatus(s: OrderStatus, r: RejectReason): Contract.Status
    requires Sendable(s, r)
  {
    match s
    case AwaitingPayment => Contract.AwaitingPayment
    case PaymentDetected => Contract.PaymentDetected
    case Validated => Contract.Validated
    case Rejected => Contract.Rejected(ChainReason(r))
  }

  /** Encoding is defined exactly on the sendable pairs, and the contract reads back what was meant. */
  lemma {:induction false} StatusRoundTrip(s: OrderStatus, r: RejectReason)
    ensures StatusScVal(s, r).Ok? <==> Sendable(s, r)
    ensures Sendable(s, r) ==> DecodeStatus(StatusScVal(s, r).value) == Some(ChainStatus(s, r))
  {
    if s == Rejected && ValidRejectReason(r) {
      assert DecodeReason(ScEnum(RejectVariant(r).value, [])) == Some(ChainReason(r));
    }
  }

  lemma {:induction false} NoPayload(variant: string)
    ensures ScEnum(variant, []) == ScvVec([ScvSymbol(variant)])
  {
    assert [ScvSymbol(variant)] + [] == [ScvSymbol(variant)];
  }

  /** The names on the wire: a vector headed by the variant, and within a rejection one headed by the reason. */
  lemma {:induction false} WireNames(r: RejectReason)
    ensures StatusScVal(AwaitingPayment, r) == Ok(ScvVec([ScvSymbol("AwaitingPayment")]))
    ensures StatusScVal(PaymentDetected, r) == Ok(ScvVec([ScvSymbol("PaymentDetected")]))
    ensures StatusScVal(Validated, r) == Ok(ScvVec([ScvSymbol("Validated")]))
    ensures ValidRejectReason(r) ==>
      var name := match r case Underpayment => "Underpayment" case WrongAsset => "WrongAsset"
        case WrongDestination => "WrongDestination" case WrongBuyerWallet => "WrongBuyerWallet"
        case InvalidMemo => "InvalidMemo";
      StatusScVal(Rejected, r) == Ok(ScvVec([ScvSymbol("Rejected"), ScvVec([ScvSymbol(name)])]))
  {
    if ValidRejectReason(r) {
      var v := ScEnum(RejectVariant(r).value, []);
      assert v.vec == [ScvSymbol(RejectVariant(r).value)];
      assert ScEnum("Rejected", [v]).vec == [ScvSymbol("Rejected"), v];
    }
    NoPayload("AwaitingPayment");
    NoPayload("PaymentDetected");
    NoPayload("Validated");
  }

  /** What the contract makes of those names. */
  lemma {:induction false} WireReads()
    ensures DecodeStatus(ScvVec([ScvSymbol("AwaitingPayment")])) == Some(Contract.AwaitingPayment)
    ensures DecodeStatus(ScvVec([ScvSymbol("PaymentDetected")])) == Some(Contract.PaymentDetected)
    ensures DecodeStatus(ScvVec([ScvSymbol("Validated")])) == Some(Contract.Validated)
    ensures DecodeStatus(Refusal("Underpayment")) == Some(Contract.Rejected(Contract.Underpayment))
    ensures DecodeStatus(Refusal("WrongAsset")) == Some(Contract.Rejected(Contract.WrongAsset))
    ensures DecodeStatus(Refusal("WrongDestination")) == Some(Contract.Rejected(Contract.WrongDestination))
    ensures DecodeStatus(Refusal("WrongBuyerWallet")) == Some(Contract.Rejected(Contract.WrongBuyerWallet))
    ensures DecodeStatus(Refusal("InvalidMemo")) == Some(Contract.Rejected(Contract.InvalidMemo))
  {
    Reads("Underpayment", Contract.Underpayment);
    Reads("WrongAsset", Contract.WrongAsset);
    Reads("WrongDestination", Contract.WrongDestination);
    Reads("WrongBuyerWallet", Contract.WrongBuyerWallet);
    Reads("InvalidMemo", Contract.InvalidMemo);
  }

  function Refusal(name: string): ScVal { ScvVec([ScvSymbol("Rejected"), ScvVec([ScvSymbol(name)])]) }

  lemma {:induction false} Reads(name: string, r: Contract.Reason)
    requires DecodeReason(ScvVec([ScvSymbol(name)])) == Some(r)
    ensures DecodeStatus(Refusal(name)) == Some(Contract.Rejected(r))
  {}

  /** Two pairs have one encoding exactly when they agree on the status and, for rejections, on the reason. */
  lemma {:induction false} StatusEncodingInjective(s1: OrderStatus, r1: RejectReason, s2: OrderStatus, r2: RejectReason)
    requires Sendable(s1, r1) && Sendable(s2, r2)
    ensures StatusScVal(s1, r1) == StatusScVal(s2, r2) <==> s1 == s2 && (s1 == Rejected ==> r1 == r2)
  {
    StatusRoundTrip(s1, r1);
    StatusRoundTrip(s2, r2);
  }

  /** The two transition tables are one graph. */
  lemma {:induction false} SameGraph(s1: OrderStatus, r1: RejectReason, s2: OrderStatus, r2: RejectReason)
    requires Sendable(s1, r1) && Sendable(s2, r2)
    ensures CanTransition(s1, s2) <==> Contract.CanTransition(ChainStatus(s1, r1), ChainStatus(s2, r2))
  {}

  /** Both halves of scI128 carry the number, for every int64, negative ones included. */
  lemma {:induction false} I128RoundTrip(v: int)
    requires -TWO63 <= v < TWO63
    ensures DecodeI128(ScI128(v)) == v
    ensures -TWO63 <= ScI128(v).hi < TWO63 && ScI128(v).lo < TWO64
  {
    if v < 0 {
      assert (v + TWO64) % TWO64 == v % TWO64;
    }
  }
}
