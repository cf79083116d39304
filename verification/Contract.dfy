/** contracts/order-status/src/lib.rs: the on-chain order registry. */
module Contract {
  import opened Wrappers

  datatype Reason = Underpayment | WrongAsset | WrongDestination | WrongBuyerWallet | InvalidMemo

  datatype Status = AwaitingPayment | PaymentDetected | Validated | Rejected(reason: Reason)

  /** SHA-256 of a memo, treated as an injective constructor. */
  datatype MemoHash = Sha256(memo: string)

  datatype Order = Order(buyer: string, expectedAmount: int, asset: string, memoHash: MemoHash, status: Status)

  /** The three contract errors, and the trap of require_auth. */
  datatype Error = AlreadyExists | NotFound | InvalidTransition | AuthTrap

  /** One invocation, as the contract decodes it. */
  datatype Call =
    | CreateCall(id: string, buyer: string, expectedAmount: int, asset: string, memoHash: MemoHash)
    | StatusCall(id: string, status: Status)

  type Store = map<string, Order>

  predicate CanTransition(from: Status, to: Status) {
    || (from.AwaitingPayment? && to.PaymentDetected?)
    || (from.PaymentDetected? && (to.Validated? || to.Rejected?))
  }

  predicate Final(s: Status) { s.Validated? || s.Rejected? }

  /** Whether the contract accepts an operator-signed call in this state. */
  predicate Accepts(store: Store, c: Call) {
    match c
    case CreateCall(id, _, _, _, _) => id !in store
    case StatusCall(id, s) => id in store && CanTransition(store[id].status, s)
  }

  /** The state after an operator-signed call: unchanged when it is refused. */
  function Apply(store: Store, c: Call): Store {
    if !Accepts(store, c) then store
    else match c
      case CreateCall(id, b, a, t, h) => store[id := Order(b, a, t, h, AwaitingPayment)]
      case StatusCall(id, s) => store[id := store[id].(status := s)]
  }

  predicate Fulfillable(store: Store, id: string) { id in store && store[id].status == Validated }

  class OrderStatusContract {
    const operator: string
    var orders: Store

    constructor (operator: string)
      ensures this.operator == operator && orders == map[]
    {
      this.operator := operator;
      orders := map[];
    }

    method CreateOrder(caller: string, orderId: string, buyer: string, expectedAmount: int, asset: string,
      memoHash: MemoHash)
      returns (r: Result<(), Error>)
      modifies this
      ensures r.Ok? <==> caller == operator && orderId !in old(orders)
      ensures r.Err? ==> r.error == (if caller != operator then AuthTrap else AlreadyExists) && orders == old(orders)
      ensures r.Ok? ==> orders == old(orders)[orderId := Order(buyer, expectedAmount, asset, memoHash, AwaitingPayment)]
    {
      if caller != operator {
        return Err(AuthTrap);
      }
      if orderId in orders {
        return Err(AlreadyExists);
      }
      orders := orders[orderId := Order(buyer, expectedAmount, asset, memoHash, AwaitingPayment)];
      return Ok(());
    }

    method SetStatus(caller: string, orderId: string, status: Status) returns (r: Result<(), Error>)
      modifies this
      ensures r.Ok? <==>
        caller == operator && orderId in old(orders) && CanTransition(old(orders)[orderId].status, status)
      ensures r.Err? ==>
        && r.error == (if caller != operator then AuthTrap
                       else if orderId !in old(orders) then NotFound
                       else InvalidTransition)
        && orders == old(orders)
      ensures r.Ok? ==> orders == old(orders)[orderId := old(orders)[orderId].(status := status)]
    {
      if caller != operator {
        return Err(AuthTrap);
      }
      if orderId !in orders {
        return Err(NotFound);
      }
      var order := orders[orderId];
      if !CanTransition(order.status, status) {
        return Err(InvalidTransition);
      }
      order := order.(status := status);
      orders := orders[orderId := order];
      return Ok(());
    }

    function GetOrder(orderId: string): (r: Result<Order, Error>)
      reads this
      ensures r.Ok? <==> orderId in orders
      ensures r.Ok? ==> r.value == orders[orderId]
      ensures r.Err? ==> r.error == NotFound
    {
      if orderId in orders then Ok(orders[orderId]) else Err(NotFound)
    }

    function IsFulfillable(orderId: string): (r: bool)
      reads this
      ensures r <==> GetOrder(orderId).Ok? && GetOrder(orderId).value.status == Validated
    {
      if orderId in orders then orders[orderId].status == Validated else false
    }
  }

  /** A settled order refuses every further call, whoever sends it. */
  lemma {:induction false} FinalIsForever(store: Store, c: Call, id: string)
    requires id in store && Final(store[id].status)
    ensures id in Apply(store, c) && Apply(store, c)[id] == store[id]
    ensures c.id == id ==> !Accepts(store, c)
  {}
}
