/** The three tables, and the statements the backend runs on them. */
module Database {
  import opened Wrappers
  import opened Decimals
  import opened Instruction
  import opened Models
  import opened Backlog
  import opened Ingest
  import opened Sweep
  import opened Protocol

  class Tables {
    var orders: map<string, OrderIntent>
    var evidence: seq<PaymentEvidence>
    var cursors: map<string, nat>

    constructor ()
      ensures View() == EMPTY_DB
    {
      orders, evidence, cursors := map[], [], map[];
    }

    function View(): Db
      reads this
    {
      Db(orders, evidence, cursors)
    }

    /** POST /orders: builds the instruction, then inserts the opening row under a fresh id. */
    method CreateOrder(c: StellarConfig, id: string, productRef: string, amount: Decimal, buyer: string, now: nat)
      returns (r: Result<(OrderIntent, PaymentInstruction), InstructionError>)
      requires id !in orders
      modifies this`orders
      ensures r == NewOrder(c, id, productRef, amount, buyer, now)
      ensures orders == if r.Ok? then old(orders)[id := r.value.0] else old(orders)
    {
      if !ValidAccount(buyer) {
        return Err(BadWallet);
      }
      var instruction := BuildInstruction(c, amount, id);
      if instruction.Err? {
        return Err(instruction.error);
      }
      var row := OrderIntent(id, productRef, ToColumn(amount), c.assetCode, c.assetIssuer, c.destinationAccount,
                             id, buyer, AwaitingPayment, NoReason, None, now);
      orders := orders[id := row];
      return Ok((row, instruction.value));
    }

    /** INSERT ... ON CONFLICT DO NOTHING; true when a row was inserted. */
    method InsertEvidence(ev: PaymentEvidence) returns (inserted: bool)
      modifies this`evidence
      ensures inserted <==> !Seen(old(evidence), ev.opId)
      ensures evidence == if inserted then old(evidence) + [ev] else old(evidence)
    {
      for j := 0 to |evidence|
        invariant forall k :: 0 <= k < j ==> evidence[k].opId != ev.opId
        invariant evidence == old(evidence)
      {
        if evidence[j].opId == ev.opId {
          return false;
        }
      }
      evidence := evidence + [ev];
      return true;
    }

    /** UPDATE ... SET status WHERE id = ? AND status = ?; true when a row changed. */
    method UpdateStatus(id: string, from: OrderStatus, to: OrderStatus) returns (changed: bool)
      modifies this`orders
      ensures changed <==> id in old(orders) && old(orders)[id].status == from
      ensures orders == if changed then old(orders)[id := old(orders)[id].(status := to)] else old(orders)
    {
      changed := id in orders && orders[id].status == from;
      if changed {
        orders := orders[id := orders[id].(status := to)];
      }
    }

    /** UPDATE ... SET status, reject_reason WHERE id = ? AND status = ?. */
    method UpdateVerdict(id: string, from: OrderStatus, to: OrderStatus, reason: RejectReason) returns (changed: bool)
      modifies this`orders
      ensures changed <==> id in old(orders) && old(orders)[id].status == from
      ensures orders == if changed then old(orders)[id :=
        old(orders)[id].(status := to, rejectReason := reason)] else old(orders)
    {
      changed := id in orders && orders[id].status == from;
      if changed {
        orders := orders[id := orders[id].(status := to, rejectReason := reason)];
      }
    }

    /** UPDATE ... SET on_chain_tx_hash WHERE id = ?. */
    method SaveHash(id: string, tx: TxHash)
      requires id in orders
      modifies this`orders
      ensures View() == WithHash(old(View()), id, tx)
    {
      orders := orders[id := orders[id].(onChainTxHash := Some(tx))];
    }

    method SaveCursor(stream: string, cursor: nat)
      modifies this`cursors
      ensures cursors == old(cursors)[stream := cursor]
    {
      cursors := cursors[stream := cursor];
    }

    method Rollback(to: Db)
      modifies this
      ensures View() == to
    {
      orders, evidence, cursors := to.orders, to.evidence, to.cursors;
    }

    /** The sweep query: settled rows without a hash, oldest first, at most twenty; ties in any order. */
    method SelectUnsynced() returns (rows: seq<OrderIntent>)
      requires forall id :: id in orders ==> orders[id].id == id
      ensures IsSweepQuery(orders, rows)
    {
      var left := set id | id in orders && AwaitsHash(orders[id]);
      rows := [];
      while |rows| < WINDOW && left != {}
        invariant |rows| <= WINDOW && OldestTaken(orders, rows, left)
        decreases |left|
      {
        OldestExists(orders, left);
        var id :| id in left && forall k :: k in left ==> orders[id].createdAt <= orders[k].createdAt;
        TakeOldest(orders, rows, left, id);
        rows := rows + [orders[id]];
        left := left - {id};
      }
    }
  }
}
