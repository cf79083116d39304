/** The orders that wait for their hash: what the sweep query returns, and which of them a process has exhausted. */
module Backlog {
  import opened Models

  type Orders = map<string, OrderIntent>

  const BATCH: nat := 5
  const WINDOW: nat := 20
  const MAX_ATTEMPTS: nat := 3

  function Count(m: map<string, nat>, id: string): nat { if id in m then m[id] else 0 }

  predicate Exhausted(failed: map<string, nat>, id: string) { Count(failed, id) >= MAX_ATTEMPTS }

  /** An order the sweep query returns: settled, and without a transaction hash. */
  predicate Unsynced(orders: Orders, id: string) { id in orders && AwaitsHash(orders[id]) }

  predicate Has(rows: seq<OrderIntent>, id: string) { exists i :: 0 <= i < |rows| && rows[i].id == id }

  /**
   * What the sweep query may return: up to twenty unsynced rows, oldest first, leaving out only younger
   * or equally old ones. Rows created in the same second come in any order.
   */
  ghost predicate IsSweepQuery(orders: Orders, rows: seq<OrderIntent>) {
    && |rows| <= WINDOW
    && (forall i :: 0 <= i < |rows| ==> Unsynced(orders, rows[i].id) && rows[i] == orders[rows[i].id])
    && (forall i, j :: 0 <= i < j < |rows| ==> rows[i].id != rows[j].id && rows[i].createdAt <= rows[j].createdAt)
    && (forall id :: Unsynced(orders, id) ==>
          || Has(rows, id)
          || (|rows| == WINDOW && forall i :: 0 <= i < |rows| ==> rows[i].createdAt <= orders[id].createdAt))
  }

  function Ids(rows: seq<OrderIntent>): (ids: seq<string>)
    ensures |ids| == |rows| && forall i :: 0 <= i < |rows| ==> ids[i] == rows[i].id
  {
    seq(|rows|, i requires 0 <= i < |rows| => rows[i].id)
  }
}
