/** Clean sweeps bring every order on chain that can still get there, unless twenty stuck ones stand in front. */
module Recovery {
  import opened Models
  import opened Backlog
  import opened Sums
  import opened Sweep
  import Contract
  import Strkey

  /** Whether a fault-free writeChain gets its verdict through. */
  ghost predicate Healable(store: Contract.Store, id: string, wallet: string) {
    if id in store then !Contract.Final(store[id].status) else Strkey.Decodes(wallet)
  }

  ghost predicate SameEntry(a: Contract.Store, b: Contract.Store, id: string) {
    (id in a <==> id in b) && (id in a && id in b ==> a[id] == b[id])
  }

  /** Waiting, with tries left, and able to get through. */
  ghost predicate Live(orders: Orders, failed: map<string, nat>, store: Contract.Store, id: string) {
    Unsynced(orders, id) && !Exhausted(failed, id) && Healable(store, id, orders[id].buyerWallet)
  }

  /** The orders without a hash that are exhausted, or final on chain, or unknown there with an undecodable wallet. */
  ghost function StuckIds(orders: Orders, failed: map<string, nat>, store: Contract.Store): set<string> {
    set id | id in orders && Unsynced(orders, id) && !Live(orders, failed, store, id)
  }

  /** The table, the counters and the registry. */
  datatype Scene = Scene(orders: Orders, failed: map<string, nat>, store: Contract.Store)

  /**
   * One sweep whose calls meet no fault and whose hashes are saved: a try succeeds exactly if its order can be
   * healed.
   */
  ghost predicate CleanSweep(a: Scene, rows: seq<OrderIntent>, tries: seq<Try>, b: Scene) {
    && IsSweepQuery(a.orders, rows) && TriedIds(tries) == Chosen(rows, a.failed)
    && b.orders == OrdersAfterAll(a.orders, tries) && b.failed == FailedAfterAll(a.failed, tries)
    && (forall j :: 0 <= j < |tries| ==>
          tries[j].id in a.orders
            && (tries[j].ack.Some? <==> Healable(a.store, tries[j].id, a.orders[tries[j].id].buyerWallet)))
    && (forall id :: id !in TriedIds(tries) ==> SameEntry(a.store, b.store, id))
  }

  /** Tries only ever write hashes. */
  lemma {:induction false} HashesWritten(orders: Orders, tries: seq<Try>)
    ensures var after := OrdersAfterAll(orders, tries);
            && after.Keys == orders.Keys
            && forall id :: id in orders && Unsynced(after, id) ==> Unsynced(orders, id)
  {
    if tries != [] {
      HashesWritten(orders, tries[..|tries| - 1]);
    }
  }

  /** An acknowledged try leaves its order synced. */
  lemma {:induction false} AckedIsSynced(orders: Orders, tries: seq<Try>, j: nat)
    requires j < |tries| && tries[j].ack.Some? && tries[j].id in orders
    ensures !Unsynced(OrdersAfterAll(orders, tries), tries[j].id)
  {
    var front := tries[..|tries| - 1];
    HashesWritten(orders, front);
    if j < |front| {
      AckedIsSynced(orders, front, j);
    }
  }

  /** What was live and is still without a hash was not tried, and is as live as before. */
  lemma {:induction false} LiveStays(a: Scene, rows: seq<OrderIntent>, tries: seq<Try>, b: Scene, id: string)
    requires CleanSweep(a, rows, tries, b) && Live(a.orders, a.failed, a.store, id) && Unsynced(b.orders, id)
    ensures Live(b.orders, b.failed, b.store, id)
  {
    hide IsSweepQuery, OrdersAfterAll, FailedAfterAll, Chosen, Strkey.Decodes;
    if id in TriedIds(tries) {
      var j :| 0 <= j < |tries| && TriedIds(tries)[j] == id;
      assert tries[j].id == id;
      AckedIsSynced(a.orders, tries, j);
    } else {
      OrdersElsewhere(a.orders, tries, id);
      FailedElsewhere(a.failed, tries, id);
      assert SameEntry(a.store, b.store, id);
    }
  }

  /** A clean sweep syncs or spares every live order, makes none stuck, and uses up one attempt a try. */
  lemma {:induction false} CleanSweepHeals(a: Scene, rows: seq<OrderIntent>, tries: seq<Try>, b: Scene)
    requires CleanSweep(a, rows, tries, b)
    ensures forall id :: Unsynced(b.orders, id) ==> Unsynced(a.orders, id)
    ensures StuckIds(b.orders, b.failed, b.store) <= StuckIds(a.orders, a.failed, a.store)
    ensures Potential(b.orders, b.failed) + |tries| <= Potential(a.orders, a.failed)
    ensures tries == [] && |StuckIds(a.orders, a.failed, a.store)| < WINDOW ==>
      forall id :: Unsynced(a.orders, id) ==> id in StuckIds(a.orders, a.failed, a.store)
  {
    hide Live, Unsynced, Healable, SameEntry, OrdersAfterAll, FailedAfterAll, Potential, ValidTries, IsSweepQuery,
      Exhausted;
    HashesWritten(a.orders, tries);
    UnsyncedIsThere(b.orders);
    forall id | id in StuckIds(b.orders, b.failed, b.store) ensures id in StuckIds(a.orders, a.failed, a.store) {
      if Live(a.orders, a.failed, a.store, id) { LiveStays(a, rows, tries, b, id); }
    }
    var sw := Sweeping(a.orders, rows, tries);
    SweepTriesValid(a.failed, sw);
    TriesAreBounded(a.orders, a.failed, tries);
    if tries == [] && |StuckIds(a.orders, a.failed, a.store)| < WINDOW {
      NothingTried(a, rows);
    }
  }

  lemma {:induction false} UnsyncedIsThere(orders: Orders)
    ensures forall id :: Unsynced(orders, id) ==> id in orders
  {}

  lemma {:induction false} NothingTried(a: Scene, rows: seq<OrderIntent>)
    requires IsSweepQuery(a.orders, rows) && Chosen(rows, a.failed) == []
    requires |StuckIds(a.orders, a.failed, a.store)| < WINDOW
    ensures forall id :: Unsynced(a.orders, id) ==> id in StuckIds(a.orders, a.failed, a.store)
  {
    hide IsSweepQuery, Healable, Chosen;
    assert ExhaustedIds(a.orders, a.failed) <= StuckIds(a.orders, a.failed, a.store);
    SubsetSize(ExhaustedIds(a.orders, a.failed), StuckIds(a.orders, a.failed, a.store));
    SweepProgress(a.orders, rows, a.failed);
  }

  /** With no tries left, every order without a hash is exhausted. */
  lemma {:induction false} NoTriesLeft(orders: Orders, failed: map<string, nat>, id: string)
    requires Unsynced(orders, id) && Potential(orders, failed) <= 0
    ensures Exhausted(failed, id)
  {
    SumRemove(UnsyncedIds(orders), Left(failed), id);
    SumNonnegative(UnsyncedIds(orders) - {id}, Left(failed));
  }

  /** After i clean sweeps: nothing new is stuck, and i tries were used up unless only the stuck are left. */
  ghost predicate Mending(stuck: set<string>, tries: int, i: int, now: Scene) {
    && StuckIds(now.orders, now.failed, now.store) <= stuck
    && (Potential(now.orders, now.failed) + i <= tries || forall id :: Unsynced(now.orders, id) ==> id in stuck)
  }

  lemma {:induction false} MendingStep(stuck: set<string>, total: int, i: int, a: Scene, rows: seq<OrderIntent>,
    tries: seq<Try>, b: Scene)
    requires |stuck| < WINDOW && Mending(stuck, total, i, a) && CleanSweep(a, rows, tries, b)
    ensures Mending(stuck, total, i + 1, b)
  {
    hide CleanSweep, StuckIds, Potential, Unsynced;
    SubsetSize(StuckIds(a.orders, a.failed, a.store), stuck);
    CleanSweepHeals(a, rows, tries, b);
  }

  /** Orders that are created, and do not wait for a hash, change nothing. */
  lemma {:induction false} MendingKept(stuck: set<string>, total: int, i: int, a: Scene, b: Scene)
    requires Mending(stuck, total, i, a) && a.failed == b.failed && a.store == b.store
    requires forall id :: Unsynced(b.orders, id) <==> Unsynced(a.orders, id)
    requires forall id :: id in a.orders ==> id in b.orders && b.orders[id] == a.orders[id]
    ensures Mending(stuck, total, i, b)
  {
    assert UnsyncedIds(a.orders) == UnsyncedIds(b.orders);
    hide Healable;
  }

  lemma {:induction false} MendingDone(stuck: set<string>, total: int, i: int, now: Scene)
    requires Mending(stuck, total, i, now) && i >= total
    ensures forall id :: Unsynced(now.orders, id) ==> id in stuck
  {
    hide Healable, Potential;
    if Potential(now.orders, now.failed) <= 0 {
      forall id | Unsynced(now.orders, id) ensures id in stuck { NoTriesLeft(now.orders, now.failed, id); }
    }
  }
}
