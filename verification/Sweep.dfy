/** Which orders a sweep tries, and why sweeps come to rest. */
module Sweep {
  import opened Wrappers
  import opened Models
  import opened Backlog
  import opened Sums

  /** The ids still allowed a try, in query order. */
  function Eligible(rows: seq<OrderIntent>, failed: map<string, nat>): seq<string> {
    if rows == [] then []
    else
      var before := Eligible(rows[..|rows| - 1], failed);
      var id := rows[|rows| - 1].id;
      if Exhausted(failed, id) then before else before + [id]
  }

  /** The ids one sweep tries: the first five eligible ones. */
  function Chosen(rows: seq<OrderIntent>, failed: map<string, nat>): seq<string> {
    var all := Eligible(rows, failed);
    if |all| <= BATCH then all else all[..BATCH]
  }

  /** One try and what became of it: None for a failure, the transaction for an acknowledged write. */
  datatype Try = Try(id: string, ack: Option<TxHash>)

  function FailedAfter(failed: map<string, nat>, t: Try): map<string, nat> {
    if t.ack.Some? then failed - {t.id} else failed[t.id := Count(failed, t.id) + 1]
  }

  function FailedAfterAll(failed: map<string, nat>, tries: seq<Try>): map<string, nat> {
    if tries == [] then failed else FailedAfter(FailedAfterAll(failed, tries[..|tries| - 1]), tries[|tries| - 1])
  }

  /** The rows after a try whose hash, if acknowledged, is saved. */
  function OrdersAfterTry(orders: Orders, t: Try): Orders {
    if t.ack.Some? && t.id in orders then orders[t.id := orders[t.id].(onChainTxHash := t.ack)] else orders
  }

  function OrdersAfterAll(orders: Orders, tries: seq<Try>): Orders {
    if tries == [] then orders else OrdersAfterTry(OrdersAfterAll(orders, tries[..|tries| - 1]), tries[|tries| - 1])
  }

  ghost function TriedIds(tries: seq<Try>): (ids: seq<string>)
    ensures |ids| == |tries| && forall i :: 0 <= i < |tries| ==> ids[i] == tries[i].id
  {
    seq(|tries|, i requires 0 <= i < |tries| => tries[i].id)
  }

  /** Every try is on an order that is, by then, still unsynced and not exhausted. */
  ghost predicate ValidTries(orders: Orders, failed: map<string, nat>, tries: seq<Try>) {
    tries == [] ||
    (var front, t := tries[..|tries| - 1], tries[|tries| - 1];
     && ValidTries(orders, failed, front)
     && Unsynced(OrdersAfterAll(orders, front), t.id) && !Exhausted(FailedAfterAll(failed, front), t.id))
  }

  /** One more try, by its parts. */
  lemma {:induction false} TriesAppend(orders: Orders, failed: map<string, nat>, tries: seq<Try>, t: Try)
    ensures TriedIds(tries + [t]) == TriedIds(tries) + [t.id]
    ensures FailedAfterAll(failed, tries + [t]) == FailedAfter(FailedAfterAll(failed, tries), t)
    ensures OrdersAfterAll(orders, tries + [t]) == OrdersAfterTry(OrdersAfterAll(orders, tries), t)
    ensures ValidTries(orders, failed, tries + [t]) <==>
            ValidTries(orders, failed, tries) && Unsynced(OrdersAfterAll(orders, tries), t.id)
            && !Exhausted(FailedAfterAll(failed, tries), t.id)
  {
    assert (tries + [t])[..|tries|] == tries;
  }

  ghost function UnsyncedIds(orders: Orders): set<string> { set id | id in orders && Unsynced(orders, id) }

  /** The tries an order has left. */
  ghost function Left(failed: map<string, nat>): string -> int {
    id => if Exhausted(failed, id) then 0 else MAX_ATTEMPTS - Count(failed, id)
  }

  /** All tries left over the unsynced orders. */
  ghost function Potential(orders: Orders, failed: map<string, nat>): int {
    Sum(UnsyncedIds(orders), Left(failed))
  }

  lemma {:induction false} SumEqual<T(!new)>(s: set<T>, f: T -> int, g: T -> int)
    requires forall x :: x in s ==> f(x) == g(x)
    ensures Sum(s, f) == Sum(s, g)
    decreases |s|
  {
    if s != {} {
      var x :| x in s;
      SumRemove(s, f, x);
      SumRemove(s, g, x);
      SumEqual(s - {x}, f, g);
    }
  }

  /** Every try, failed or acknowledged and saved, uses up at least one of the tries left. */
  lemma {:induction false} TryCosts(orders: Orders, failed: map<string, nat>, t: Try)
    requires Unsynced(orders, t.id) && !Exhausted(failed, t.id)
    ensures Potential(OrdersAfterTry(orders, t), FailedAfter(failed, t)) <= Potential(orders, failed) - 1
  {
    var ids := UnsyncedIds(orders);
    var rest := ids - {t.id};
    var failed', orders' := FailedAfter(failed, t), OrdersAfterTry(orders, t);
    SumRemove(ids, Left(failed), t.id);
    SumEqual(rest, Left(failed), Left(failed'));
    if t.ack.Some? {
      assert UnsyncedIds(orders') == rest;
    } else {
      assert UnsyncedIds(orders') == ids;
      SumRemove(ids, Left(failed'), t.id);
    }
  }

  /**
   * Sweeps come to rest: with no order newly settled and every acknowledged hash saved, each try of any
   * sequence of sweeps uses up a try left, so all of them together are at most the initial total.
   */
  lemma {:induction false} TriesAreBounded(orders: Orders, failed: map<string, nat>, tries: seq<Try>)
    requires ValidTries(orders, failed, tries)
    ensures Potential(OrdersAfterAll(orders, tries), FailedAfterAll(failed, tries)) + |tries| <= Potential(orders,
      failed)
    ensures |tries| <= Potential(orders, failed)
  {
    SumNonnegative(UnsyncedIds(OrdersAfterAll(orders, tries)), Left(FailedAfterAll(failed, tries)));
    if tries != [] {
      var front := tries[..|tries| - 1];
      TriesAreBounded(orders, failed, front);
      TryCosts(OrdersAfterAll(orders, front), FailedAfterAll(failed, front), tries[|tries| - 1]);
    }
  }

  lemma {:induction false} HasLast(rows: seq<OrderIntent>, id: string)
    requires rows != []
    ensures Has(rows, id) <==> Has(rows[..|rows| - 1], id) || rows[|rows| - 1].id == id
  {
    var front := rows[..|rows| - 1];
    if Has(rows, id) {
      var i :| 0 <= i < |rows| && rows[i].id == id;
      assert i < |front| ==> front[i].id == id;
    }
  }

  lemma {:induction false} EligibleMeaning(rows: seq<OrderIntent>, failed: map<string, nat>, id: string)
    ensures id in Eligible(rows, failed) <==> !Exhausted(failed, id) && Has(rows, id)
  {
    if rows != [] {
      EligibleMeaning(rows[..|rows| - 1], failed, id);
      HasLast(rows, id);
    }
  }

  /** A sweep tries nothing exactly when every row of its query is exhausted. */
  lemma {:induction false} NothingChosen(rows: seq<OrderIntent>, failed: map<string, nat>)
    ensures Chosen(rows, failed) == [] <==> forall i :: 0 <= i < |rows| ==> Exhausted(failed, rows[i].id)
    ensures |Chosen(rows, failed)| <= BATCH
  {
    if Chosen(rows, failed) != [] {
      EligibleMeaning(rows, failed, Eligible(rows, failed)[0]);
    } else {
      forall i | 0 <= i < |rows| ensures Exhausted(failed, rows[i].id) {
        EligibleMeaning(rows, failed, rows[i].id);
      }
    }
  }

  /** Where the eligible rows are. */
  function Spots(rows: seq<OrderIntent>, failed: map<string, nat>): (at: seq<nat>)
    ensures |at| == |Eligible(rows, failed)| && forall j :: 0 <= j < |at| ==> at[j] < |rows|
  {
    if rows == [] then []
    else
      var n := |rows| - 1;
      Spots(rows[..n], failed) + if Exhausted(failed, rows[n].id) then [] else [n]
  }

  lemma {:induction false} SpotsIncrease(rows: seq<OrderIntent>, failed: map<string, nat>, a: nat, b: nat)
    requires a < b < |Spots(rows, failed)|
    ensures Spots(rows, failed)[a] < Spots(rows, failed)[b]
  {
    hide Exhausted, Eligible;
    if b < |Spots(rows[..|rows| - 1], failed)| { SpotsIncrease(rows[..|rows| - 1], failed, a, b); }
  }

  lemma {:induction false} SpotRow(rows: seq<OrderIntent>, failed: map<string, nat>, j: nat)
    requires j < |Spots(rows, failed)|
    ensures var i := Spots(rows, failed)[j];
            Eligible(rows, failed)[j] == rows[i].id && !Exhausted(failed, rows[i].id)
  {
    hide Exhausted;
    var front := rows[..|rows| - 1];
    if j < |Spots(front, failed)| { SpotRow(front, failed, j); }
  }

  lemma {:induction false} SpotOf(rows: seq<OrderIntent>, failed: map<string, nat>, k: nat)
    requires k < |rows| && !Exhausted(failed, rows[k].id)
    ensures k in Spots(rows, failed)
  {
    hide Exhausted, Eligible;
    if k < |rows| - 1 { SpotOf(rows[..|rows| - 1], failed, k); }
  }

  /**
   * A sweep chooses the first rows that failed fewer than three times, in query order: one of those is left out only
   * when five before it were chosen.
   */
  lemma {:induction false} ChosenAreFirst(rows: seq<OrderIntent>, failed: map<string, nat>) returns (at: seq<nat>)
    ensures |at| == |Chosen(rows, failed)| && forall a, b :: 0 <= a < b < |at| ==> at[a] < at[b]
    ensures forall j :: 0 <= j < |at| ==>
      at[j] < |rows| && Chosen(rows, failed)[j] == rows[at[j]].id && Count(failed, rows[at[j]].id) < 3
    ensures forall k :: 0 <= k < |rows| && Count(failed, rows[k].id) < 3 && k !in at ==>
      |at| == 5 && forall j :: 0 <= j < |at| ==> at[j] < k
  {
    hide Eligible, Spots;
    at := Spots(rows, failed);
    forall a, b | 0 <= a < b < |at| ensures at[a] < at[b] { SpotsIncrease(rows, failed, a, b); }
    forall j | 0 <= j < |at|
      ensures Eligible(rows, failed)[j] == rows[at[j]].id && !Exhausted(failed, rows[at[j]].id)
    {
      SpotRow(rows, failed, j);
    }
    forall k | 0 <= k < |rows| && !Exhausted(failed, rows[k].id) ensures k in at { SpotOf(rows, failed, k); }
    if |at| > BATCH {
      forall k | k in at && k !in at[..BATCH] ensures forall j :: 0 <= j < BATCH ==> at[j] < k {
        LeftOut(at, BATCH, k);
      }
      at := at[..BATCH];
    }
  }

  /** What an increasing sequence leaves out after its first n elements is larger than those. */
  lemma {:induction false} LeftOut(at: seq<nat>, n: nat, k: nat)
    requires n <= |at| && k in at && k !in at[..n]
    requires forall a, b :: 0 <= a < b < |at| ==> at[a] < at[b]
    ensures forall j :: 0 <= j < n ==> at[j] < k
  {
    var m :| 0 <= m < |at| && at[m] == k;
    assert forall j :: 0 <= j < n ==> at[..n][j] == at[j] != k;
  }

  ghost function RowIds(rows: seq<OrderIntent>): set<string> { set i | 0 <= i < |rows| :: rows[i].id }

  lemma {:induction false} DistinctRows(rows: seq<OrderIntent>)
    requires forall i, j :: 0 <= i < j < |rows| ==> rows[i].id != rows[j].id
    ensures |RowIds(rows)| == |rows|
  {
    if rows != [] {
      var front, n := rows[..|rows| - 1], |rows| - 1;
      DistinctRows(front);
      assert RowIds(rows) == RowIds(front) + {rows[n].id};
      assert rows[n].id !in RowIds(front);
    }
  }

  ghost function ExhaustedIds(orders: Orders, failed: map<string, nat>): set<string> {
    set id | id in orders && Unsynced(orders, id) && Exhausted(failed, id)
  }

  /**
   * While fewer than twenty unsynced orders are exhausted, a sweep tries at least one order whenever any is
   * left to try; so sweeps stop trying only with every order synced or exhausted, or behind a full window of
   * exhausted ones.
   */
  lemma {:induction false} SweepProgress(orders: Orders, rows: seq<OrderIntent>, failed: map<string, nat>)
    requires IsSweepQuery(orders, rows)
    ensures Chosen(rows, failed) == [] ==>
      || (forall id :: Unsynced(orders, id) ==> Exhausted(failed, id))
      || (|rows| == WINDOW && |ExhaustedIds(orders, failed)| >= WINDOW)
    ensures |ExhaustedIds(orders, failed)| < WINDOW && (exists id :: Unsynced(orders, id) && !Exhausted(failed, id)) ==>
      Chosen(rows, failed) != []
  {
    NothingChosen(rows, failed);
    if Chosen(rows, failed) == [] && |rows| == WINDOW {
      DistinctRows(rows);
      assert RowIds(rows) <= ExhaustedIds(orders, failed);
      SubsetSize(RowIds(rows), ExhaustedIds(orders, failed));
    }
  }

  lemma {:induction false} SubsetSize<T>(a: set<T>, b: set<T>)
    requires a <= b
    ensures |a| <= |b|
  {
    assert b == a + (b - a);
  }

  /** Behind twenty exhausted orders that are all older, an order is never tried, though it never failed. */
  lemma {:induction false} OldOrdersStarveYoung(
      orders: Orders, rows: seq<OrderIntent>, failed: map<string, nat>, id: string, elders: set<string>)
    requires IsSweepQuery(orders, rows) && Unsynced(orders, id) && !Exhausted(failed, id)
    requires |elders| == WINDOW && elders <= ExhaustedIds(orders, failed)
    requires forall k :: k in elders ==> orders[k].createdAt < orders[id].createdAt
    ensures id !in Chosen(rows, failed)
  {
    EligibleMeaning(rows, failed, id);
    if Has(rows, id) {
      var i :| 0 <= i < |rows| && rows[i].id == id;
      DistinctRows(rows);
      forall k | k in elders ensures k in RowIds(rows) - {id} {
        assert Unsynced(orders, k);
        assert rows[i].createdAt > orders[k].createdAt;
        assert Has(rows, k);
      }
      SubsetSize(elders, RowIds(rows) - {id});
    }
  }

  /** A sweep that chooses nothing while an order is left to try found twenty exhausted ones, none younger. */
  lemma {:induction false} StarvedMeans(orders: Orders, rows: seq<OrderIntent>, failed: map<string, nat>, id: string)
    requires IsSweepQuery(orders, rows) && Chosen(rows, failed) == []
    requires Unsynced(orders, id) && !Exhausted(failed, id)
    ensures |RowIds(rows)| == WINDOW && RowIds(rows) <= ExhaustedIds(orders, failed)
    ensures forall k :: k in RowIds(rows) ==> orders[k].createdAt <= orders[id].createdAt
  {
    NothingChosen(rows, failed);
    DistinctRows(rows);
  }

  // --- Sweep after sweep ------------------------------------------------------------------

  /** One sweep: the table its query saw, the rows it found, and its tries. */
  datatype Sweeping = Sweeping(table: Orders, rows: seq<OrderIntent>, tries: seq<Try>)

  ghost predicate ValidSweep(failed: map<string, nat>, sw: Sweeping) {
    IsSweepQuery(sw.table, sw.rows) && TriedIds(sw.tries) == Chosen(sw.rows, failed)
  }

  /** From one table to a later one, only orders tried in between got a hash. */
  ghost predicate Later(a: Orders, tried: seq<string>, b: Orders) {
    forall id :: id in a ==>
      id in b && b[id].createdAt == a[id].createdAt && (Unsynced(a, id) && id !in tried ==> Unsynced(b, id))
  }

  /** The sweeps of one process, while orders are created and settled and hashes saved or lost. */
  ghost predicate SweepRun(orders: Orders, tried: seq<string>, failed: map<string, nat>, sweeps: seq<Sweeping>)
    decreases |sweeps|
  {
    sweeps == [] ||
    (var sw := sweeps[0];
     && Later(orders, tried, sw.table) && ValidSweep(failed, sw)
     && SweepRun(sw.table, TriedIds(sw.tries), FailedAfterAll(failed, sw.tries), sweeps[1..]))
  }

  /** The sweeps of one process when no further order is settled and every acknowledged hash is saved. */
  ghost predicate ClosedRun(orders: Orders, failed: map<string, nat>, sweeps: seq<Sweeping>)
    decreases |sweeps|
  {
    sweeps == [] ||
    (var sw := sweeps[0];
     && sw.table == orders && ValidSweep(failed, sw)
     && ClosedRun(OrdersAfterAll(orders, sw.tries), FailedAfterAll(failed, sw.tries), sweeps[1..]))
  }

  /** The counters before sweep i. */
  ghost function FailedBefore(failed: map<string, nat>, sweeps: seq<Sweeping>, i: nat): map<string, nat>
    requires i <= |sweeps|
    decreases i
  {
    if i == 0 then failed else FailedBefore(FailedAfterAll(failed, sweeps[0].tries), sweeps[1..], i - 1)
  }

  /** Sweep i tries nothing, for every order is synced or exhausted, or twenty exhausted ones stand in front. */
  ghost predicate RestsAt(failed: map<string, nat>, sweeps: seq<Sweeping>, i: nat) {
    && i < |sweeps| && sweeps[i].tries == []
    && var before := FailedBefore(failed, sweeps, i);
       || (forall id :: Unsynced(sweeps[i].table, id) ==> Exhausted(before, id))
       || |ExhaustedIds(sweeps[i].table, before)| >= WINDOW
  }

  /** How many of the sweeps try anything. */
  ghost function Active(sweeps: seq<Sweeping>): nat {
    if sweeps == [] then 0 else (if sweeps[0].tries == [] then 0 else 1) + Active(sweeps[1..])
  }

  /** Tries leave the counters of other orders alone. */
  lemma {:induction false} FailedElsewhere(failed: map<string, nat>, tries: seq<Try>, id: string)
    requires id !in TriedIds(tries)
    ensures Count(FailedAfterAll(failed, tries), id) == Count(failed, id)
  {
    if tries != [] {
      var front := tries[..|tries| - 1];
      assert TriedIds(tries) == TriedIds(front) + [tries[|tries| - 1].id];
      FailedElsewhere(failed, front, id);
    }
  }

  /** And their rows. */
  lemma {:induction false} OrdersElsewhere(orders: Orders, tries: seq<Try>, id: string)
    requires id !in TriedIds(tries)
    ensures id in OrdersAfterAll(orders, tries) <==> id in orders
    ensures id in orders ==> OrdersAfterAll(orders, tries)[id] == orders[id]
  {
    if tries != [] {
      var front := tries[..|tries| - 1];
      assert TriedIds(tries) == TriedIds(front) + [tries[|tries| - 1].id];
      OrdersElsewhere(orders, front, id);
    }
  }

  lemma {:induction false} EligibleDistinct(rows: seq<OrderIntent>, failed: map<string, nat>)
    requires forall i, j :: 0 <= i < j < |rows| ==> rows[i].id != rows[j].id
    ensures forall i, j :: 0 <= i < j < |Eligible(rows, failed)| ==>
      Eligible(rows, failed)[i] != Eligible(rows, failed)[j]
  {
    if rows != [] {
      var front, id := rows[..|rows| - 1], rows[|rows| - 1].id;
      EligibleDistinct(front, failed);
      EligibleMeaning(front, failed, id);
    }
  }

  /** Distinct orders that all wait and are not exhausted make valid tries, whatever the outcomes. */
  lemma {:induction false} DistinctTriesValid(orders: Orders, failed: map<string, nat>, tries: seq<Try>)
    requires forall i, j :: 0 <= i < j < |tries| ==> tries[i].id != tries[j].id
    requires forall i :: 0 <= i < |tries| ==> Unsynced(orders, tries[i].id) && !Exhausted(failed, tries[i].id)
    ensures ValidTries(orders, failed, tries)
  {
    if tries != [] {
      var front, t := tries[..|tries| - 1], tries[|tries| - 1];
      DistinctTriesValid(orders, failed, front);
      FailedElsewhere(failed, front, t.id);
      OrdersElsewhere(orders, front, t.id);
    }
  }

  /** The tries of a sweep are valid ones. */
  lemma {:induction false} SweepTriesValid(failed: map<string, nat>, sw: Sweeping)
    requires ValidSweep(failed, sw)
    ensures ValidTries(sw.table, failed, sw.tries)
  {
    var ids := TriedIds(sw.tries);
    EligibleDistinct(sw.rows, failed);
    forall i | 0 <= i < |sw.tries| ensures Unsynced(sw.table, ids[i]) && !Exhausted(failed, ids[i]) {
      assert ids[i] in Eligible(sw.rows, failed);
      EligibleMeaning(sw.rows, failed, ids[i]);
    }
    assert forall i, j :: 0 <= i < j < |ids| ==> ids[i] != ids[j];
    DistinctTriesValid(sw.table, failed, sw.tries);
  }

  /**
   * Quiescence: of any number of sweeps with no order newly settled and every acknowledged hash saved, at
   * most as many try anything as there are tries left at the start; so one of any larger number is at rest,
   * and then every order is synced or exhausted, or twenty exhausted ones stand in front.
   */
  lemma {:induction false} SweepsComeToRest(orders: Orders, failed: map<string, nat>, sweeps: seq<Sweeping>)
    requires ClosedRun(orders, failed, sweeps)
    ensures Active(sweeps) <= Potential(orders, failed)
    ensures |sweeps| > Potential(orders, failed) ==> exists i: nat :: RestsAt(failed, sweeps, i)
    decreases |sweeps|
  {
    SumNonnegative(UnsyncedIds(orders), Left(failed));
    if sweeps != [] {
      var sw := sweeps[0];
      SweepTriesValid(failed, sw);
      TriesAreBounded(orders, failed, sw.tries);
      SweepsComeToRest(OrdersAfterAll(orders, sw.tries), FailedAfterAll(failed, sw.tries), sweeps[1..]);
    }
    if |sweeps| > Potential(orders, failed) {
      SomeRests(orders, failed, sweeps);
    }
  }

  lemma {:induction false} SomeRests(orders: Orders, failed: map<string, nat>, sweeps: seq<Sweeping>)
    requires ClosedRun(orders, failed, sweeps) && Active(sweeps) < |sweeps|
    ensures exists i: nat :: RestsAt(failed, sweeps, i)
    decreases |sweeps|
  {
    var sw := sweeps[0];
    if sw.tries != [] {
      var next := FailedAfterAll(failed, sw.tries);
      SomeRests(OrdersAfterAll(orders, sw.tries), next, sweeps[1..]);
      hide ClosedRun, Exhausted, Unsynced, ExhaustedIds;
      var i: nat :| RestsAt(next, sweeps[1..], i);
      assert RestsAt(failed, sweeps, i + 1);
    } else {
      SweepProgress(orders, sw.rows, failed);
      assert RestsAt(failed, sweeps, 0);
    }
  }

  /** Twenty orders, all exhausted, all waiting, all older than order id. */
  ghost predicate Blocked(orders: Orders, failed: map<string, nat>, id: string, elders: set<string>) {
    && Unsynced(orders, id) && !Exhausted(failed, id)
    && |elders| == WINDOW && elders <= ExhaustedIds(orders, failed)
    && forall k :: k in elders ==> orders[k].createdAt < orders[id].createdAt
  }

  /** One more sweep, and whatever else happens to other rows, leaves the order blocked and untried. */
  lemma {:induction false} BlockedStays(
      orders: Orders, failed: map<string, nat>, rows: seq<OrderIntent>, tries: seq<Try>, after: Orders, id: string,
        elders: set<string>)
    requires Blocked(orders, failed, id, elders) && IsSweepQuery(orders, rows)
    requires TriedIds(tries) == Chosen(rows, failed) || tries == []
    requires Later(orders, TriedIds(tries), after)
    ensures Blocked(after, FailedAfterAll(failed, tries), id, elders) && id !in TriedIds(tries)
    ensures forall k :: k in elders ==> k !in TriedIds(tries)
  {
    hide IsSweepQuery, Chosen, FailedAfterAll;
    var ids := TriedIds(tries);
    BlockedUntried(orders, failed, rows, id, elders);
    FailedElsewhere(failed, tries, id);
    forall k | k in elders ensures k !in ids && Unsynced(after, k) && Exhausted(FailedAfterAll(failed, tries), k) {
      assert Unsynced(orders, k);
      FailedElsewhere(failed, tries, k);
    }
    assert elders <= ExhaustedIds(after, FailedAfterAll(failed, tries));
  }

  lemma {:induction false} BlockedUntried(orders: Orders, failed: map<string, nat>, rows: seq<OrderIntent>, id: string,
    elders: set<string>)
    requires Blocked(orders, failed, id, elders) && IsSweepQuery(orders, rows)
    ensures id !in Chosen(rows, failed) && forall k :: k in elders ==> k !in Chosen(rows, failed)
  {
    OldOrdersStarveYoung(orders, rows, failed, id, elders);
    forall k | k in elders ensures k !in Chosen(rows, failed) { EligibleMeaning(rows, failed, k); }
  }

  /** However many sweeps the process goes on to make, it never tries an order behind twenty exhausted elders. */
  lemma {:induction false} StarvedForever(
      orders: Orders, tried: seq<string>, failed: map<string, nat>, sweeps: seq<Sweeping>, id: string,
        elders: set<string>)
    requires SweepRun(orders, tried, failed, sweeps) && Blocked(orders, failed, id, elders)
    requires id !in tried && forall k :: k in elders ==> k !in tried
    ensures forall i :: 0 <= i < |sweeps| ==> id !in TriedIds(sweeps[i].tries)
    decreases |sweeps|
  {
    if sweeps != [] {
      var sw := sweeps[0];
      BlockedStays(sw.table, failed, sw.rows, sw.tries, sw.table, id, elders);
      StarvedForever(sw.table, TriedIds(sw.tries), FailedAfterAll(failed, sw.tries), sweeps[1..], id, elders);
    }
  }

  lemma {:induction false} LaterSame(a: Orders)
    ensures Later(a, [], a)
  {}

  lemma {:induction false} LaterThen(a: Orders, b: Orders, tried: seq<string>, c: Orders)
    requires Later(a, [], b) && Later(b, tried, c)
    ensures Later(a, tried, c)
  {}

  /** One more try writes at most its own order's hash. */
  lemma {:induction false} LaterTry(a: Orders, tries: seq<Try>, b: Orders, t: Try, saved: bool)
    requires Later(a, TriedIds(tries), b)
    ensures Later(a, TriedIds(tries + [t]), OrdersAfterTry(b, if saved then t else Try(t.id, None)))
  {
    assert TriedIds(tries + [t]) == TriedIds(tries) + [t.id];
  }

  // --- A query result that holds a given order ------------------------------------------------

  /** The rows are the oldest unsynced ones, in order, and `left` holds the ids of the others. */
  ghost predicate OldestTaken(orders: Orders, rows: seq<OrderIntent>, left: set<string>) {
    && (forall i :: 0 <= i < |rows| ==>
         Unsynced(orders, rows[i].id) && rows[i] == orders[rows[i].id] && rows[i].id !in left)
    && (forall i, j :: 0 <= i < j < |rows| ==> rows[i].id != rows[j].id && rows[i].createdAt <= rows[j].createdAt)
    && (forall id :: Unsynced(orders, id) ==> id in left || Has(rows, id))
    && (forall id :: id in left ==> Unsynced(orders, id))
    && (forall i, id :: 0 <= i < |rows| && id in left ==> rows[i].createdAt <= orders[id].createdAt)
  }

  lemma {:induction false} TakeOldest(orders: Orders, rows: seq<OrderIntent>, left: set<string>, id: string)
    requires OldestTaken(orders, rows, left) && id in left && orders[id].id == id
    requires forall k :: k in left ==> orders[id].createdAt <= orders[k].createdAt
    ensures OldestTaken(orders, rows + [orders[id]], left - {id})
  {
    var next := rows + [orders[id]];
    assert next[..|next| - 1] == rows;
    forall k | Unsynced(orders, k) ensures k in left - {id} || Has(next, k) { HasLast(next, k); }
    hide Has;
  }

  lemma {:induction false} OldestExists(orders: Orders, ids: set<string>)
    requires ids != {} && forall id :: id in ids ==> id in orders
    ensures exists id :: id in ids && forall k :: k in ids ==> orders[id].createdAt <= orders[k].createdAt
    decreases |ids|
  {
    var x :| x in ids;
    if ids == {x} {
      assert forall k :: k in ids ==> orders[x].createdAt <= orders[k].createdAt;
    } else {
      var rest := ids - {x};
      OldestExists(orders, rest);
      var y :| y in rest && forall k :: k in rest ==> orders[y].createdAt <= orders[k].createdAt;
      var z := if orders[x].createdAt <= orders[y].createdAt then x else y;
      assert z in ids && forall k :: k in ids ==> orders[z].createdAt <= orders[k].createdAt;
    }
  }

  /** The unsynced orders older than this one. */
  ghost function Older(orders: Orders, id: string): set<string>
    requires id in orders
  {
    set k | k in orders && Unsynced(orders, k) && orders[k].createdAt < orders[id].createdAt
  }

  /** The oldest first, and among equals this one. */
  lemma {:induction false} QueryFrom(orders: Orders, rows: seq<OrderIntent>, left: set<string>, id: string)
      returns (found: seq<OrderIntent>)
    requires forall k :: k in orders ==> orders[k].id == k
    requires |rows| <= WINDOW && OldestTaken(orders, rows, left) && Unsynced(orders, id)
    requires id in left ==> forall i :: 0 <= i < |rows| ==> rows[i].createdAt < orders[id].createdAt
    ensures IsSweepQuery(orders, found)
    ensures !Has(found, id) ==> |found| == WINDOW && forall i :: 0 <= i < |found| ==>
      found[i].createdAt < orders[id].createdAt
    decreases |left|
  {
    if |rows| == WINDOW || left == {} {
      found := rows;
    } else {
      OldestExists(orders, left);
      var k :| k in left && forall j :: j in left ==> orders[k].createdAt <= orders[j].createdAt;
      if id in left && orders[id].createdAt == orders[k].createdAt { k := id; }
      TakeOldest(orders, rows, left, k);
      found := QueryFrom(orders, rows + [orders[k]], left - {k}, id);
    }
  }

  /** With fewer than twenty older ones, the query may return an order. */
  lemma {:induction false} QueryWith(orders: Orders, id: string) returns (found: seq<OrderIntent>)
    requires forall k :: k in orders ==> orders[k].id == k
    requires Unsynced(orders, id) && |Older(orders, id)| < WINDOW
    ensures IsSweepQuery(orders, found) && Has(found, id)
  {
    found := QueryFrom(orders, [], UnsyncedIds(orders), id);
    if !Has(found, id) {
      DistinctRows(found);
      SubsetSize(RowIds(found), Older(orders, id));
    }
  }

  /** With twenty older ones that stay, it cannot. */
  lemma {:induction false} QueryWithout(orders: Orders, rows: seq<OrderIntent>, id: string, elders: set<string>)
    requires IsSweepQuery(orders, rows) && id in orders && |elders| >= WINDOW && elders <= Older(orders, id)
    ensures !Has(rows, id)
  {
    if Has(rows, id) {
      var i :| 0 <= i < |rows| && rows[i].id == id;
      DistinctRows(rows);
      forall k | k in elders ensures k in RowIds(rows) - {id} {
        assert Unsynced(orders, k) && rows[i].createdAt > orders[k].createdAt;
        assert Has(rows, k);
      }
      SubsetSize(elders, RowIds(rows) - {id});
    }
  }
}
