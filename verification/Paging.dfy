/** What repeated polls ingest: the cursor walks the raw records in pages of `limit`. */
module Paging {
  import opened Horizon

  /** The cursor after a fault-free pollOnce: the token of the last payment of the page, if it has one. */
  function PolledCursor(raw: seq<Record>, cursor: nat, limit: nat): nat {
    var ps := Payments(Page(raw, cursor, limit));
    if ps == [] then cursor else ps[|ps| - 1].token
  }

  function PolledTimes(raw: seq<Record>, cursor: nat, limit: nat, n: nat): nat
    decreases n
  {
    if n == 0 then cursor else PolledTimes(raw, PolledCursor(raw, cursor, limit), limit, n - 1)
  }

  /** Payments the cursor has not passed. */
  function Pending(raw: seq<Record>, cursor: nat): nat { |Payments(raw[Covered(raw, cursor)..])| }

  /** `limit` consecutive records from i on hold no payment, and a payment follows them. */
  ghost predicate Gap(raw: seq<Record>, i: nat, limit: nat) {
    && i + limit <= |raw|
    && (forall k :: i <= k < i + limit ==> !IsPayment(raw[k]))
    && exists k :: i + limit <= k < |raw| && IsPayment(raw[k])
  }

  ghost predicate GapAhead(raw: seq<Record>, cursor: nat, limit: nat) {
    exists i: nat :: Covered(raw, cursor) <= i && Gap(raw, i, limit)
  }

  lemma {:induction false} NoPayments(raw: seq<Record>)
    ensures Payments(raw) == [] <==> forall k :: 0 <= k < |raw| ==> !IsPayment(raw[k])
  {
    if raw != [] { NoPayments(raw[..|raw| - 1]); }
  }

  /** A page with a payment moves the cursor just past its last payment, record q. */
  lemma {:induction false} PollMoves(raw: seq<Record>, cursor: nat, limit: nat) returns (q: nat)
    requires LedgerOk(raw) && Payments(Page(raw, cursor, limit)) != []
    ensures Covered(raw, cursor) <= q < PageEnd(raw, cursor, limit) && IsPayment(raw[q])
    ensures PolledCursor(raw, cursor, limit) == raw[q].token && Covered(raw, raw[q].token) == q + 1
  {
    hide Payments, Covered, IsPayment;
    var page := Page(raw, cursor, limit);
    var i := PaymentOrigin(page, |Payments(page)| - 1);
    q := Covered(raw, cursor) + i;
    assert page[i] == raw[q];
    CoveredAt(raw, q);
  }

  /** One poll leaves the cursor where it is exactly when the next `limit` records hold no payment. */
  lemma {:induction false} PollStands(raw: seq<Record>, cursor: nat, limit: nat)
    requires LedgerOk(raw)
    ensures PolledCursor(raw, cursor, limit) == cursor <==>
            forall k :: Covered(raw, cursor) <= k < PageEnd(raw, cursor, limit) ==> !IsPayment(raw[k])
    ensures PolledCursor(raw, cursor, limit) >= cursor
  {
    var page := Page(raw, cursor, limit);
    NoPayments(page);
    if Payments(page) == [] {
      forall k | Covered(raw, cursor) <= k < PageEnd(raw, cursor, limit) ensures !IsPayment(raw[k]) {
        assert raw[k] == page[k - Covered(raw, cursor)];
      }
    } else {
      var q := PollMoves(raw, cursor, limit);
      TokensAfter(raw, cursor, q);
    }
  }

  lemma {:induction false} TokensAfter(raw: seq<Record>, cursor: nat, q: nat)
    requires LedgerOk(raw) && Covered(raw, cursor) <= q < |raw|
    ensures raw[q].token > cursor
  {
    var k := Covered(raw, cursor);
    if k < q { assert raw[k].token < raw[q].token; }
  }

  lemma {:induction false} SomePayment(raw: seq<Record>, from: nat, upto: nat) returns (k: nat)
    requires from <= upto <= |raw| && Payments(raw[from..upto]) != []
    ensures from <= k < upto && IsPayment(raw[k])
  {
    var part := raw[from..upto];
    var i := PaymentOrigin(part, 0);
    k := from + i;
    assert part[i] == raw[k];
  }

  lemma {:induction false} GapHere(raw: seq<Record>, cursor: nat, limit: nat, i: nat)
    requires Covered(raw, cursor) <= i && Gap(raw, i, limit)
    ensures GapAhead(raw, cursor, limit)
  {}

  /** A page without payments, while some are pending, is a gap. */
  lemma {:induction false} EmptyPageIsGap(raw: seq<Record>, cursor: nat, limit: nat)
    requires limit > 0 && Pending(raw, cursor) > 0 && Payments(Page(raw, cursor, limit)) == []
    ensures GapAhead(raw, cursor, limit)
  {
    var c, e := Covered(raw, cursor), PageEnd(raw, cursor, limit);
    assert raw[c..|raw|] == raw[c..];
    hide Payments, Covered, IsPayment, GapAhead, Pending;
    var k := SomePayment(raw, c, |raw|);
    NoPayments(raw[c..e]);
    forall i | c <= i < e ensures !IsPayment(raw[i]) {
      assert raw[c..e][i - c] == raw[i];
    }
    assert e <= k && e == c + limit;
    assert Gap(raw, c, limit);
    GapHere(raw, cursor, limit, c);
  }

  /** Short of a gap, a poll with payments pending strictly lowers their number. */
  lemma {:induction false} PollProgress(raw: seq<Record>, cursor: nat, limit: nat)
    requires LedgerOk(raw) && limit > 0 && Pending(raw, cursor) > 0 && !GapAhead(raw, cursor, limit)
    ensures Pending(raw, PolledCursor(raw, cursor, limit)) < Pending(raw, cursor)
    ensures !GapAhead(raw, PolledCursor(raw, cursor, limit), limit)
  {
    hide Payments, Covered, PolledCursor, PageEnd, Page, Gap, LedgerOk, IsPayment;
    if Payments(Page(raw, cursor, limit)) == [] { EmptyPageIsGap(raw, cursor, limit); }
    var q := PollMoves(raw, cursor, limit);
    FewerPending(raw, Covered(raw, cursor), q);
  }

  lemma {:induction false} FewerPending(raw: seq<Record>, c: nat, q: nat)
    requires c <= q < |raw| && IsPayment(raw[q])
    ensures |Payments(raw[q + 1..])| < |Payments(raw[c..])|
  {
    var mid := raw[c..q] + [raw[q]];
    assert raw[c..] == mid + raw[q + 1..];
    PaymentsConcat(mid, raw[q + 1..]);
    PaymentsAppend(raw[c..q], raw[q]);
  }

  /** A page with payments takes them off the pending ones. */
  lemma {:induction false} PageProgress(raw: seq<Record>, cursor: nat, limit: nat)
    requires LedgerOk(raw) && Payments(Page(raw, cursor, limit)) != []
    ensures Pending(raw, PolledCursor(raw, cursor, limit)) < Pending(raw, cursor)
  {
    hide Payments, Covered, PolledCursor, PageEnd, Page, LedgerOk, IsPayment;
    var q := PollMoves(raw, cursor, limit);
    FewerPending(raw, Covered(raw, cursor), q);
  }

  lemma {:induction false} GapStep(raw: seq<Record>, cursor: nat, limit: nat, i: nat)
    requires LedgerOk(raw) && Gap(raw, i, limit) && Covered(raw, cursor) <= i
    ensures Covered(raw, PolledCursor(raw, cursor, limit)) <= i
  {
    hide Payments, Covered, LedgerOk;
    if Payments(Page(raw, cursor, limit)) != [] {
      var q := PollMoves(raw, cursor, limit);
    }
  }

  lemma {:induction false} GapPending(raw: seq<Record>, cursor: nat, limit: nat, i: nat)
    requires Gap(raw, i, limit) && Covered(raw, cursor) <= i
    ensures Pending(raw, cursor) > 0
  {
    var c := Covered(raw, cursor);
    var k :| i + limit <= k < |raw| && IsPayment(raw[k]);
    assert raw[c..][k - c] == raw[k];
    NoPayments(raw[c..]);
  }

  /** No poll ever gets past a gap: its payments stay pending. */
  lemma {:induction false} GapHolds(raw: seq<Record>, cursor: nat, limit: nat, i: nat, n: nat)
    requires LedgerOk(raw) && Gap(raw, i, limit) && Covered(raw, cursor) <= i
    ensures Covered(raw, PolledTimes(raw, cursor, limit, n)) <= i
    ensures Pending(raw, PolledTimes(raw, cursor, limit, n)) > 0
    decreases n
  {
    hide Payments, Covered, PolledCursor, Gap, LedgerOk, Pending;
    if n > 0 {
      GapStep(raw, cursor, limit, i);
      GapHolds(raw, PolledCursor(raw, cursor, limit), limit, i, n - 1);
    } else {
      GapPending(raw, cursor, limit, i);
    }
  }

  /** With nothing pending a poll changes nothing. */
  lemma {:induction false} NothingPending(raw: seq<Record>, cursor: nat, limit: nat)
    requires Pending(raw, cursor) == 0
    ensures Payments(Page(raw, cursor, limit)) == [] && PolledCursor(raw, cursor, limit) == cursor
  {
    hide Payments, Covered;
    var c, e := Covered(raw, cursor), PageEnd(raw, cursor, limit);
    assert raw[c..] == raw[c..e] + raw[e..];
    PaymentsConcat(raw[c..e], raw[e..]);
  }

  /** Short of a gap, as many polls as there are payments pending, or more, leave none. */
  lemma {:induction false} EnoughPolls(raw: seq<Record>, cursor: nat, limit: nat, n: nat)
    requires LedgerOk(raw) && limit > 0 && !GapAhead(raw, cursor, limit) && n >= Pending(raw, cursor)
    ensures Pending(raw, PolledTimes(raw, cursor, limit, n)) == 0
    decreases n
  {
    hide Pending, GapAhead, LedgerOk, PolledCursor;
    if n > 0 {
      if Pending(raw, cursor) > 0 {
        PollProgress(raw, cursor, limit);
      } else {
        NothingPending(raw, cursor, limit);
      }
      EnoughPolls(raw, PolledCursor(raw, cursor, limit), limit, n - 1);
    }
  }

  /**
   * Repeated fault-free polls of a ledger ingest every payment if and only if no `limit` consecutive
   * records ahead of the cursor are free of payments while a payment follows them.
   */
  lemma {:induction false} PollsReachTheEnd(raw: seq<Record>, cursor: nat, limit: nat)
    requires LedgerOk(raw) && limit > 0
    ensures (exists n: nat :: Pending(raw, PolledTimes(raw, cursor, limit, n)) == 0) <==> !GapAhead(raw, cursor, limit)
  {
    if !GapAhead(raw, cursor, limit) {
      EnoughPolls(raw, cursor, limit, Pending(raw, cursor));
    } else {
      var i: nat :| Covered(raw, cursor) <= i && Gap(raw, i, limit);
      forall n: nat ensures Pending(raw, PolledTimes(raw, cursor, limit, n)) > 0 {
        GapHolds(raw, cursor, limit, i, n);
      }
    }
  }

  /** A full page without payments blocks the stream for good, whatever the ledger goes on to record. */
  lemma {:induction false} StallIsPermanent(raw: seq<Record>, more: seq<Record>, cursor: nat, limit: nat, n: nat)
    requires limit > 0 && LedgerOk(raw + more) && Covered(raw, cursor) + limit <= |raw|
    requires forall k :: Covered(raw, cursor) <= k < Covered(raw, cursor) + limit ==> !IsPayment(raw[k])
    ensures PolledTimes(raw + more, cursor, limit, n) == cursor
    decreases n
  {
    var all := raw + more;
    var c := Covered(raw, cursor);
    assert forall k :: 0 <= k < |raw| ==> all[k] == raw[k];
    forall k | c <= k < |all| ensures all[k].token > cursor {
      if c < k { assert all[c].token < all[k].token; }
    }
    CoveredSplit(all, cursor, c);
    if n > 0 {
      PollStands(all, cursor, limit);
      StallIsPermanent(raw, more, cursor, limit, n - 1);
    }
  }
}
