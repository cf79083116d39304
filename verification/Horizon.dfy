/** lib/libstellar/horizon.go: the payments page of the destination account. */
module Horizon {
  import opened Wrappers

  /**
   * One raw record of GET /accounts/{dest}/payments. Paging tokens are numbers and 0 is the empty
   * cursor; closedAt is None where created_at is not RFC 3339.
   */
  datatype Record = Record(
    id: string,
    token: nat,
    kind: string,
    txHash: string,
    from: string,
    to: string,
    assetType: string,
    assetCode: string,
    assetIssuer: string,
    amount: string,
    closedAt: Option<int>,
    memo: string,
    memoType: string)

  datatype Payment = Payment(
    id: string,
    token: nat,
    kind: string,
    txHash: string,
    from: string,
    to: string,
    assetCode: string,
    assetIssuer: string,
    amount: string,
    memo: string,
    ledgerCloseAt: int)

  datatype FetchError = Unreachable

  predicate IsPayment(r: Record) { r.kind == "payment" || "path_payment" <= r.kind }

  function Flatten(r: Record): Payment {
    Payment(r.id, r.token, r.kind, r.txHash, r.from, r.to,
            if r.assetType == "native" then "XLM" else r.assetCode,
            r.assetIssuer, r.amount,
            if r.memoType == "text" then r.memo else "",
            if r.closedAt.Some? then r.closedAt.value else 0)
  }

  /** The payments among the records, in ledger order. */
  function Payments(raw: seq<Record>): (ps: seq<Payment>)
    ensures |ps| <= |raw|
  {
    if raw == [] then []
    else
      var rest := Payments(raw[..|raw| - 1]);
      if IsPayment(raw[|raw| - 1]) then rest + [Flatten(raw[|raw| - 1])] else rest
  }

  /** How many leading records the cursor covers: those with a token up to it. */
  function Covered(raw: seq<Record>, cursor: nat): (k: nat)
    ensures k <= |raw|
    ensures forall i :: 0 <= i < k ==> raw[i].token <= cursor
    ensures k < |raw| ==> raw[k].token > cursor
  {
    if raw == [] || raw[0].token > cursor then 0
    else 1 + Covered(raw[1..], cursor)
  }

  function PageEnd(raw: seq<Record>, cursor: nat, limit: nat): (k: nat)
    ensures Covered(raw, cursor) <= k <= |raw|
  {
    var k := Covered(raw, cursor);
    if k + limit <= |raw| then k + limit else |raw|
  }

  /** The records Horizon answers with: the next `limit` after the cursor, ascending. */
  function Page(raw: seq<Record>, cursor: nat, limit: nat): seq<Record> {
    raw[Covered(raw, cursor)..PageEnd(raw, cursor, limit)]
  }

  /** Tokens start above the empty cursor and increase; operation ids are never reused. */
  ghost predicate LedgerOk(raw: seq<Record>) {
    && (forall i :: 0 <= i < |raw| ==> raw[i].token > 0)
    && (forall i, j :: 0 <= i < j < |raw| ==> raw[i].token < raw[j].token)
    && (forall i, j :: 0 <= i < j < |raw| ==> raw[i].id != raw[j].id)
  }

  /** The Horizon endpoint of one account: its ledger only grows. */
  class Server {
    var records: seq<Record>

    constructor ()
      ensures records == []
    {
      records := [];
    }

    /** The ledger records what happens to the account. */
    method Grow(more: seq<Record>)
      modifies this
      ensures records == old(records) + more
    {
      records := records + more;
    }

    /** FetchPayments; `down` stands for any transport, status or decoding error. */
    method FetchPayments(cursor: nat, limit: nat, down: bool) returns (r: Result<seq<Payment>, FetchError>)
      ensures r == if down then Err(Unreachable) else Ok(Payments(Page(records, cursor, limit)))
    {
      if down {
        return Err(Unreachable);
      }
      var page := Page(records, cursor, limit);
      var out: seq<Payment> := [];
      for i := 0 to |page|
        invariant out == Payments(page[..i])
      {
        var rec := page[i];
        assert page[..i + 1][..i] == page[..i];
        if rec.kind != "payment" && !("path_payment" <= rec.kind) {
          continue;
        }
        var code := rec.assetCode;
        if rec.assetType == "native" {
          code := "XLM";
        }
        var memo := "";
        if rec.memoType == "text" {
          memo := rec.memo;
        }
        var closeAt := 0;
        if rec.closedAt.Some? {
          closeAt := rec.closedAt.value;
        }
        out := out + [Payment(rec.id, rec.token, rec.kind, rec.txHash, rec.from, rec.to, code,
                              rec.assetIssuer, rec.amount, memo, closeAt)];
      }
      assert page[..|page|] == page;
      return Ok(out);
    }
  }

  // --- The payment list as a function of the ledger ------------------------------

  /** Where in the ledger the payments are. */
  function Places(raw: seq<Record>): (at: seq<nat>)
    ensures |at| == |Payments(raw)| && forall j :: 0 <= j < |at| ==> at[j] < |raw|
  {
    if raw == [] then []
    else
      var n := |raw| - 1;
      Places(raw[..n]) + if IsPayment(raw[n]) then [n] else []
  }

  lemma {:induction false} PlacesIncrease(raw: seq<Record>, a: nat, b: nat)
    requires a < b < |Places(raw)|
    ensures Places(raw)[a] < Places(raw)[b]
  {
    hide IsPayment, Payments;
    if b < |Places(raw[..|raw| - 1])| { PlacesIncrease(raw[..|raw| - 1], a, b); }
  }

  lemma {:induction false} PlaceOf(raw: seq<Record>, j: nat)
    requires j < |Places(raw)|
    ensures Payments(raw)[j] == Flatten(raw[Places(raw)[j]])
  {
    hide IsPayment, Flatten;
    var front := raw[..|raw| - 1];
    if j < |Places(front)| { PlaceOf(front, j); }
  }

  lemma {:induction false} PlaceIs(raw: seq<Record>, i: nat)
    requires i < |raw|
    ensures i in Places(raw) <==> IsPayment(raw[i])
  {
    hide IsPayment, Payments;
    var n := |raw| - 1;
    if i < n {
      PlaceIs(raw[..n], i);
    } else {
      assert n !in Places(raw[..n]);
    }
  }

  /**
   * The payment list is the records of payments and of path payments, in order and each once, with the fields of its
   * record; the native asset is named XLM, and only a text memo is kept.
   */
  lemma {:induction false} PaymentsAre(raw: seq<Record>) returns (at: seq<nat>)
    ensures |at| == |Payments(raw)| && forall a, b :: 0 <= a < b < |at| ==> at[a] < at[b]
    ensures forall j :: 0 <= j < |at| ==> at[j] < |raw|
    ensures forall i: nat :: i < |raw| ==>
      (i in at <==> raw[i].kind == "payment" || (|raw[i].kind| >= 12 && raw[i].kind[..12] == "path_payment"))
    ensures forall j :: 0 <= j < |at| ==>
      var p, r := Payments(raw)[j], raw[at[j]];
      && p.id == r.id && p.token == r.token && p.kind == r.kind && p.txHash == r.txHash
      && p.from == r.from && p.to == r.to && p.assetIssuer == r.assetIssuer && p.amount == r.amount
      && p.assetCode == (if r.assetType == "native" then "XLM" else r.assetCode)
      && p.memo == (if r.memoType == "text" then r.memo else "")
      && p.ledgerCloseAt == (if r.closedAt.Some? then r.closedAt.value else 0)
  {
    hide Payments, Places;
    at := Places(raw);
    forall a, b | 0 <= a < b < |at| ensures at[a] < at[b] { PlacesIncrease(raw, a, b); }
    forall i: nat | i < |raw| ensures
      i in at <==> raw[i].kind == "payment" || (|raw[i].kind| >= 12 && raw[i].kind[..12] == "path_payment")
    {
      PlaceIs(raw, i);
    }
    forall j | 0 <= j < |at| ensures Payments(raw)[j] == Flatten(raw[at[j]]) { PlaceOf(raw, j); }
  }

  /** A page holds the next records after the cursor, all of them or as many as were asked for. */
  lemma {:induction false} PageIs(raw: seq<Record>, cursor: nat, limit: nat) returns (k: nat)
    requires LedgerOk(raw)
    ensures var page := Page(raw, cursor, limit);
            && k + |page| <= |raw| && page == raw[k..k + |page|]
            && (forall i :: 0 <= i < |raw| ==> (raw[i].token <= cursor <==> i < k))
            && |page| <= limit && (|page| == limit || k + |page| == |raw|)
  {
    k := Covered(raw, cursor);
    forall i | k <= i < |raw| ensures raw[i].token > cursor {
      assert raw[k].token <= raw[i].token;
    }
  }

  lemma {:induction false} PaymentsAppend(raw: seq<Record>, r: Record)
    ensures Payments(raw + [r]) == Payments(raw) + (if IsPayment(r) then [Flatten(r)] else [])
  {
    assert (raw + [r])[..|raw|] == raw;
  }

  lemma {:induction false} PaymentsConcat(a: seq<Record>, b: seq<Record>)
    ensures Payments(a + b) == Payments(a) + Payments(b)
  {
    if b == [] {
      assert a + b == a;
    } else {
      var front := b[..|b| - 1];
      assert a + b == (a + front) + [b[|b| - 1]];
      assert b == front + [b[|b| - 1]];
      PaymentsConcat(a, front);
      PaymentsAppend(a + front, b[|b| - 1]);
      PaymentsAppend(front, b[|b| - 1]);
    }
  }

  lemma {:induction false} PaymentsPrefix(raw: seq<Record>, k: nat)
    requires k <= |raw|
    ensures Payments(raw[..k]) <= Payments(raw)
  {
    assert raw == raw[..k] + raw[k..];
    PaymentsConcat(raw[..k], raw[k..]);
  }

  /** Payment j of the list is record i of the ledger, and j payments precede it there. */
  ghost predicate Origin(raw: seq<Record>, j: nat, i: nat)
    requires j < |Payments(raw)|
  {
    && i < |raw| && IsPayment(raw[i]) && Payments(raw)[j] == Flatten(raw[i])
    && |Payments(raw[..i])| == j && |Payments(raw[..i + 1])| == j + 1
  }

  /** Every payment of the list comes from a payment record, and order is kept. */
  lemma {:induction false} PaymentOrigin(raw: seq<Record>, j: nat) returns (i: nat)
    requires j < |Payments(raw)|
    ensures Origin(raw, j, i)
  {
    hide Flatten, IsPayment;
    var n := |raw| - 1;
    var front := raw[..n];
    if j < |Payments(front)| {
      i := PaymentOrigin(front, j);
      assert front[..i] == raw[..i] && front[..i + 1] == raw[..i + 1];
    } else {
      i := n;
      assert raw[..n + 1] == raw;
    }
  }

  lemma {:induction false} CoveredAt(raw: seq<Record>, i: nat)
    requires LedgerOk(raw) && i < |raw|
    ensures Covered(raw, raw[i].token) == i + 1
  {
    CoveredSplit(raw, raw[i].token, i + 1);
  }

  /** A position with every token before it covered and none after it is the covered count. */
  lemma {:induction false} CoveredSplit(raw: seq<Record>, cursor: nat, k: nat)
    requires k <= |raw|
    requires forall i :: 0 <= i < k ==> raw[i].token <= cursor
    requires forall i :: k <= i < |raw| ==> raw[i].token > cursor
    ensures Covered(raw, cursor) == k
  {
    if k > 0 { CoveredSplit(raw[1..], cursor, k - 1); }
  }

  lemma {:induction false} CoveredNothing(raw: seq<Record>)
    requires LedgerOk(raw)
    ensures Covered(raw, 0) == 0
  {}

  /** In a well-formed ledger, payments keep distinct ids and increasing tokens. */
  lemma {:induction false} PaymentsDistinct(raw: seq<Record>, a: nat, b: nat)
    requires LedgerOk(raw) && a < b < |Payments(raw)|
    ensures Payments(raw)[a].id != Payments(raw)[b].id
    ensures Payments(raw)[a].token < Payments(raw)[b].token
  {
    hide Payments;
    var i := PaymentOrigin(raw, a);
    var j := PaymentOrigin(raw, b);
    if j < i {
      assert raw[..i][..j + 1] == raw[..j + 1];
      PaymentsPrefix(raw[..i], j + 1);
    }
    assert i < j;
  }

  /**
   * A page read from the token of the j-th payment starts with payment j + 1, and one read from the
   * empty cursor starts with the first: a page is a contiguous stretch of the payment list.
   */
  lemma {:induction false} PageIsStretch(raw: seq<Record>, cursor: nat, limit: nat, start: nat)
    requires LedgerOk(raw)
    requires StretchStart(raw, cursor, start)
    ensures var ps := Payments(Page(raw, cursor, limit));
            start + |ps| <= |Payments(raw)| && ps == Payments(raw)[start..start + |ps|]
  {
    hide Payments, Covered;
    var k, e := Covered(raw, cursor), PageEnd(raw, cursor, limit);
    StretchOf(raw, k, e);
    StretchLength(raw, cursor, start);
  }

  lemma {:induction false} StretchLength(raw: seq<Record>, cursor: nat, start: nat)
    requires LedgerOk(raw)
    requires StretchStart(raw, cursor, start)
    ensures |Payments(raw[..Covered(raw, cursor)])| == start
  {
    if start > 0 {
      var i := PaymentOrigin(raw, start - 1);
      CoveredAt(raw, i);
    } else {
      CoveredNothing(raw);
    }
  }

  lemma {:induction false} StretchOf(raw: seq<Record>, k: nat, e: nat)
    requires k <= e <= |raw|
    ensures var ps, start := Payments(raw[k..e]), |Payments(raw[..k])|;
            start + |ps| <= |Payments(raw)| && ps == Payments(raw)[start..start + |ps|]
  {
    assert raw[..e] == raw[..k] + raw[k..e];
    PaymentsConcat(raw[..k], raw[k..e]);
    PaymentsPrefix(raw, e);
  }

  /** The cursor is empty and nothing precedes the page, or it is the token of the payment before it. */
  ghost predicate StretchStart(raw: seq<Record>, cursor: nat, start: nat) {
    if start == 0 then cursor == 0
    else start <= |Payments(raw)| && cursor == Payments(raw)[start - 1].token
  }
}
