/** services/report/report.go: the coverage summary of stored orders and evidence. */
module Report {
  import opened Wrappers
  import opened Models
  import opened Backlog

  datatype Coverage = Coverage(
    orders: nat,
    distinctWallets: nat,
    evidence: nat,
    verdicts: map<Verdict, nat>,
    reasonsSeen: seq<RejectReason>,
    reasonsMissing: seq<RejectReason>,
    onChainMissing: seq<string>)

  /** Byte order on strings, as sort.Strings uses it. */
  predicate Before(a: string, b: string) {
    a == [] || (b != [] && (a[0] < b[0] || (a[0] == b[0] && Before(a[1..], b[1..]))))
  }

  /** A string comes before those it begins, and before those that are larger where they first differ. */
  lemma {:induction false} BeforeMeans(a: string, b: string)
    ensures Before(a, b) <==>
      a <= b || exists i: nat :: i < |a| && i < |b| && a[..i] == b[..i] && a[i] < b[i]
  {
    if a != [] && b != [] && a[0] == b[0] {
      BeforeMeans(a[1..], b[1..]);
      assert a == [a[0]] + a[1..] && b == [b[0]] + b[1..];
      if i: nat :| i < |a| - 1 && i < |b| - 1 && a[1..][..i] == b[1..][..i] && a[1..][i] < b[1..][i] {
        assert a[..i + 1] == [a[0]] + a[1..][..i] && b[..i + 1] == [b[0]] + b[1..][..i];
        assert a[..i + 1] == b[..i + 1] && a[i + 1] < b[i + 1];
      }
      if i: nat :| i < |a| && i < |b| && a[..i] == b[..i] && a[i] < b[i] {
        assert a[1..][..i - 1] == a[..i][1..] && b[1..][..i - 1] == b[..i][1..];
        assert a[1..][i - 1] < b[1..][i - 1];
      }
    } else if a != [] && b != [] {
      assert a[..0] == b[..0];
      if i: nat :| i < |a| && i < |b| && a[..i] == b[..i] && a[i] < b[i] {
        if i > 0 { assert a[..i][0] == b[..i][0]; }
      }
    }
  }

  lemma {:induction false} BeforeTotal(a: string, b: string)
    ensures Before(a, b) || Before(b, a)
  {
    if a != [] && b != [] { BeforeTotal(a[1..], b[1..]); }
  }

  lemma {:induction false} BeforeTransitive(a: string, b: string, c: string)
    requires Before(a, b) && Before(b, c)
    ensures Before(a, c)
  {
    if a != [] { if a[0] == b[0] == c[0] { BeforeTransitive(a[1..], b[1..], c[1..]); } }
  }

  ghost predicate Sorted(s: seq<string>) { forall i, j :: 0 <= i < j < |s| ==> Before(s[i], s[j]) }

  function InsertSorted(s: seq<string>, x: string): seq<string> {
    if s == [] then [x]
    else if Before(x, s[0]) then [x] + s
    else [s[0]] + InsertSorted(s[1..], x)
  }

  function SortStrings(s: seq<string>): seq<string> {
    if s == [] then [] else InsertSorted(SortStrings(s[..|s| - 1]), s[|s| - 1])
  }

  lemma {:induction false} InsertSortedHolds(s: seq<string>, x: string)
    ensures multiset(InsertSorted(s, x)) == multiset(s) + multiset{x}
  {
    hide Before;
    if s != [] {
      assert s == [s[0]] + s[1..];
      InsertSortedHolds(s[1..], x);
    }
  }

  lemma {:induction false} InsertSortedSorts(s: seq<string>, x: string)
    requires Sorted(s)
    ensures Sorted(InsertSorted(s, x))
  {
    hide Before;
    if s != [] {
      if Before(x, s[0]) {
        forall j | 0 <= j < |s| ensures Before(x, s[j]) {
          if j > 0 { BeforeTransitive(x, s[0], s[j]); }
        }
      } else {
        BeforeTotal(x, s[0]);
        InsertSortedSorts(s[1..], x);
        InsertSortedHolds(s[1..], x);
        var t := InsertSorted(s[1..], x);
        forall j | 0 <= j < |t| ensures Before(s[0], t[j]) {
          assert t[j] in multiset(t);
          if t[j] != x { assert t[j] in s[1..]; }
        }
      }
    }
  }

  /** The sorted list is ordered and holds the same strings as often. */
  lemma {:induction false} SortStringsSorts(s: seq<string>)
    ensures Sorted(SortStrings(s)) && multiset(SortStrings(s)) == multiset(s)
  {
    if s != [] {
      SortStringsSorts(s[..|s| - 1]);
      InsertSortedSorts(SortStrings(s[..|s| - 1]), s[|s| - 1]);
      InsertSortedHolds(SortStrings(s[..|s| - 1]), s[|s| - 1]);
      assert s == s[..|s| - 1] + [s[|s| - 1]];
    }
  }

  function MissingIds(orders: seq<OrderIntent>): seq<string> {
    if orders == [] then []
    else
      var before := MissingIds(orders[..|orders| - 1]);
      var o := orders[|orders| - 1];
      if AwaitsHash(o) then before + [o.id] else before
  }

  function CountVerdict(evidence: seq<PaymentEvidence>, v: Verdict): nat {
    if evidence == [] then 0
    else CountVerdict(evidence[..|evidence| - 1], v) + (if evidence[|evidence| - 1].verdict == v then 1 else 0)
  }

  predicate ReasonIn(evidence: seq<PaymentEvidence>, r: RejectReason) {
    exists j :: 0 <= j < |evidence| && evidence[j].rejectReason == r
  }

  function Pick(reasons: seq<RejectReason>, evidence: seq<PaymentEvidence>, seen: bool): seq<RejectReason> {
    if reasons == [] then []
    else
      var before := Pick(reasons[..|reasons| - 1], evidence, seen);
      if ReasonIn(evidence, reasons[|reasons| - 1]) == seen then before + [reasons[|reasons| - 1]] else before
  }

  function Tally(m: map<Verdict, nat>, v: Verdict): nat { if v in m then m[v] else 0 }

  ghost function Wallets(orders: seq<OrderIntent>): set<string> { set i | 0 <= i < |orders| :: orders[i].buyerWallet }

  method Summarize(orders: seq<OrderIntent>, evidence: seq<PaymentEvidence>) returns (c: Coverage)
    ensures c.orders == |orders| && c.evidence == |evidence|
    ensures c.distinctWallets == |Wallets(orders)|
    ensures forall v :: Tally(c.verdicts, v) == CountVerdict(evidence, v)
    ensures c.reasonsSeen == Pick(ALL_REJECT_REASONS, evidence, true)
    ensures c.reasonsMissing == Pick(ALL_REJECT_REASONS, evidence, false)
    ensures Sorted(c.onChainMissing) && multiset(c.onChainMissing) == multiset(MissingIds(orders))
  {
    var wallets: set<string> := {};
    var missing: seq<string> := [];
    for i := 0 to |orders|
      invariant wallets == Wallets(orders[..i]) && missing == MissingIds(orders[..i])
    {
      var o := orders[i];
      assert orders[..i + 1][..i] == orders[..i];
      assert Wallets(orders[..i + 1]) == Wallets(orders[..i]) + {o.buyerWallet};
      wallets := wallets + {o.buyerWallet};
      if OrderFinal(o.status) && o.onChainTxHash == None {
        missing := missing + [o.id];
      }
    }
    assert orders[..|orders|] == orders;

    var verdicts: map<Verdict, nat> := map[];
    var seen: set<RejectReason> := {};
    for i := 0 to |evidence|
      invariant forall v :: Tally(verdicts, v) == CountVerdict(evidence[..i], v)
      invariant forall r :: r in seen <==> r != NoReason && ReasonIn(evidence[..i], r)
    {
      var e := evidence[i];
      assert evidence[..i + 1][..i] == evidence[..i];
      forall r ensures ReasonIn(evidence[..i + 1], r) <==> ReasonIn(evidence[..i], r) || e.rejectReason == r {
        ReasonLast(evidence[..i + 1], r);
      }
      verdicts := verdicts[e.verdict := Tally(verdicts, e.verdict) + 1];
      if e.rejectReason != NoReason {
        seen := seen + {e.rejectReason};
      }
    }
    assert evidence[..|evidence|] == evidence;

    var found: seq<RejectReason> := [];
    var lacking: seq<RejectReason> := [];
    for i := 0 to |ALL_REJECT_REASONS|
      invariant found == Pick(ALL_REJECT_REASONS[..i], evidence, true)
      invariant lacking == Pick(ALL_REJECT_REASONS[..i], evidence, false)
    {
      var r := ALL_REJECT_REASONS[i];
      assert ALL_REJECT_REASONS[..i + 1][..i] == ALL_REJECT_REASONS[..i];
      if r in seen {
        found := found + [r];
      } else {
        lacking := lacking + [r];
      }
    }
    assert ALL_REJECT_REASONS[..|ALL_REJECT_REASONS|] == ALL_REJECT_REASONS;
    SortStringsSorts(missing);
    c := Coverage(|orders|, |wallets|, |evidence|, verdicts, found, lacking, SortStrings(missing));
  }

  lemma {:induction false} ReasonLast(evidence: seq<PaymentEvidence>, r: RejectReason)
    requires evidence != []
    ensures ReasonIn(evidence, r) <==>
      ReasonIn(evidence[..|evidence| - 1], r) || evidence[|evidence| - 1].rejectReason == r
  {
    if ReasonIn(evidence, r) {
      var j :| 0 <= j < |evidence| && evidence[j].rejectReason == r;
      assert j < |evidence| - 1 ==> evidence[..|evidence| - 1][j].rejectReason == r;
    }
  }

  /** s is a and b interleaved, each in its own order. */
  ghost predicate Interleaved<T>(a: seq<T>, b: seq<T>, s: seq<T>) {
    if s == [] then a == [] && b == []
    else
      var front, last := s[..|s| - 1], s[|s| - 1];
      || (a != [] && a[|a| - 1] == last && Interleaved(a[..|a| - 1], b, front))
      || (b != [] && b[|b| - 1] == last && Interleaved(a, b[..|b| - 1], front))
  }

  /** Each of the five reasons is reported once, as seen or as missing, in the order of the enum. */
  lemma {:induction false} ReasonsSplit(reasons: seq<RejectReason>, evidence: seq<PaymentEvidence>)
    ensures Interleaved(Pick(reasons, evidence, true), Pick(reasons, evidence, false), reasons)
    ensures forall r :: r in Pick(reasons, evidence, true) ==> ReasonIn(evidence, r)
    ensures forall r :: r in Pick(reasons, evidence, false) ==> !ReasonIn(evidence, r)
  {
    if reasons != [] {
      ReasonsSplit(reasons[..|reasons| - 1], evidence);
    }
  }

  ghost function RowsWith(evidence: seq<PaymentEvidence>, v: Verdict): set<nat> {
    set j: nat | j < |evidence| && evidence[j].verdict == v
  }

  /** A verdict's count is the number of evidence rows with it. */
  lemma {:induction false} CountIs(evidence: seq<PaymentEvidence>, v: Verdict)
    ensures CountVerdict(evidence, v) == |RowsWith(evidence, v)|
  {
    if evidence != [] {
      var n: nat := |evidence| - 1;
      var front := evidence[..n];
      CountIs(front, v);
      if evidence[n].verdict == v {
        assert RowsWith(evidence, v) == RowsWith(front, v) + {n};
      } else {
        assert RowsWith(evidence, v) == RowsWith(front, v);
      }
    }
  }

  /** The three verdict counts add up to the evidence. */
  lemma {:induction false} VerdictsAddUp(evidence: seq<PaymentEvidence>)
    ensures CountVerdict(evidence, VerdictMatched) + CountVerdict(evidence, VerdictRejected)
            + CountVerdict(evidence, VerdictDuplicate) == |evidence|
  {
    if evidence != [] { VerdictsAddUp(evidence[..|evidence| - 1]); }
  }

  /** The table lists every order of the database once. */
  ghost predicate Lists(rows: seq<OrderIntent>, orders: Orders) {
    && (forall i :: 0 <= i < |rows| ==> rows[i].id in orders && rows[i] == orders[rows[i].id])
    && (forall i, j :: 0 <= i < j < |rows| ==> rows[i].id != rows[j].id)
    && (forall id :: id in orders ==> Has(rows, id) && orders[id].id == id)
  }

  /** The reported gap is exactly what the sweep query ranges over, each order once. */
  lemma {:induction false} ReportIsSweepRange(rows: seq<OrderIntent>, orders: Orders, id: string)
    requires Lists(rows, orders)
    ensures multiset(MissingIds(rows))[id] == if Unsynced(orders, id) then 1 else 0
  {
    MissingMeaning(rows, id);
  }

  lemma {:induction false} MissingMeaning(rows: seq<OrderIntent>, id: string)
    requires forall i, j :: 0 <= i < j < |rows| ==> rows[i].id != rows[j].id
    ensures multiset(MissingIds(rows))[id] ==
      if exists i :: 0 <= i < |rows| && rows[i].id == id && AwaitsHash(rows[i]) then 1 else 0
  {
    if rows != [] {
      var front, last := rows[..|rows| - 1], rows[|rows| - 1];
      MissingMeaning(front, id);
      assert forall i :: 0 <= i < |front| ==> front[i] == rows[i];
      assert rows == front + [last];
    }
  }
}
