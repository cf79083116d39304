/** The end-to-end guarantees, read off the invariant: in every reachable state and along every run. */
module Soundness {
  import opened Wrappers
  import opened Decimals
  import opened Instruction
  import opened Models
  import opened Backlog
  import opened Matcher
  import opened Horizon
  import opened Ingest
  import opened ScVal
  import opened Protocol
  import opened Safety
  import opened Steps
  import opened Sums
  import Contract
  import Strkey
  import Comparison

  // --- Money ---------------------------------------------------------------------------

  /** Row j is the evidence of ledger payment p, which satisfies the order and settled it as validated. */
  ghost predicate PaidFor(s: State, id: string, j: nat, p: Payment) {
    && id in s.db.orders && j < |s.db.evidence| && p in Payments(s.raw)
    && s.db.evidence[j].opId == p.id && s.db.evidence[j].orderId == id && s.db.evidence[j].verdict == VerdictMatched
    && s.db.evidence[j].amount == ToColumn(AmountOf(p))
    && p.memo == id && Satisfies(Observe(p), s.db.orders[id])
  }

  /**
   * Every evidence row is the ledger's record with its operation id, field by field; the native asset is named XLM, a
   * memo that is not text is empty, and the amount is stored as the column keeps it.
   */
  lemma {:induction false} EvidenceIsLedger(streams: map<string, string>, s: State, j: nat) returns (i: nat)
    requires Reachable(streams, s) && j < |s.db.evidence|
    ensures i < |s.raw| && forall k :: 0 <= k < |s.raw| && s.raw[k].id == s.db.evidence[j].opId ==> k == i
    ensures var e, r := s.db.evidence[j], s.raw[i];
            && e.opId == r.id && e.pagingToken == r.token && e.txHash == r.txHash
            && e.sourceAccount == r.from && e.destinationAccount == r.to && e.assetIssuer == r.assetIssuer
            && e.assetCode == (if r.assetType == "native" then "XLM" else r.assetCode)
            && e.memo == (if r.memoType == "text" then r.memo else "")
            && e.ledgerCloseAt == (if r.closedAt.Some? then r.closedAt.value else 0)
            && e.amount == ToColumn(match NewFromString(r.amount) case Some(d) => d case None => ZERO)
    ensures var e := s.db.evidence[j];
            && (e.orderId == "" || (e.orderId == e.memo && e.orderId in s.db.orders))
            && (e.orderId == "" <==> e.rejectReason == InvalidMemo)
            && (e.verdict == VerdictRejected <==> e.rejectReason != NoReason)
    ensures var r := s.raw[i];
            r.kind == "payment" || (|r.kind| >= 12 && r.kind[..12] == "path_payment")
  {
    ReachableSafe(streams, s);
    Explained(s, j);
    hide Reachable, Inv, Explains, NewFromString, ToColumn;
    var p :| p in Payments(s.raw) && Explains(p, s.db.orders, s.db.evidence[j]);
    ExplainedFields(p, s.db.orders, s.db.evidence[j]);
    i := RecordOf(s.raw, p);
  }

  lemma {:induction false} Explained(s: State, j: nat)
    requires Inv(s) && j < |s.db.evidence|
    ensures LedgerOk(s.raw) && exists p :: p in Payments(s.raw) && Explains(p, s.db.orders, s.db.evidence[j])
  {
    hide LocalOk, StoreOk, CallsOk, OnceOk, HashOk, CountersOk, RowOk, Explains, Payments;
    assert RowExplained(s.raw, s.db.orders, s.db.evidence[j]);
  }

  lemma {:induction false} ExplainedFields(p: Payment, orders: Orders, e: PaymentEvidence)
    requires Explains(p, orders, e)
    ensures e.opId == p.id && e.pagingToken == p.token && e.txHash == p.txHash && e.sourceAccount == p.from
      && e.destinationAccount == p.to && e.assetCode == p.assetCode && e.assetIssuer == p.assetIssuer
      && e.memo == p.memo && e.ledgerCloseAt == p.ledgerCloseAt
      && e.amount == ToColumn(match NewFromString(p.amount) case Some(d) => d case None => ZERO)
    ensures e.orderId == "" || (e.orderId == e.memo && e.orderId in orders)
    ensures e.orderId == "" <==> e.rejectReason == InvalidMemo
    ensures e.verdict == VerdictRejected <==> e.rejectReason != NoReason
  {
    hide Match, ToColumn, NewFromString;
    MatchMeaning(Observe(p), None);
    if e.orderId != "" {
      MatchMeaning(Observe(p), Some(orders[e.orderId]));
      MatchMeaning(Observe(p), Some(Opening(orders[e.orderId])));
    }
  }

  /** The one record a payment of the list comes from. */
  lemma {:induction false} RecordOf(raw: seq<Record>, p: Payment) returns (i: nat)
    requires LedgerOk(raw) && p in Payments(raw)
    ensures i < |raw| && forall k :: 0 <= k < |raw| && raw[k].id == p.id ==> k == i
    ensures var r := raw[i];
            && p.id == r.id && p.token == r.token && p.txHash == r.txHash
            && p.from == r.from && p.to == r.to && p.assetIssuer == r.assetIssuer && p.amount == r.amount
            && p.assetCode == (if r.assetType == "native" then "XLM" else r.assetCode)
            && p.memo == (if r.memoType == "text" then r.memo else "")
            && p.ledgerCloseAt == (if r.closedAt.Some? then r.closedAt.value else 0)
            && (r.kind == "payment" || (|r.kind| >= 12 && r.kind[..12] == "path_payment"))
  {
    hide Payments;
    var n :| 0 <= n < |Payments(raw)| && Payments(raw)[n] == p;
    var at := PaymentsAre(raw);
    i := at[n];
    assert i in at;
  }

  /** A validated order was satisfied by a payment on the ledger. */
  lemma {:induction false} ValidatedIsPaid(s: State, id: string) returns (j: nat, p: Payment)
    requires Inv(s) && id in s.db.orders && s.db.orders[id].status == Validated
    ensures PaidFor(s, id, j, p)
  {
    hide LocalOk, StoreOk, CallsOk, OnceOk, HashOk, CountersOk;
    var o := s.db.orders[id];
    assert RowOk(id, o);
    j :| SettledBy(o, s.db.evidence, j);
    var ev := s.db.evidence[j];
    assert RowExplained(s.raw, s.db.orders, ev);
    p :| p in Payments(s.raw) && Explains(p, s.db.orders, ev);
    MatchMeaning(Observe(p), Some(Opening(o)));
    MatchMeaning(Observe(p), Some(o));
  }

  /**
   * What a third party learns from the chain: if is_fulfillable holds then the order is validated in
   * Postgres, the registry shows its exact amount, buyer and asset, and a payment on the ledger carries its
   * memo, from its buyer, to its destination, in its asset, of at least its amount.
   */
  lemma {:induction false} FulfillableIsPaid(streams: map<string, string>, s: State, id: string)
    returns (j: nat, p: Payment)
    requires Reachable(streams, s) && Contract.Fulfillable(s.chain.store, id)
    ensures id in s.db.orders && s.db.orders[id].status == Validated
    ensures PaidFor(s, id, j, p)
    ensures var c, o := s.chain.store[id], s.db.orders[id];
            && c.expectedAmount as real == Stroops(o.expectedAmount)
            && c.buyer == o.buyerWallet && c.asset == o.assetCode && c.memoHash == Contract.Sha256(id)
  {
    ReachableSafe(streams, s);
    var o := s.db.orders[id];
    ValidatedOnChain(s, id);
    ChainStroopsLossless(o.expectedAmount);
    j, p := ValidatedIsPaid(s, id);
  }

  lemma {:induction false} ValidatedOnChain(s: State, id: string)
    requires Inv(s) && Contract.Fulfillable(s.chain.store, id)
    ensures id in s.db.orders && s.db.orders[id].status == Validated && Acceptable(s.db.orders[id].expectedAmount)
    ensures s.db.orders[id].memo == id && StoredOk(s.db.orders[id], s.chain.store[id])
  {
    hide EvidenceOk, SettledOk, LocalOk, CallsOk, OnceOk, HashOk, CountersOk;
    assert RowOk(id, s.db.orders[id]);
  }

  /** Ids of the validated orders. */
  ghost function ValidatedIds(orders: Orders): set<string> {
    set id | id in orders && orders[id].status == Validated
  }

  /** Positions of the evidence rows with verdict matched. */
  ghost function MatchedRows(evidence: seq<PaymentEvidence>): set<nat> {
    set j: nat | j < |evidence| && evidence[j].verdict == VerdictMatched
  }

  ghost function Owed(orders: Orders): string -> int {
    id => if id in orders then RoundStroops(orders[id].expectedAmount) else 0
  }

  ghost function Received(evidence: seq<PaymentEvidence>): nat -> int {
    (j: nat) => if j < |evidence| then RoundStroops(evidence[j].amount) else 0
  }

  /** A matched row holds at least one order's worth. */
  lemma {:induction false} MatchedRowPositive(s: State, j: nat)
    requires Inv(s) && j in MatchedRows(s.db.evidence)
    ensures RoundStroops(s.db.evidence[j].amount) >= 0
  {
    hide LocalOk, StoreOk, CallsOk, OnceOk, HashOk, CountersOk, SettledOk;
    var ev := s.db.evidence[j];
    assert RowExplained(s.raw, s.db.orders, ev);
    var p :| p in Payments(s.raw) && Explains(p, s.db.orders, ev);
    MatchMeaning(Observe(p), None);
    if ev.orderId != "" {
      var o := s.db.orders[ev.orderId];
      assert RowOk(ev.orderId, o);
      MatchMeaning(Observe(p), Some(Opening(o)));
      MatchMeaning(Observe(p), Some(o));
      CoveredAmount(o.expectedAmount, AmountOf(p));
    }
  }

  /** Paying at least an acceptable amount stores at least as many stroops. */
  lemma {:induction false} CoveredAmount(owed: Decimal, paid: Decimal)
    requires Acceptable(owed) && Value(owed) <= Value(paid)
    ensures 0 < RoundStroops(owed) <= RoundStroops(ToColumn(paid))
  {
    RoundExact(owed);
    RoundNearest(paid);
    ValueSign(paid);
    ColumnKeepsStroops(paid);
  }

  /**
   * Conservation: the stroops promised by all validated orders together never exceed the stroops of
   * the payments recorded as matched.
   */
  lemma {:induction false} ValidatedWithinReceived(streams: map<string, string>, s: State)
    requires Reachable(streams, s)
    ensures Sum(ValidatedIds(s.db.orders), Owed(s.db.orders)) <= Sum(MatchedRows(s.db.evidence),
      Received(s.db.evidence))
  {
    ReachableSafe(streams, s);
    hide Inv;
    var ids := ValidatedIds(s.db.orders);
    forall id | id in ids ensures exists j :: Covers(s, id, j) {
      var j, p := ValidatedIsPaid(s, id);
      CoversOf(s, id, j, p);
    }
    var w := map id | id in ids :: var j :| Covers(s, id, j); j;
    forall j | j in MatchedRows(s.db.evidence) ensures Received(s.db.evidence)(j) >= 0 {
      MatchedRowPositive(s, j);
    }
    SumDominated(ids, Owed(s.db.orders), MatchedRows(s.db.evidence), Received(s.db.evidence), w);
  }

  ghost predicate Covers(s: State, id: string, j: nat) {
    && id in s.db.orders && j in MatchedRows(s.db.evidence) && s.db.evidence[j].orderId == id
    && RoundStroops(s.db.orders[id].expectedAmount) <= RoundStroops(s.db.evidence[j].amount)
  }

  lemma {:induction false} CoversOf(s: State, id: string, j: nat, p: Payment)
    requires Inv(s) && PaidFor(s, id, j, p)
    ensures Covers(s, id, j)
  {
    hide EvidenceOk, SettledOk, LocalOk, StoreOk, CallsOk, OnceOk, HashOk, CountersOk;
    assert RowOk(id, s.db.orders[id]);
    CoveredAmount(s.db.orders[id].expectedAmount, AmountOf(p));
  }

  ghost function FulfillableIds(store: Contract.Store): set<string> {
    set id | id in store && Contract.Fulfillable(store, id)
  }

  ghost function Registered(store: Contract.Store): string -> int {
    id => if id in store then store[id].expectedAmount else 0
  }

  function StroopsPaid(p: Payment): int { RoundStroops(AmountOf(p)) }

  /** Positions of the ledger's payments, leaving out texts that denote no positive amount. */
  ghost function Paying(ps: seq<Payment>): set<nat> { set i: nat | i < |ps| && StroopsPaid(ps[i]) > 0 }

  ghost function OnLedger(ps: seq<Payment>): nat -> int { (i: nat) => if i < |ps| then StroopsPaid(ps[i]) else 0 }

  /** Payment i is on the ledger, carries the order's memo, and covers what the registry says it costs. */
  ghost predicate Backs(s: State, id: string, i: nat) {
    && i in Paying(Payments(s.raw)) && Payments(s.raw)[i].memo == id && id in s.chain.store
    && s.chain.store[id].expectedAmount <= StroopsPaid(Payments(s.raw)[i])
  }

  lemma {:induction false} FulfillableIsBacked(streams: map<string, string>, s: State, id: string) returns (i: nat)
    requires Reachable(streams, s) && Contract.Fulfillable(s.chain.store, id)
    ensures Backs(s, id, i)
  {
    hide Inv, Payments, Reachable, StroopsPaid, StoredOk, RoundStroops, ChainStroops;
    var j, p := FulfillableIsPaid(streams, s, id);
    ReachableSafe(streams, s);
    ValidatedOnChain(s, id);
    CoveredEntry(s.db.orders[id], s.chain.store[id], p);
    i :| i < |Payments(s.raw)| && Payments(s.raw)[i] == p;
  }

  /** The registry's amount is the order's, which a satisfying payment covers stroop for stroop. */
  lemma {:induction false} CoveredEntry(o: OrderIntent, c: Contract.Order, p: Payment)
    requires Acceptable(o.expectedAmount) && StoredOk(o, c) && Satisfies(Observe(p), o)
    ensures 0 < c.expectedAmount <= StroopsPaid(p)
  {
    hide ChainStatus, Strkey.Decodes, RoundStroops, ChainStroops;
    ChainStroopsLossless(o.expectedAmount);
    CoveredAmount(o.expectedAmount, AmountOf(p));
    ColumnKeepsStroops(AmountOf(p));
  }

  /**
   * Conservation for a third party: what all fulfillable entries of the registry cost together is at most what
   * the payments on the ledger amount to.
   */
  lemma {:induction false} FulfillableWithinLedger(streams: map<string, string>, s: State)
    requires Reachable(streams, s)
    ensures Sum(FulfillableIds(s.chain.store), Registered(s.chain.store))
            <= Sum(Paying(Payments(s.raw)), OnLedger(Payments(s.raw)))
  {
    hide Reachable, Payments;
    var ids := FulfillableIds(s.chain.store);
    forall id | id in ids ensures exists i :: Backs(s, id, i) {
      var i := FulfillableIsBacked(streams, s, id);
    }
    var w := map id | id in ids :: var i :| Backs(s, id, i); i;
    SumDominated(ids, Registered(s.chain.store), Paying(Payments(s.raw)), OnLedger(Payments(s.raw)), w);
  }

  // --- Verdicts ------------------------------------------------------------------------

  /** Along any run of any number of watchers, stale reads included, a committed verdict is never rewritten. */
  lemma {:induction false} VerdictsStand(s: State, run: seq<Step>)
    requires Inv(s) && Legal(s, run)
    ensures OrdersGrow(s.db.orders, Exec(s, run).db.orders) && s.db.evidence <= Exec(s, run).db.evidence
    decreases |run|
  {
    if run != [] {
      hide Inv;
      StepSafe(s, run[0]);
      VerdictsStand(Next(s, run[0]), run[1..]);
      GrowTransitive(s.db.orders, Next(s, run[0]).db.orders, Exec(s, run).db.orders);
    }
  }

  lemma {:induction false} GrowTransitive(a: Orders, b: Orders, c: Orders)
    requires OrdersGrow(a, b) && OrdersGrow(b, c)
    ensures OrdersGrow(a, c)
  {}

  /**
   * In every committed state each order is open, or final with evidence for exactly its status and
   * reason; payment_detected is never seen, and no order is rejected without a name or as invalid_memo.
   */
  lemma {:induction false} CommittedVerdicts(streams: map<string, string>, s: State, id: string)
    requires Reachable(streams, s) && id in s.db.orders
    ensures var o := s.db.orders[id];
            && (o.status == AwaitingPayment || OrderFinal(o.status))
            && (o.status == Rejected <==> ValidRejectReason(o.rejectReason))
            && (o.status != Rejected ==> o.rejectReason == NoReason)
            && o.rejectReason != InvalidMemo
            && (OrderFinal(o.status) <==> exists j :: SettledBy(o, s.db.evidence, j))
  {
    ReachableSafe(streams, s);
    hide EvidenceOk, LocalOk, StoreOk, CallsOk, OnceOk, HashOk, CountersOk;
    assert RowOk(id, s.db.orders[id]);
  }

  /**
   * In every reachable state, whatever became of the order since: the expected-versus-observed view of a
   * judged evidence row agrees with the verdict stored in it exactly when the payment is not a hidden
   * underpayment, and none is when the ledger's amount has at most seven places.
   */
  lemma {:induction false} ViewShowsVerdict(streams: map<string, string>, s: State, j: nat) returns (p: Payment)
    requires Reachable(streams, s) && j < |s.db.evidence|
    requires s.db.evidence[j].orderId != "" && s.db.evidence[j].verdict != VerdictDuplicate
    ensures p in Payments(s.raw) && s.db.evidence[j].opId == p.id && s.db.evidence[j].orderId in s.db.orders
    ensures var ev := s.db.evidence[j];
            var order := s.db.orders[ev.orderId];
            && ((Comparison.AllMatch(order, ev) <==> ev.verdict == VerdictMatched) <==>
               !Comparison.Hidden(Observe(p), order))
            && (Comparison.FirstMismatch(order, ev) == ev.rejectReason <==> !Comparison.Hidden(Observe(p), order))
            && (AmountOf(p).exp >= -PLACES ==> !Comparison.Hidden(Observe(p), order))
  {
    ReachableSafe(streams, s);
    hide LocalOk, StoreOk, CallsOk, OnceOk, HashOk, CountersOk, SettledOk;
    var ev := s.db.evidence[j];
    assert RowExplained(s.raw, s.db.orders, ev);
    p :| p in Payments(s.raw) && Explains(p, s.db.orders, ev);
    var order := s.db.orders[ev.orderId];
    assert RowOk(ev.orderId, order);
    MatchMeaning(Observe(p), Some(order));
    JudgedView(order, p, ev);
  }

  lemma {:induction false} JudgedView(order: OrderIntent, p: Payment, ev: PaymentEvidence)
    requires Acceptable(order.expectedAmount) && order.memo == p.memo && ev == EvidenceOf(p, Some(Opening(order)))
    ensures (Comparison.AllMatch(order, ev) <==> ev.verdict == VerdictMatched) <==>
      !Comparison.Hidden(Observe(p), order)
    ensures Comparison.FirstMismatch(order, ev) == ev.rejectReason <==> !Comparison.Hidden(Observe(p), order)
    ensures AmountOf(p).exp >= -PLACES ==> !Comparison.Hidden(Observe(p), order)
  {
    var open := Opening(order);
    Comparison.ViewAgrees(open, Observe(p), ev);
    forall f: Comparison.Field ensures Comparison.FieldMatches(order, ev, f) == Comparison.FieldMatches(open, ev, f) {
      match f
      case Amount =>
      case AssetCode =>
      case AssetIssuer =>
      case DestinationAccount =>
      case BuyerWallet =>
      case Memo =>
    }
    if AmountOf(p).exp >= -PLACES {
      Comparison.WholeStroops(AmountOf(p), order.expectedAmount);
    }
  }

  // --- The chain never contradicts Postgres ---------------------------------------------

  ghost function StatusAt(store: Contract.Store, id: string): Option<Contract.Status> {
    if id in store then Some(store[id].status) else None
  }

  /** The whole life an order can have on chain, given its row. */
  ghost function Path(orders: Orders, id: string): seq<Option<Contract.Status>> {
    if id in orders && Judged(orders[id]) then
      [None, Some(Contract.AwaitingPayment), Some(Contract.PaymentDetected),
       Some(ChainStatus(orders[id].status, orders[id].rejectReason))]
    else [None]
  }

  /** The statuses an order takes on chain along a run, repetitions dropped. */
  ghost function Trail(s: State, run: seq<Step>, id: string): (t: seq<Option<Contract.Status>>)
    requires Legal(s, run)
    ensures |t| >= 1 && t[0] == StatusAt(s.chain.store, id)
    decreases |run|
  {
    var here := StatusAt(s.chain.store, id);
    if run == [] then [here]
    else
      var rest := Trail(Next(s, run[0]), run[1..], id);
      if rest[0] == here then rest else [here] + rest
  }

  /** At any state, the chain status is the one at its rank on the path of any later verdict. */
  lemma {:induction false} OnPath(s: State, later: Orders, id: string)
    requires Inv(s) && OrdersGrow(s.db.orders, later)
    ensures Rank(s.chain.store, id) < |Path(later, id)|
    ensures StatusAt(s.chain.store, id) == Path(later, id)[Rank(s.chain.store, id)]
  {
    hide EvidenceOk, SettledOk, LocalOk, CallsOk, OnceOk, HashOk, CountersOk, RowOk, OrdersGrow, Strkey.Decodes,
      OpenCall;
    if id in s.chain.store {
      assert StoredOk(s.db.orders[id], s.chain.store[id]);
      CallsFrame(s.db.orders, later);
    }
  }

  /** Trail is the stretch of the path between the ranks of the first and the last state. */
  ghost predicate TrailIs(s: State, run: seq<Step>, id: string, path: seq<Option<Contract.Status>>)
    requires Legal(s, run)
  {
    var from, upto := Rank(s.chain.store, id), Rank(Exec(s, run).chain.store, id);
    from <= upto < |path| && Trail(s, run, id) == path[from..upto + 1]
  }

  lemma {:induction false} TrailOnPath(s: State, run: seq<Step>, id: string)
    requires Inv(s) && Legal(s, run)
    ensures TrailIs(s, run, id, Path(Exec(s, run).db.orders, id))
    decreases |run|
  {
    hide Inv, OrdersGrow, Path, Next, Enabled, StatusAt, Rank;
    VerdictsStand(s, run);
    OnPath(s, Exec(s, run).db.orders, id);
    if run != [] {
      StepSafe(s, run[0]);
      TrailOnPath(Next(s, run[0]), run[1..], id);
      TrailCons(s, run, id, Path(Exec(s, run).db.orders, id));
    }
  }

  lemma {:induction false} TrailCons(s: State, run: seq<Step>, id: string, path: seq<Option<Contract.Status>>)
    requires run != [] && Legal(s, run) && Legal(Next(s, run[0]), run[1..])
    requires TrailIs(Next(s, run[0]), run[1..], id, path)
    requires StoreGrows(s.chain.store, Next(s, run[0]).chain.store)
    requires Rank(s.chain.store, id) < |path| && StatusAt(s.chain.store, id) == path[Rank(s.chain.store, id)]
    ensures TrailIs(s, run, id, path)
  {
    hide Next, Enabled, Rank, StatusAt, StoreGrows;
    var t := Next(s, run[0]);
    OnePlace(s.chain.store, t.chain.store, id);
    TrailGrows(path, Rank(s.chain.store, id), Rank(t.chain.store, id), Rank(Exec(s, run).chain.store, id));
  }

  lemma {:induction false} OnePlace(a: Contract.Store, b: Contract.Store, id: string)
    requires StoreGrows(a, b)
    ensures if StatusAt(a, id) == StatusAt(b, id) then Rank(b, id) == Rank(a, id) else Rank(b, id) == Rank(a, id) + 1
  {}

  /** One more state in front of a stretch of the path. */
  lemma {:induction false} TrailGrows(path: seq<Option<Contract.Status>>, here: nat, next: nat, last: nat)
    requires here <= next <= here + 1 && next <= last < |path|
    ensures here == next || [path[here]] + path[next..last + 1] == path[here..last + 1]
  {}

  /**
   * For every interleaving, reordering, loss or late arrival of the calls, across restarts and sweeps: the
   * history of an order on chain is a prefix of absent, awaiting_payment, payment_detected and its verdict
   * in Postgres, and it leaves absent only once that verdict is committed.
   */
  lemma {:induction false} ChainNeverContradicts(streams: map<string, string>, run: seq<Step>, id: string)
    requires Legal(Init(streams), run)
    ensures var e := Exec(Init(streams), run);
            && Trail(Init(streams), run, id) <= Path(e.db.orders, id)
            && (id in e.chain.store ==> id in e.db.orders && Judged(e.db.orders[id]))
  {
    InitSafe(streams);
    TrailOnPath(Init(streams), run, id);
    RunSafe(Init(streams), run);
    hide LedgerOk, OrdersOk, EvidenceOk, SettledOk, LocalOk, CallsOk, OnceOk, HashOk, CountersOk;
  }

  /** A saved hash is a transaction that succeeded, and the chain holds exactly the verdict it wrote. */
  lemma {:induction false} HashMeansVerdict(streams: map<string, string>, s: State, id: string)
    requires Reachable(streams, s) && id in s.db.orders && s.db.orders[id].onChainTxHash.Some?
    ensures Carried(s.db.orders, s.chain, id, s.db.orders[id].onChainTxHash.value)
    ensures id in s.chain.store && Judged(s.db.orders[id])
    ensures s.chain.store[id].status == ChainStatus(s.db.orders[id].status, s.db.orders[id].rejectReason)
  {
    ReachableSafe(streams, s);
    hide EvidenceOk, SettledOk, LocalOk, StoreOk, CallsOk, CountersOk;
    assert RowOk(id, s.db.orders[id]);
    assert Finalizes(s.chain.succeeded[s.db.orders[id].onChainTxHash.value]);
  }

  // --- Retries --------------------------------------------------------------------------

  /**
   * One process makes at most six sweep attempts for an order, and at most three unless an acknowledged
   * write could not be saved: contract finality allows one acknowledgement per order.
   */
  lemma {:induction false} RetryBound(streams: map<string, string>, s: State, w: string, id: string)
    requires Reachable(streams, s) && w in s.watchers
    ensures Count(s.watchers[w].attempts, id) <= 6
    ensures Count(s.watchers[w].attempts, id) > 3 ==> id in s.watchers[w].acks && Unsynced(s.db.orders, id)
  {
    ReachableSafe(streams, s);
    assert CountersOk(s.db.orders, s.chain, s.acked, s.watchers[w], id);
  }
}
