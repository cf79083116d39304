/**
 * What every step keeps, however many watchers interleave: rows, evidence, the contract and the
 * transaction hashes agree, and nothing settled is ever rewritten.
 */
module Safety {
  import opened Wrappers
  import opened Instruction
  import opened Models
  import opened Backlog
  import opened Matcher
  import opened Horizon
  import opened Ingest
  import opened ScVal
  import opened Protocol
  import Contract
  import Strkey

  // --- The invariant -------------------------------------------------------------------

  /** A row is opening, or carries a final status with the reason that belongs to it; never payment_detected. */
  ghost predicate RowOk(id: string, o: OrderIntent) {
    && o.id == id && id != "" && o.memo == id && Acceptable(o.expectedAmount)
    && match o.status
       case AwaitingPayment => o.rejectReason == NoReason && o.onChainTxHash == None
       case Validated => o.rejectReason == NoReason
       case Rejected => ValidRejectReason(o.rejectReason) && o.rejectReason != InvalidMemo
       case _ => false
  }

  ghost predicate OrdersOk(orders: Orders) { forall id :: id in orders ==> RowOk(id, orders[id]) }

  /**
   * An evidence row is what the watcher stores for payment p: unlinked and rejected as invalid_memo;
   * or linked to the settled order its memo names, judged as that order was when still open, or marked
   * duplicate.
   */
  ghost predicate Explains(p: Payment, orders: Orders, ev: PaymentEvidence) {
    if ev.orderId == "" then ev == EvidenceOf(p, None)
    else
      && ev.orderId == p.memo && ev.orderId in orders && OrderFinal(orders[ev.orderId].status)
      && (ev == EvidenceOf(p, Some(Opening(orders[ev.orderId]))) || ev == EvidenceOf(p, Some(orders[ev.orderId])))
  }

  ghost predicate RowExplained(raw: seq<Record>, orders: Orders, ev: PaymentEvidence) {
    exists p :: p in Payments(raw) && Explains(p, orders, ev)
  }

  ghost predicate EvidenceOk(raw: seq<Record>, orders: Orders, evidence: seq<PaymentEvidence>) {
    && (forall j :: 0 <= j < |evidence| ==> RowExplained(raw, orders, evidence[j]))
    && (forall i, j :: 0 <= i < j < |evidence| ==> evidence[i].opId != evidence[j].opId)
  }

  /** Row j carries the verdict and reason the order was settled with. */
  ghost predicate SettledBy(o: OrderIntent, evidence: seq<PaymentEvidence>, j: int) {
    && 0 <= j < |evidence| && evidence[j].orderId == o.id && evidence[j].verdict != VerdictDuplicate
    && o.status == Terminal(evidence[j].verdict) && o.rejectReason == evidence[j].rejectReason
  }

  ghost predicate SettledOk(orders: Orders, evidence: seq<PaymentEvidence>) {
    forall id :: id in orders && OrderFinal(orders[id].status) ==> exists j :: SettledBy(orders[id], evidence, j)
  }

  /** A looked-up copy may be stale, but only by still being open. */
  ghost predicate CopyOk(orders: Orders, p: Payment, copy: Option<OrderIntent>) {
    copy.Some? ==>
      && copy.value.id == p.memo && p.memo in orders && Opening(copy.value) == Opening(orders[p.memo])
      && (copy.value.status == AwaitingPayment
          || (copy.value.status == orders[p.memo].status && copy.value.rejectReason == orders[p.memo].rejectReason))
  }

  ghost predicate LocalOk(raw: seq<Record>, orders: Orders, l: Local) {
    && (forall p :: p in l.page ==> p in Payments(raw))
    && (l.read.Some? ==> l.page != [] && CopyOk(orders, l.page[0], l.read.value.order))
    && WorkOk(orders, l)
  }

  ghost predicate Settled(orders: Orders, id: string) { id in orders && OrderFinal(orders[id].status) }

  /** What a watcher writes, and what its sweep has yet to come to, are settled orders, the latter each once. */
  ghost predicate WorkOk(orders: Orders, l: Local) {
    && (l.job.Some? ==> Settled(orders, l.job.value.id) && l.job.value.stage <= CALLS)
    && (forall i :: 0 <= i < |l.todo| ==> Settled(orders, l.todo[i]))
    && (forall i, j :: 0 <= i < j < |l.todo| ==> l.todo[i] != l.todo[j])
  }

  /** The sweep of this watcher is writing the order. */
  predicate Trying(l: Local, id: string) { l.job.Some? && l.job.value.retry && l.job.value.id == id }

  /** The registry's entry of a settled order: the order's own fields, and a status on the way to its verdict. */
  ghost predicate StoredOk(o: OrderIntent, c: Contract.Order) {
    && Judged(o)
    && OpenCall(o) == Contract.CreateCall(o.id, c.buyer, c.expectedAmount, c.asset, c.memoHash)
    && Strkey.Decodes(c.buyer)
    && (c.status.AwaitingPayment? || c.status.PaymentDetected? || c.status == ChainStatus(o.status, o.rejectReason))
  }

  ghost predicate StoreOk(orders: Orders, store: Contract.Store) {
    forall id :: id in store ==> id in orders && StoredOk(orders[id], store[id])
  }

  ghost predicate CallsOk(orders: Orders, c: Chain) {
    && (forall t :: t in c.inflight ==> t < c.next && t !in c.succeeded && Permitted(orders, c.inflight[t]))
    && (forall t :: t in c.succeeded ==> t < c.next && Permitted(orders, c.succeeded[t]))
  }

  ghost predicate Finalizes(c: Contract.Call) { c.StatusCall? && Contract.Final(c.status) }

  /** An order is final on chain exactly since a transaction finalized it, and at most one does. */
  ghost predicate OnceOk(c: Chain) {
    && (forall t :: t in c.succeeded && Finalizes(c.succeeded[t]) ==>
          c.succeeded[t].id in c.store && c.store[c.succeeded[t].id].status == c.succeeded[t].status)
    && (forall id :: id in c.store && Contract.Final(c.store[id].status) ==>
          exists t :: t in c.succeeded && Finalizes(c.succeeded[t]) && c.succeeded[t].id == id)
    && (forall t, u :: (t in c.succeeded && u in c.succeeded && Finalizes(c.succeeded[t]) && Finalizes(c.succeeded[u])
                        && c.succeeded[t].id == c.succeeded[u].id) ==> t == u)
  }

  /** Transaction t is the one that put order id's verdict on chain. */
  ghost predicate Carried(orders: Orders, c: Chain, id: string, t: TxHash) {
    t in c.succeeded && IsVerdictCall(orders, c.succeeded[t]) && c.succeeded[t].id == id
  }

  ghost predicate HashOk(orders: Orders, c: Chain, acked: set<TxHash>) {
    && acked <= c.succeeded.Keys
    && forall id :: id in orders && orders[id].onChainTxHash.Some? ==>
         Carried(orders, c, id, orders[id].onChainTxHash.value) && orders[id].onChainTxHash.value in acked
  }

  /**
   * Retry accounting of one process: failures are counted, an acknowledgement happens at most once, and an
   * acknowledged order is tried again only while its hash is missing.
   */
  ghost predicate CountersOk(orders: Orders, c: Chain, acked: set<TxHash>, l: Local, id: string) {
    var f, a := Count(l.failed, id), Count(l.attempts, id);
    && f <= MAX_ATTEMPTS
    && (Trying(l, id) ==> f < MAX_ATTEMPTS && id !in l.todo)
    && (id !in l.acks ==> a == f)
    && (id in l.acks ==>
          && (exists t :: t in acked && Carried(orders, c, id, t))
          && a <= MAX_ATTEMPTS + f
          && (Unsynced(orders, id) || (id !in l.todo && !Trying(l, id) && a <= MAX_ATTEMPTS)))
  }

  ghost predicate SweepOk(s: State) {
    forall w, id :: w in s.watchers ==> CountersOk(s.db.orders, s.chain, s.acked, s.watchers[w], id)
  }

  ghost predicate DbOk(s: State) {
    && LedgerOk(s.raw) && OrdersOk(s.db.orders)
    && EvidenceOk(s.raw, s.db.orders, s.db.evidence) && SettledOk(s.db.orders, s.db.evidence)
    && (forall w :: w in s.watchers ==> LocalOk(s.raw, s.db.orders, s.watchers[w]))
  }

  ghost predicate ChainOk(s: State) {
    && StoreOk(s.db.orders, s.chain.store) && CallsOk(s.db.orders, s.chain) && OnceOk(s.chain)
    && HashOk(s.db.orders, s.chain, s.acked)
  }

  ghost predicate Inv(s: State) { DbOk(s) && ChainOk(s) && SweepOk(s) }

  // --- What no step undoes --------------------------------------------------------------

  /** Rows stay, keep their intent, and once final keep status, reason and hash. */
  ghost predicate OrdersGrow(a: Orders, b: Orders) {
    forall id :: id in a ==>
      && id in b && Opening(b[id]) == Opening(a[id])
      && (OrderFinal(a[id].status) ==> b[id].status == a[id].status && b[id].rejectReason == a[id].rejectReason)
      && (a[id].onChainTxHash.Some? ==> b[id].onChainTxHash == a[id].onChainTxHash)
  }

  /** The path of a chain entry: 0 absent, 1 awaiting, 2 detected, 3 final. */
  function Rank(store: Contract.Store, id: string): nat {
    if id !in store then 0
    else match store[id].status
      case AwaitingPayment => 1
      case PaymentDetected => 2
      case _ => 3
  }

  /** An entry stands still or takes the next place on its path, and a final one stands still. */
  ghost predicate StoreGrows(a: Contract.Store, b: Contract.Store) {
    forall id :: (id in a ==> id in b)
      && ((id in a && id in b && a[id] == b[id]) || (id !in a && id !in b) || Rank(b, id) == Rank(a, id) + 1)
  }

  ghost predicate Grows(s: State, t: State) {
    && s.raw <= t.raw && s.db.evidence <= t.db.evidence && OrdersGrow(s.db.orders, t.db.orders)
    && StoreGrows(s.chain.store, t.chain.store)
    && s.chain.next <= t.chain.next && s.acked <= t.acked && s.watchers.Keys == t.watchers.Keys
  }

  // --- Each part survives growth of the others ---------------------------------------------

  lemma {:induction false} EvidenceFrame(raw: seq<Record>, raw': seq<Record>, a: Orders, b: Orders,
    evidence: seq<PaymentEvidence>)
    requires EvidenceOk(raw, a, evidence) && OrdersGrow(a, b)
    requires forall p :: p in Payments(raw) ==> p in Payments(raw')
    ensures EvidenceOk(raw', b, evidence)
  {
    forall j | 0 <= j < |evidence| ensures RowExplained(raw', b, evidence[j]) {
      assert RowExplained(raw, a, evidence[j]);
      var p :| p in Payments(raw) && Explains(p, a, evidence[j]);
      ExplainsFrame(p, a, b, evidence[j]);
    }
  }

  lemma {:induction false} ExplainsFrame(p: Payment, a: Orders, b: Orders, ev: PaymentEvidence)
    requires Explains(p, a, ev) && OrdersGrow(a, b)
    ensures Explains(p, b, ev)
  {
    if ev.orderId != "" {
      var x, y := a[ev.orderId], b[ev.orderId];
      assert Opening(x).id == Opening(y).id;
    }
  }

  lemma {:induction false} SettledFrame(a: Orders, b: Orders, e: seq<PaymentEvidence>, e': seq<PaymentEvidence>)
    requires SettledOk(a, e) && OrdersGrow(a, b) && e <= e'
    requires forall id :: id in b && OrderFinal(b[id].status) ==> id in a && OrderFinal(a[id].status)
    ensures SettledOk(b, e')
  {
    forall id | id in b && OrderFinal(b[id].status) ensures exists j :: SettledBy(b[id], e', j) {
      var j :| SettledBy(a[id], e, j);
      assert Opening(a[id]).id == Opening(b[id]).id;
      assert SettledBy(b[id], e', j);
    }
  }

  lemma {:induction false} LocalFrame(raw: seq<Record>, raw': seq<Record>, a: Orders, b: Orders, l: Local)
    requires LocalOk(raw, a, l) && OrdersGrow(a, b) && OrdersOk(a)
    requires forall p :: p in Payments(raw) ==> p in Payments(raw')
    ensures LocalOk(raw', b, l)
  {}

  /** Growth keeps judged orders judged, with the same three calls. */
  lemma {:induction false} CallsFrame(a: Orders, b: Orders)
    requires OrdersOk(a) && OrdersGrow(a, b)
    ensures forall id :: id in a && Judged(a[id]) ==>
      id in b && Judged(b[id]) && OpenCall(b[id]) == OpenCall(a[id]) && VerdictCall(b[id]) == VerdictCall(a[id])
    ensures forall c :: Permitted(a, c) ==> Permitted(b, c)
    ensures forall c :: IsVerdictCall(a, c) ==> IsVerdictCall(b, c)
  {
    forall id | id in a && Judged(a[id])
      ensures id in b && Judged(b[id]) && OpenCall(b[id]) == OpenCall(a[id]) && VerdictCall(b[id]) == VerdictCall(a[id])
    {
      var x, y := Opening(a[id]), Opening(b[id]);
      assert x.id == y.id && x.buyerWallet == y.buyerWallet && x.expectedAmount == y.expectedAmount
             && x.assetCode == y.assetCode && x.memo == y.memo;
    }
  }

  lemma {:induction false} StoreFrame(a: Orders, b: Orders, c: Chain)
    requires OrdersOk(a) && OrdersGrow(a, b) && StoreOk(a, c.store) && CallsOk(a, c)
    ensures StoreOk(b, c.store) && CallsOk(b, c)
  {
    CallsFrame(a, b);
  }

  /** Orders grow and gain no hash they did not have: the hash and counter parts carry over. */
  lemma {:induction false} HashFrame(a: Orders, b: Orders, c: Chain, acked: set<TxHash>)
    requires OrdersOk(a) && OrdersGrow(a, b) && HashOk(a, c, acked)
    requires forall id :: id in b && b[id].onChainTxHash.Some? ==> id in a && a[id].onChainTxHash.Some?
    ensures HashOk(b, c, acked)
  {
    CallsFrame(a, b);
  }

  lemma {:induction false} CountersFrame(a: Orders, b: Orders, c: Chain, c': Chain, acked: set<TxHash>,
    acked': set<TxHash>, l: Local, id: string)
    requires OrdersOk(a) && OrdersGrow(a, b) && CountersOk(a, c, acked, l, id) && acked <= acked'
    requires c.succeeded.Keys <= c'.succeeded.Keys && forall t :: t in c.succeeded ==> c'.succeeded[t] == c.succeeded[t]
    requires Unsynced(a, id) && id in l.acks ==> Unsynced(b, id)
    ensures CountersOk(b, c', acked', l, id)
  {
    CallsFrame(a, b);
    if id in l.acks {
      var t :| t in acked && Carried(a, c, id, t);
      assert Carried(b, c', id, t);
    }
  }
}
