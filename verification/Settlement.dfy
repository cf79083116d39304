/**
 * The simple machine: orders are created and payments are taken one at a time, each exactly once and
 * in one step. Everything about verdicts is proved here; Ingestion shows that one watcher refines it.
 */
module Settlement {
  import opened Wrappers
  import opened Instruction
  import opened Models
  import opened Backlog
  import opened Matcher
  import opened Horizon
  import opened Ingest
  import opened Protocol
  import opened Safety

  datatype Machine = Machine(orders: Orders, evidence: seq<PaymentEvidence>)

  const IDLE := Machine(map[], [])

  function Take(m: Machine, e: Event): Machine {
    match e
    case Created(o) => m.(orders := m.orders[o.id := o])
    case Paid(p) =>
      var order := FindByMemo(m.orders, p.memo);
      Machine(OrdersAfter(m.orders, p, order), m.evidence + [EvidenceOf(p, order)])
  }

  function Fold(log: seq<Event>): Machine {
    if log == [] then IDLE else Take(Fold(log[..|log| - 1]), log[|log| - 1])
  }

  function PaidIn(log: seq<Event>): seq<Payment> {
    if log == [] then []
    else
      var before := PaidIn(log[..|log| - 1]);
      match log[|log| - 1] case Paid(p) => before + [p] case Created(_) => before
  }

  /** The orders created in the log, as they opened. */
  function CreatedIn(log: seq<Event>): Orders {
    if log == [] then map[]
    else
      var before := CreatedIn(log[..|log| - 1]);
      match log[|log| - 1] case Created(o) => before[o.id := o] case Paid(_) => before
  }

  /** Orders open correctly and ids are never reused. */
  predicate WfLog(log: seq<Event>) {
    log == [] ||
    (WfLog(log[..|log| - 1]) &&
     match log[|log| - 1]
     case Created(o) => OpeningRow(o) && o.id !in CreatedIn(log[..|log| - 1])
     case Paid(_) => true)
  }

  /** The first payment after the creation of order id that carries its memo. */
  function FirstPaid(log: seq<Event>, id: string): Option<Payment> {
    if log == [] then None
    else
      var front := log[..|log| - 1];
      match FirstPaid(front, id)
      case Some(p) => Some(p)
      case None =>
        match log[|log| - 1]
        case Paid(p) => if id in CreatedIn(front) && p.memo == id then Some(p) else None
        case Created(_) => None
  }

  /** The row an order ends in: opening, or judged by its first payment. */
  function SettledRow(log: seq<Event>, id: string): OrderIntent
    requires id in CreatedIn(log)
  {
    var o := CreatedIn(log)[id];
    match FirstPaid(log, id)
    case None => o
    case Some(p) => var (v, r) := Match(Observe(p), Some(o)); SetVerdict(o, v, r)
  }

  // --- Basic facts ----------------------------------------------------------------------

  lemma {:induction false} FoldAppend(log: seq<Event>, e: Event)
    ensures Fold(log + [e]) == Take(Fold(log), e)
    ensures PaidIn(log + [e]) == PaidIn(log) + (if e.Paid? then [e.payment] else [])
    ensures CreatedIn(log + [e]) == if e.Created? then CreatedIn(log)[e.order.id := e.order] else CreatedIn(log)
    ensures WfLog(log + [e]) <==> WfLog(log) && (e.Created? ==> OpeningRow(e.order) && e.order.id !in CreatedIn(log))
  {
    assert (log + [e])[..|log|] == log;
  }

  lemma {:induction false} SplitLast(log: seq<Event>)
    requires log != []
    ensures log == log[..|log| - 1] + [log[|log| - 1]]
  {}

  lemma {:induction false} CreatedRows(log: seq<Event>)
    requires WfLog(log)
    ensures forall id :: id in CreatedIn(log) ==> OpeningRow(CreatedIn(log)[id]) && CreatedIn(log)[id].id == id
  {
    if log != [] { CreatedRows(log[..|log| - 1]); }
  }

  // --- The closed form --------------------------------------------------------------------

  /**
   * Settlement has a closed form: an order's row is its opening row, judged by the first payment
   * carrying its memo after its creation, and by nothing that comes later.
   */
  lemma {:induction false} ClosedForm(log: seq<Event>)
    requires WfLog(log)
    ensures Fold(log).orders.Keys == CreatedIn(log).Keys
    ensures forall id :: id in CreatedIn(log) ==> Fold(log).orders[id] == SettledRow(log, id)
    ensures forall id :: id !in CreatedIn(log) ==> FirstPaid(log, id) == None
  {
    CreatedRows(log);
    if log != [] {
      var front, e := log[..|log| - 1], log[|log| - 1];
      SplitLast(log);
      FoldAppend(front, e);
      ClosedForm(front);
      CreatedRows(front);
      match e
      case Created(_) =>
      case Paid(p) => PaidClosedForm(front, p, log);
    }
  }

  lemma {:induction false} PaidClosedForm(front: seq<Event>, p: Payment, log: seq<Event>)
    requires WfLog(front) && log == front + [Paid(p)] && Fold(front).orders.Keys == CreatedIn(front).Keys
    requires forall id :: id in CreatedIn(front) ==> Fold(front).orders[id] == SettledRow(front, id)
    requires forall id :: id in CreatedIn(front) ==> OpeningRow(CreatedIn(front)[id]) && CreatedIn(front)[id].id == id
    requires forall id :: id !in CreatedIn(front) ==> FirstPaid(front, id) == None
    ensures Fold(log).orders.Keys == CreatedIn(log).Keys
    ensures forall id :: id in CreatedIn(log) ==> Fold(log).orders[id] == SettledRow(log, id)
    ensures forall id :: id !in CreatedIn(log) ==> FirstPaid(log, id) == None
  {
    hide Fold, CreatedIn, WfLog, EvidenceOf, Match, OpeningRow, FirstPaid;
    var m := Fold(front);
    FoldAppend(front, Paid(p));
    var order := FindByMemo(m.orders, p.memo);
    forall id ensures FirstPaid(log, id) ==
      match FirstPaid(front, id) case Some(q) => Some(q) case None => if id in CreatedIn(front)
        && p.memo == id then Some(p) else None
    {
      FirstPaidAppend(front, p, id);
    }
    MatchMeaning(Observe(p), order);
    forall id | id in CreatedIn(log) ensures OrdersAfter(m.orders, p, order)[id] == SettledRow(log, id) {
      PaidRow(front, p, log, id);
    }
  }

  lemma {:induction false} FirstPaidAppend(front: seq<Event>, p: Payment, id: string)
    ensures FirstPaid(front + [Paid(p)], id) ==
      match FirstPaid(front, id) case Some(q) => Some(q) case None => if id in CreatedIn(front)
        && p.memo == id then Some(p) else None
  {
    hide CreatedIn;
    var log := front + [Paid(p)];
    assert log[..|log| - 1] == front;
  }

  lemma {:induction false} PaidRow(front: seq<Event>, p: Payment, log: seq<Event>, id: string)
    requires id in CreatedIn(front) && OpeningRow(CreatedIn(front)[id]) && CreatedIn(front)[id].id == id
    requires CreatedIn(log) == CreatedIn(front)
    requires FirstPaid(log, id) ==
      match FirstPaid(front, id) case Some(q) => Some(q) case None => if p.memo == id then Some(p) else None
    requires id in Fold(front).orders && Fold(front).orders[id] == SettledRow(front, id)
    requires var f := FindByMemo(Fold(front).orders, p.memo); f.Some? ==> f.value.id == p.memo
    ensures OrdersAfter(Fold(front).orders, p, FindByMemo(Fold(front).orders, p.memo))[id] == SettledRow(log, id)
  {
    hide Fold, CreatedIn, EvidenceOf, FirstPaid, Acceptable;
    var orders := Fold(front).orders;
    var row := orders[id];
    MatchMeaning(Observe(p), Some(row));
    match FirstPaid(front, id)
    case Some(q) => MatchMeaning(Observe(q), Some(CreatedIn(front)[id]));
    case None =>
  }

  /** Taking further events never changes a judged row. */
  lemma {:induction false} FirstPaidStands(log: seq<Event>, more: seq<Event>, id: string)
    requires FirstPaid(log, id).Some?
    ensures FirstPaid(log + more, id) == FirstPaid(log, id)
  {
    if more == [] {
      assert log + more == log;
    } else {
      FirstPaidStands(log, more[..|more| - 1], id);
      assert (log + more)[..|log + more| - 1] == log + more[..|more| - 1];
    }
  }

  /** FirstPaid is the payment at the least position that carries the memo of an order already created. */
  ghost predicate Addressed(log: seq<Event>, k: nat, id: string) {
    k < |log| && log[k].Paid? && log[k].payment.memo == id && id in CreatedIn(log[..k])
  }

  lemma {:induction false} FirstPaidIsFirst(log: seq<Event>, id: string)
    ensures FirstPaid(log, id) == None <==> forall k: nat :: !Addressed(log, k, id)
    ensures FirstPaid(log, id).Some? ==>
      exists k: nat :: Addressed(log, k, id) && FirstPaid(log, id) == Some(log[k].payment)
        && forall i: nat :: i < k ==> !Addressed(log, i, id)
  {
    if log != [] {
      var front, n := log[..|log| - 1], |log| - 1;
      FirstPaidIsFirst(front, id);
      forall k: nat | k < n ensures Addressed(front, k, id) <==> Addressed(log, k, id) {
        assert front[..k] == log[..k];
      }
      assert Addressed(log, n, id) <==> log[n].Paid? && log[n].payment.memo == id && id in CreatedIn(front);
      if FirstPaid(front, id).Some? {
        var k: nat :| Addressed(front, k, id) && FirstPaid(front, id) == Some(front[k].payment)
          && forall i: nat :: i < k ==> !Addressed(front, i, id);
        assert Addressed(log, k, id);
      }
    }
  }

  // --- Evidence and orders ------------------------------------------------------------------

  /** Positions of the rows linked to an order and not marked duplicate. */
  ghost function JudgedRows(evidence: seq<PaymentEvidence>): set<nat> {
    set j: nat | j < |evidence| && evidence[j].orderId != "" && evidence[j].verdict != VerdictDuplicate
  }

  ghost function SettledIds(orders: Orders): set<string> {
    set id | id in orders && OrderFinal(orders[id].status)
  }

  /** Row j is the one judged row of order id, and it carries the verdict and reason of the order. */
  ghost predicate JudgedBy(m: Machine, id: string, j: nat) {
    && id in m.orders && j in JudgedRows(m.evidence) && SettledBy(m.orders[id], m.evidence, j)
    && forall i :: i in JudgedRows(m.evidence) && m.evidence[i].orderId == id ==> i == j
  }

  /** Rows keep their keys, are open or final, and never carry invalid_memo. */
  ghost predicate Named(m: Machine) {
    forall id :: id in m.orders ==>
      && m.orders[id].id == id && id != "" && m.orders[id].memo == id
      && m.orders[id].rejectReason != InvalidMemo
      && (OrderFinal(m.orders[id].status) || m.orders[id].status == AwaitingPayment)
  }

  ghost predicate EachJudgedOnce(m: Machine) {
    forall id :: id in m.orders && OrderFinal(m.orders[id].status) ==> exists j: nat :: JudgedBy(m, id, j)
  }

  ghost predicate RowsBelong(m: Machine) {
    && (forall j :: j in JudgedRows(m.evidence) ==>
          m.evidence[j].orderId in m.orders && OrderFinal(m.orders[m.evidence[j].orderId].status))
    && (forall j :: 0 <= j < |m.evidence| && m.evidence[j].orderId == "" ==>
          m.evidence[j].verdict == VerdictRejected && m.evidence[j].rejectReason == InvalidMemo)
  }

  /**
   * Evidence and settled orders correspond one to one: each settled order has exactly one judged row, which
   * carries its verdict and reason; every judged row belongs to a settled order; unlinked rows are all
   * rejected as invalid_memo; and there are as many settled orders as judged rows.
   */
  ghost predicate Corresponds(m: Machine) {
    && Named(m) && EachJudgedOnce(m) && RowsBelong(m)
    && |SettledIds(m.orders)| == |JudgedRows(m.evidence)|
  }

  lemma {:induction false} EvidenceCorresponds(log: seq<Event>)
    requires WfLog(log)
    ensures Corresponds(Fold(log))
  {
    if log == [] {
      assert SettledIds(IDLE.orders) == {} && JudgedRows(IDLE.evidence) == {};
    } else {
      var front, e := log[..|log| - 1], log[|log| - 1];
      SplitLast(log);
      FoldAppend(front, e);
      EvidenceCorresponds(front);
      ClosedForm(front);
      hide Fold, CreatedIn, WfLog, SettledRow, Corresponds;
      match e
      case Created(o) => CreatedCorresponds(Fold(front), o);
      case Paid(p) => PaidCorresponds(Fold(front), p);
    }
  }

  lemma {:induction false} CreatedCorresponds(m: Machine, o: OrderIntent)
    requires Corresponds(m) && OpeningRow(o) && o.id !in m.orders
    ensures Corresponds(Take(m, Created(o)))
  {
    hide JudgedRows;
    var n := Take(m, Created(o));
    assert SettledIds(n.orders) == SettledIds(m.orders);
    forall id | id in n.orders && OrderFinal(n.orders[id].status) ensures exists j: nat :: JudgedBy(n, id, j) {
      var j: nat :| JudgedBy(m, id, j);
      assert JudgedBy(n, id, j);
    }
  }

  lemma {:induction false} PaidCorresponds(m: Machine, p: Payment)
    requires Corresponds(m)
    ensures Corresponds(Take(m, Paid(p)))
  {
    var order := FindByMemo(m.orders, p.memo);
    MatchMeaning(Observe(p), order);
    var ev := EvidenceOf(p, order);
    if Settles(m.orders, p, order) {
      var o := order.value;
      var row := SetVerdict(o, ev.verdict, ev.rejectReason);
      assert OrdersAfter(m.orders, p, order) == m.orders[o.id := row];
      SettlingCorresponds(m, Machine(m.orders[o.id := row], m.evidence + [ev]), o, ev);
    } else {
      IdleCorresponds(m, ev);
    }
  }

  /** A row that is unlinked or duplicate leaves the judged rows alone; another joins them. */
  lemma {:induction false} JudgedRowsAppend(evidence: seq<PaymentEvidence>, ev: PaymentEvidence)
    ensures JudgedRows(evidence + [ev]) ==
      if ev.orderId != ""
        && ev.verdict != VerdictDuplicate then JudgedRows(evidence) + {|evidence|} else JudgedRows(evidence)
    ensures |evidence| !in JudgedRows(evidence)
  {}

  /** A new row that is not a judged row of id leaves id judged by the same row. */
  lemma {:induction false} JudgedKept(m: Machine, n: Machine, id: string, j: nat, ev: PaymentEvidence)
    requires JudgedBy(m, id, j) && n.evidence == m.evidence + [ev] && id in n.orders && n.orders[id] == m.orders[id]
    requires ev.orderId == "" || ev.verdict == VerdictDuplicate || ev.orderId != id
    ensures JudgedBy(n, id, j)
  {
    JudgedRowsAppend(m.evidence, ev);
  }

  /** A payment that settles nothing adds a row that is unlinked or duplicate. */
  lemma {:induction false} IdleCorresponds(m: Machine, ev: PaymentEvidence)
    requires Corresponds(m)
    requires ev.orderId == "" || ev.verdict == VerdictDuplicate
    requires ev.orderId == "" ==> ev.verdict == VerdictRejected && ev.rejectReason == InvalidMemo
    ensures Corresponds(Machine(m.orders, m.evidence + [ev]))
  {
    hide JudgedBy, JudgedRows;
    var n := Machine(m.orders, m.evidence + [ev]);
    JudgedRowsAppend(m.evidence, ev);
    forall id | id in n.orders && OrderFinal(n.orders[id].status) ensures exists j: nat :: JudgedBy(n, id, j) {
      var j: nat :| JudgedBy(m, id, j);
      JudgedKept(m, n, id, j, ev);
    }
    JudgedInRange(m.evidence);
  }

  lemma {:induction false} JudgedInRange(evidence: seq<PaymentEvidence>)
    ensures forall j :: j in JudgedRows(evidence) ==> 0 <= j < |evidence|
  {}

  /** A payment that settles its order adds the one judged row of that order. */
  ghost predicate Settling(m: Machine, n: Machine, o: OrderIntent, ev: PaymentEvidence) {
    && o.id in m.orders && m.orders[o.id] == o && !OrderFinal(o.status)
    && ev.orderId == o.id && ev.verdict != VerdictDuplicate && ev.rejectReason != InvalidMemo
    && n == Machine(m.orders[o.id := SetVerdict(o, ev.verdict, ev.rejectReason)], m.evidence + [ev])
  }

  lemma {:induction false} SettlingCorresponds(m: Machine, n: Machine, o: OrderIntent, ev: PaymentEvidence)
    requires Corresponds(m) && Settling(m, n, o, ev)
    ensures Corresponds(n)
  {
    hide Settling, Named, RowsBelong, EachJudgedOnce, JudgedRows, SettledIds;
    SettlingJudged(m, n, o, ev);
    SettlingBelongs(m, n, o, ev);
    SettlingNamed(m, n, o, ev);
    SettlingCounted(m, n, o, ev);
  }

  lemma {:induction false} SettlingNamed(m: Machine, n: Machine, o: OrderIntent, ev: PaymentEvidence)
    requires Named(m) && Settling(m, n, o, ev)
    ensures Named(n)
  {}

  /** One order more is settled, and one row more is judged. */
  lemma {:induction false} SettlingCounted(m: Machine, n: Machine, o: OrderIntent, ev: PaymentEvidence)
    requires Named(m) && Settling(m, n, o, ev)
    ensures |SettledIds(n.orders)| == |SettledIds(m.orders)| + 1
      && |JudgedRows(n.evidence)| == |JudgedRows(m.evidence)| + 1
  {
    hide JudgedRows;
    JudgedRowsAppend(m.evidence, ev);
    assert m.orders[o.id].id == o.id && o.id != "";
    assert SettledIds(n.orders) == SettledIds(m.orders) + {o.id};
    assert o.id !in SettledIds(m.orders);
  }

  lemma {:induction false} SettlingBelongs(m: Machine, n: Machine, o: OrderIntent, ev: PaymentEvidence)
    requires Named(m) && RowsBelong(m) && Settling(m, n, o, ev)
    ensures RowsBelong(n)
  {
    hide JudgedRows;
    JudgedRowsAppend(m.evidence, ev);
    JudgedInRange(m.evidence);
  }

  lemma {:induction false} SettlingJudged(m: Machine, n: Machine, o: OrderIntent, ev: PaymentEvidence)
    requires Named(m) && EachJudgedOnce(m) && RowsBelong(m) && Settling(m, n, o, ev)
    ensures EachJudgedOnce(n)
  {
    hide JudgedBy, JudgedRows, RowsBelong;
    forall id | id in n.orders && OrderFinal(n.orders[id].status) ensures exists j: nat :: JudgedBy(n, id, j) {
      if id == o.id {
        SettledByNewRow(m, n, id, ev);
      } else {
        var j: nat :| JudgedBy(m, id, j);
        JudgedKept(m, n, id, j, ev);
      }
    }
  }

  lemma {:induction false} SettledByNewRow(m: Machine, n: Machine, id: string, ev: PaymentEvidence)
    requires RowsBelong(m) && id in m.orders && !OrderFinal(m.orders[id].status)
    requires n.evidence == m.evidence + [ev] && id in n.orders && n.orders[id].id == id && id != ""
    requires ev.orderId == id && ev.verdict != VerdictDuplicate
    requires n.orders[id].status == Terminal(ev.verdict) && n.orders[id].rejectReason == ev.rejectReason
    ensures JudgedBy(n, id, |m.evidence|)
  {
    JudgedRowsAppend(m.evidence, ev);
    assert SettledBy(n.orders[id], n.evidence, |m.evidence|);
  }
}
