/**
 * With one watcher, the protocol refines the simple machine of Settlement: through crashes, aborted
 * transactions, half-processed pages and rewound cursors, each payment is taken exactly once and in
 * ledger order.
 */
module Ingestion {
  import opened Wrappers
  import opened Models
  import opened Backlog
  import opened Matcher
  import opened Horizon
  import opened Ingest
  import opened Protocol
  import Steps
  import Contract
  import opened Settlement
  import opened Paging

  // --- The simple machine does not see the hash column -------------------------------------

  function Strip(o: OrderIntent): OrderIntent { o.(onChainTxHash := None) }

  function StripAll(orders: Orders): Orders { map id | id in orders :: Strip(orders[id]) }

  function StripCopy(copy: Option<OrderIntent>): Option<OrderIntent> {
    match copy case Some(o) => Some(Strip(o)) case None => None
  }

  lemma {:induction false} StripCommutes(orders: Orders, p: Payment, copy: Option<OrderIntent>)
    ensures FindByMemo(StripAll(orders), p.memo) == StripCopy(FindByMemo(orders, p.memo))
    ensures OrdersAfter(StripAll(orders), p, StripCopy(copy)) == StripAll(OrdersAfter(orders, p, copy))
    ensures EvidenceOf(p, StripCopy(copy)) == EvidenceOf(p, copy)
  {
    assert Match(Observe(p), StripCopy(copy)) == Match(Observe(p), copy);
    if copy.Some? && copy.value.id in orders {
      var id := copy.value.id;
      var (v, r) := Match(Observe(p), copy);
      assert StripAll(orders[id := SetVerdict(orders[id], v, r)]) == StripAll(orders)[id :=
        SetVerdict(Strip(orders[id]), v, r)];
    }
  }

  // --- Linearization ------------------------------------------------------------------------

  lemma {:induction false} WfPrefix(log: seq<Event>, k: nat)
    requires WfLog(log) && k <= |log|
    ensures WfLog(log[..k]) && CreatedIn(log[..k]).Keys <= CreatedIn(log).Keys
  {
    if k < |log| {
      WfPrefix(log[..|log| - 1], k);
      assert log[..|log| - 1][..k] == log[..k];
    } else {
      assert log[..k] == log;
    }
  }

  /** Only orders were created since the lookup. */
  predicate OnlyCreatedSince(log: seq<Event>, at: nat) {
    at <= |log| && forall i :: at <= i < |log| ==> log[i].Created?
  }

  /**
   * A payment looked up when the log was `at` long and committed now has the effect it would have had,
   * atomically, at its lookup: orders created in between commute with it.
   */
  lemma {:induction false} Linearize(log: seq<Event>, at: nat, p: Payment)
    requires WfLog(log) && OnlyCreatedSince(log, at)
    ensures var copy := FindByMemo(Fold(log[..at]).orders, p.memo);
            Fold(Logged(log, at, p)) == Machine(OrdersAfter(Fold(log).orders, p, copy),
              Fold(log).evidence + [EvidenceOf(p, copy)])
    ensures WfLog(Logged(log, at, p)) && PaidIn(Logged(log, at, p)) == PaidIn(log) + [p]
    ensures CreatedIn(Logged(log, at, p)) == CreatedIn(log)
    decreases |log|
  {
    if at == |log| {
      assert log[..at] == log && Logged(log, at, p) == log + [Paid(p)];
      FoldAppend(log, Paid(p));
    } else {
      var front, o := log[..|log| - 1], log[|log| - 1].order;
      assert front[..at] == log[..at];
      SplitLast(log);
      hide Fold, WfLog, CreatedIn, PaidIn, OrdersAfter, EvidenceOf, FindByMemo;
      FoldAppend(front, Created(o));
      Linearize(front, at, p);
      assert Logged(log, at, p) == Logged(front, at, p) + [Created(o)];
      CreatedCommutes(front, Logged(front, at, p), at, p, o);
    }
  }

  /** The step of that induction: an order created after the lookup, on top of a log that is already in order. */
  lemma {:induction false} CreatedCommutes(front: seq<Event>, mid: seq<Event>, at: nat, p: Payment, o: OrderIntent)
    requires WfLog(front + [Created(o)]) && WfLog(front) && at <= |front| && WfLog(mid)
    requires var copy := FindByMemo(Fold(front[..at]).orders, p.memo);
             Fold(mid) == Machine(OrdersAfter(Fold(front).orders, p, copy),
               Fold(front).evidence + [EvidenceOf(p, copy)])
    requires PaidIn(mid) == PaidIn(front) + [p] && CreatedIn(mid) == CreatedIn(front)
    ensures var copy, log := FindByMemo(Fold(front[..at]).orders, p.memo), front + [Created(o)];
            Fold(mid + [Created(o)]) == Machine(OrdersAfter(Fold(log).orders, p, copy),
              Fold(log).evidence + [EvidenceOf(p, copy)])
    ensures WfLog(mid + [Created(o)]) && PaidIn(mid + [Created(o)]) == PaidIn(front + [Created(o)]) + [p]
    ensures CreatedIn(mid + [Created(o)]) == CreatedIn(front + [Created(o)])
  {
    hide Fold, WfLog, CreatedIn, PaidIn, OrdersAfter, EvidenceOf, FindByMemo;
    FoldAppend(front, Created(o));
    FoldAppend(mid, Created(o));
    CopyIsOlder(front, at, p);
    Commute(Fold(front).orders, p, FindByMemo(Fold(front[..at]).orders, p.memo), o);
  }

  /** The order a lookup found was created before it. */
  lemma {:induction false} CopyIsOlder(log: seq<Event>, at: nat, p: Payment)
    requires WfLog(log) && at <= |log|
    ensures var copy := FindByMemo(Fold(log[..at]).orders, p.memo); copy.Some? ==> copy.value.id in CreatedIn(log)
  {
    WfPrefix(log, at);
    ClosedForm(log[..at]);
    EvidenceCorresponds(log[..at]);
  }

  lemma {:induction false} Commute(orders: Orders, p: Payment, copy: Option<OrderIntent>, o: OrderIntent)
    requires copy.Some? ==> copy.value.id != o.id
    ensures OrdersAfter(orders, p, copy)[o.id := o] == OrdersAfter(orders[o.id := o], p, copy)
  {
    if copy.Some? && copy.value.id in orders {
      var id := copy.value.id;
      var (v, r) := Match(Observe(p), copy);
      var row := SetVerdict(orders[id], v, r);
      assert orders[id := row][o.id := o] == orders[o.id := o][id := row];
    }
  }

  // --- The refinement invariant ----------------------------------------------------------------

  /** The page is a stretch of the payment list, starting inside what was ingested. */
  ghost predicate PageAt(raw: seq<Record>, page: seq<Payment>, a: nat, n: nat) {
    a <= n && a + |page| <= |Payments(raw)| && page == Payments(raw)[a..a + |page|]
  }

  ghost predicate LookupOk(log: seq<Event>, r: Read, p: Payment) {
    OnlyCreatedSince(log, r.at) && FindByMemo(Fold(log[..r.at]).orders, p.memo) == StripCopy(r.order)
  }

  /** The database is the simple machine after the log. */
  ghost predicate MachineOk(db: Db, log: seq<Event>) {
    WfLog(log) && Fold(log) == Machine(StripAll(db.orders), db.evidence)
  }

  /** Evidence is exactly the first payments of the ledger, in order. */
  ghost predicate PrefixOk(raw: seq<Record>, evidence: seq<PaymentEvidence>, log: seq<Event>) {
    && |evidence| <= |Payments(raw)| && PaidIn(log) == Payments(raw)[..|evidence|]
    && forall j :: 0 <= j < |evidence| ==> evidence[j].opId == Payments(raw)[j].id
  }

  /** Every stream's cursor is the token of an ingested payment. */
  ghost predicate CursorsOk(raw: seq<Record>, cursors: map<string, nat>, n: nat) {
    forall st :: st in cursors ==> exists k: nat :: 0 < k <= n && StretchStart(raw, cursors[st], k)
  }

  ghost predicate WatcherOk(raw: seq<Record>, l: Local, log: seq<Event>, n: nat) {
    && (exists a: nat :: PageAt(raw, l.page, a, n))
    && (l.read.Some? ==> l.page != [] && LookupOk(log, l.read.value, l.page[0]))
  }

  ghost predicate SoloInv(s: State, w: string) {
    && s.watchers.Keys == {w} && LedgerOk(s.raw)
    && MachineOk(s.db, s.log) && PrefixOk(s.raw, s.db.evidence, s.log)
    && CursorsOk(s.raw, s.db.cursors, |s.db.evidence|)
    && WatcherOk(s.raw, s.watchers[w], s.log, |s.db.evidence|)
  }

  // --- Each step -----------------------------------------------------------------------------------

  /** A longer ledger keeps prefixes, cursors and pages. */
  lemma {:induction false} SoloAppend(s: State, w: string, r: Record)
    requires SoloInv(s, w) && Enabled(s, Append(r))
    ensures SoloInv(Next(s, Append(r)), w)
  {
    hide Payments, Fold, WfLog, PaidIn;
    var raw' := s.raw + [r];
    PaymentsAppend(s.raw, r);
    var l := s.watchers[w];
    var a: nat :| PageAt(s.raw, l.page, a, |s.db.evidence|);
    assert PageAt(raw', l.page, a, |s.db.evidence|);
    forall st | st in s.db.cursors ensures exists k: nat ::
      0 < k <= |s.db.evidence| && StretchStart(raw', s.db.cursors[st], k) {
      var k: nat :| 0 < k <= |s.db.evidence| && StretchStart(s.raw, s.db.cursors[st], k);
      assert StretchStart(raw', s.db.cursors[st], k);
    }
  }

  lemma {:induction false} KnownIds(db: Db, log: seq<Event>)
    requires MachineOk(db, log)
    ensures CreatedIn(log).Keys == db.orders.Keys
  {
    ClosedForm(log);
  }

  lemma {:induction false} LookupStands(log: seq<Event>, o: OrderIntent, r: Read, p: Payment)
    requires LookupOk(log, r, p)
    ensures LookupOk(log + [Created(o)], r, p)
  {
    assert (log + [Created(o)])[..r.at] == log[..r.at];
  }

  lemma {:induction false} StripCreated(orders: Orders, o: OrderIntent)
    requires OpeningRow(o)
    ensures StripAll(orders[o.id := o]) == StripAll(orders)[o.id := o]
  {}

  lemma {:induction false} SoloCreate(s: State, w: string, o: OrderIntent)
    requires SoloInv(s, w) && Enabled(s, Create(o))
    ensures SoloInv(Next(s, Create(o)), w)
  {
    hide Payments, Fold, WfLog, PaidIn, CreatedIn, PageAt, LookupOk, StripAll, LedgerOk, StretchStart;
    KnownIds(s.db, s.log);
    FoldAppend(s.log, Created(o));
    StripCreated(s.db.orders, o);
    var l := s.watchers[w];
    if l.read.Some? {
      LookupStands(s.log, o, l.read.value, l.page[0]);
    }
  }

  lemma {:induction false} SoloPoll(s: State, w: string, rewound: bool)
    requires SoloInv(s, w) && Enabled(s, Poll(w, rewound))
    ensures SoloInv(Next(s, Poll(w, rewound)), w)
  {
    hide Payments, Fold, WfLog, PaidIn, Page;
    var st := s.watchers[w].stream;
    var cursor := if rewound then 0 else Cursor(s.db, st);
    var k: nat :| k <= |s.db.evidence| && StretchStart(s.raw, cursor, k) by {
      if rewound || st !in s.db.cursors {
        assert StretchStart(s.raw, cursor, 0);
      }
    }
    PageIsStretch(s.raw, cursor, PAGE_LIMIT, k);
    assert PageAt(s.raw, Payments(Page(s.raw, cursor, PAGE_LIMIT)), k, |s.db.evidence|);
  }

  lemma {:induction false} SoloLookup(s: State, w: string)
    requires SoloInv(s, w) && Enabled(s, Lookup(w))
    ensures SoloInv(Next(s, Lookup(w)), w)
  {
    hide Payments, WfLog, PaidIn;
    var p := s.watchers[w].page[0];
    StripCommutes(s.db.orders, p, None);
    assert s.log[..|s.log|] == s.log;
    hide Fold;
    assert LookupOk(s.log, Read(FindByMemo(s.db.orders, p.memo), |s.log|), p);
  }

  lemma {:induction false} SoloReset(s: State, w: string, step: Step)
    requires SoloInv(s, w) && Enabled(s, step) && (step.Abort? || step.Crash?)
    ensures SoloInv(Next(s, step), w)
  {
    hide Payments, Fold, WfLog, PaidIn;
    assert PageAt(s.raw, [], 0, |s.db.evidence|);
  }

  /** The steps of writes and sweeps, and of the chain itself. */
  predicate Chainside(step: Step) {
    || step.Send? || step.Miss? || step.GiveUp? || step.Land? || step.Drop? || step.SaveHash? || step.EndWrite?
    || step.Sweep? || step.PassOver? || step.TryNext? || step.Attempt?
  }

  /** The hash column and the chain are invisible to the simple machine. */
  lemma {:induction false} SoloChain(s: State, w: string, step: Step)
    requires SoloInv(s, w) && Enabled(s, step)
    requires Chainside(step)
    ensures SoloInv(Next(s, step), w)
  {
    hide SoloInv;
    HashesOnly(s, step);
    hide Next, Enabled;
    SoloSame(s, Next(s, step), w);
  }

  /** Equal but for the chain, transaction hashes and retry counters. */
  ghost predicate SameIntake(s: State, t: State) {
    && t.raw == s.raw && t.log == s.log && t.db.evidence == s.db.evidence && t.db.cursors == s.db.cursors
    && StripAll(t.db.orders) == StripAll(s.db.orders) && t.watchers.Keys == s.watchers.Keys
    && forall w :: w in s.watchers ==>
       t.watchers[w].page == s.watchers[w].page && t.watchers[w].read == s.watchers[w].read
  }

  lemma {:induction false} HashesOnly(s: State, step: Step)
    requires Enabled(s, step)
    requires Chainside(step)
    ensures SameIntake(s, Next(s, step))
  {
    hide Permitted, LedgerOk, OpeningRow, CommitTx, StripAll, Contract.Accepts, Contract.Apply;
    forall id, tx | id in s.db.orders ensures StripAll(WithHash(s.db, id, tx).orders) == StripAll(s.db.orders) {
      HashStripped(s.db, id, tx);
    }
  }

  lemma {:induction false} HashStripped(db: Db, id: string, tx: TxHash)
    requires id in db.orders
    ensures StripAll(WithHash(db, id, tx).orders) == StripAll(db.orders)
  {}

  lemma {:induction false} SoloSame(s: State, t: State, w: string)
    requires SoloInv(s, w) && SameIntake(s, t)
    ensures SoloInv(t, w)
  {
    hide Payments, Fold, WfLog, PaidIn, PageAt, LookupOk, StripAll, LedgerOk;
  }

  /** The payment at the head of the page is either already ingested, at its own place, or the very next one. */
  lemma {:induction false} HeadPosition(s: State, w: string) returns (a: nat)
    requires SoloInv(s, w) && s.watchers[w].page != []
    ensures a <= |s.db.evidence| && PageAt(s.raw, s.watchers[w].page, a, |s.db.evidence|)
    ensures a < |Payments(s.raw)| && s.watchers[w].page[0] == Payments(s.raw)[a]
    ensures Seen(s.db.evidence, s.watchers[w].page[0].id) <==> a < |s.db.evidence|
  {
    hide Payments, Fold, WfLog, PaidIn;
    var l := s.watchers[w];
    a :| PageAt(s.raw, l.page, a, |s.db.evidence|);
    assert l.page[0] == Payments(s.raw)[a];
    if a < |s.db.evidence| {
      assert s.db.evidence[a].opId == l.page[0].id;
    } else {
      forall j | 0 <= j < |s.db.evidence| ensures s.db.evidence[j].opId != l.page[0].id {
        PaymentsDistinct(s.raw, j, a);
      }
    }
  }

  lemma {:induction false} LookupAt(s: State, w: string)
    requires SoloInv(s, w) && s.watchers[w].read.Some?
    ensures s.watchers[w].page != [] && LookupOk(s.log, s.watchers[w].read.value, s.watchers[w].page[0])
    ensures var r, p := s.watchers[w].read.value, s.watchers[w].page[0];
            OnlyCreatedSince(s.log, r.at) && FindByMemo(Fold(s.log[..r.at]).orders, p.memo) == StripCopy(r.order)
  {
    hide Payments, PaidIn, Fold, WfLog, PageAt;
  }

  /**
   * One commit: a payment seen before changes no order, no evidence and no event; a new one is the next
   * payment of the ledger, and the database takes exactly the step of the simple machine.
   */
  lemma {:induction false} CommitTakesNext(s: State, w: string)
    requires SoloInv(s, w) && Enabled(s, Commit(w))
    ensures var t, p, n := Next(s, Commit(w)), s.watchers[w].page[0], |s.db.evidence|;
            if Seen(s.db.evidence, p.id) then t.db.orders == s.db.orders && t.db.evidence == s.db.evidence
              && t.log == s.log
            else
              && n < |Payments(s.raw)| && p == Payments(s.raw)[n] && |t.db.evidence| == n + 1
              && MachineOk(t.db, t.log) && PaidIn(t.log) == PaidIn(s.log) + [p]
  {
    var a := HeadPosition(s, w);
    Steps.CommitMeans(s, w);
    hide Payments, PaidIn, PageAt, Committed, CreatedIn, LookupOk, StretchStart, LedgerOk, Next, Enabled, Logged;
    LookupAt(s, w);
    var l := s.watchers[w];
    var p, r := l.page[0], l.read.value;
    if !Seen(s.db.evidence, p.id) {
      Linearize(s.log, r.at, p);
      StripCommutes(s.db.orders, p, r.order);
      hide Fold, WfLog, OrdersAfter, EvidenceOf, FindByMemo;
    }
  }

  lemma {:induction false} SoloCommit(s: State, w: string)
    requires SoloInv(s, w) && Enabled(s, Commit(w))
    ensures SoloInv(Next(s, Commit(w)), w)
  {
    hide Payments, Fold, WfLog, PaidIn, OrdersAfter, EvidenceOf, FindByMemo, LookupOk, LedgerOk;
    var t := Next(s, Commit(w));
    var l := s.watchers[w];
    var a := HeadPosition(s, w);
    CommitTakesNext(s, w);
    EvidenceIds(l.page[0], l.read.value.order);
    var n := |t.db.evidence|;
    assert a + 1 <= n;
    assert PageAt(s.raw, l.page[1..], a + 1, n);
    assert StretchStart(s.raw, l.page[0].token, a + 1);
    forall st | st in t.db.cursors ensures exists k: nat :: 0 < k <= n && StretchStart(s.raw, t.db.cursors[st], k) {
      if st != l.stream {
        var k: nat :| 0 < k <= |s.db.evidence| && StretchStart(s.raw, s.db.cursors[st], k);
        assert 0 < k <= n && StretchStart(s.raw, t.db.cursors[st], k);
      }
    }
  }

  lemma {:induction false} EvidenceIds(p: Payment, copy: Option<OrderIntent>)
    ensures EvidenceOf(p, copy).opId == p.id
  {}

  lemma {:induction false} SoloStep(s: State, w: string, step: Step)
    requires SoloInv(s, w) && Enabled(s, step)
    ensures SoloInv(Next(s, step), w)
  {
    hide SoloInv, Next;
    OnlyWatcher(s, w, step);
    match step
    case Append(r) => SoloAppend(s, w, r);
    case Create(o) => SoloCreate(s, w, o);
    case Poll(_, rewound) => SoloPoll(s, w, rewound);
    case Lookup(_) => SoloLookup(s, w);
    case Commit(_) => SoloCommit(s, w);
    case Abort(_) => SoloReset(s, w, step);
    case Crash(_, _) => SoloReset(s, w, step);
    case _ => SoloChain(s, w, step);
  }

  lemma {:induction false} OnlyWatcher(s: State, w: string, step: Step)
    requires SoloInv(s, w) && Enabled(s, step)
    ensures step.Poll? || step.Lookup? || step.Commit? || step.Abort? || step.Crash? ==> step.w == w
  {}

  lemma {:induction false} SoloInit(w: string, stream: string)
    ensures SoloInv(Init(map[w := stream]), w)
  {
    var s := Init(map[w := stream]);
    assert PageAt(s.raw, [], 0, 0);
    assert StripAll(map[]) == map[];
  }

  lemma {:induction false} SoloRun(s: State, w: string, run: seq<Step>)
    requires SoloInv(s, w) && Legal(s, run)
    ensures SoloInv(Exec(s, run), w)
    decreases |run|
  {
    if run != [] {
      hide SoloInv, Next, Enabled;
      SoloStep(s, w, run[0]);
      SoloRun(Next(s, run[0]), w, run[1..]);
    }
  }

  /**
   * Exactly once, in ledger order: in every state one watcher can reach, the database is the simple
   * machine's after a log whose payments are a prefix of the ledger's, evidence is that prefix row by
   * row, and every stream's cursor lies inside it.
   */
  lemma {:induction false} ExactlyOnce(w: string, stream: string, s: State)
    requires Reachable(map[w := stream], s)
    ensures MachineOk(s.db, s.log) && PrefixOk(s.raw, s.db.evidence, s.log)
    ensures CursorsOk(s.raw, s.db.cursors, |s.db.evidence|)
  {
    var run :| Legal(Init(map[w := stream]), run) && Exec(Init(map[w := stream]), run) == s;
    SoloInit(w, stream);
    SoloRun(Init(map[w := stream]), w, run);
  }

  /** The row is the created one, or carries Terminal and Match of the deciding payment. */
  ghost predicate DecidedBy(row: OrderIntent, created: OrderIntent, first: Option<Payment>) {
    match first
    case None => Strip(row) == created
    case Some(p) =>
      var (v, r) := Match(Observe(p), Some(created));
      row.status == Terminal(v) && row.rejectReason == r && Opening(row) == Opening(created)
  }

  /**
   * With one watcher, an order's status and reason are Terminal and Match of the first payment in ledger
   * order that carries its memo and was looked up after the order was created; awaiting_payment without one.
   */
  lemma {:induction false} VerdictIsFirstPayment(w: string, stream: string, s: State, id: string)
    requires Reachable(map[w := stream], s) && id in s.db.orders
    ensures id in CreatedIn(s.log) && OpeningRow(CreatedIn(s.log)[id])
    ensures DecidedBy(s.db.orders[id], CreatedIn(s.log)[id], FirstPaid(s.log, id))
    ensures var first := FirstPaid(s.log, id);
            first.Some? ==>
              first.value.memo == id && |s.db.evidence| <= |Payments(s.raw)|
              && first.value in Payments(s.raw)[..|s.db.evidence|]
  {
    hide PageAt, LookupOk, Payments, Fold, WfLog, PaidIn, CreatedIn, FirstPaid, Match, OpeningRow, DecidedBy, Reachable;
    ExactlyOnce(w, stream, s);
    hide CursorsOk;
    RowIsSettledRow(s.db, s.log, id);
    if FirstPaid(s.log, id).Some? {
      FirstPaidMemo(s.log, id);
    }
  }

  lemma {:induction false} RowIsSettledRow(db: Db, log: seq<Event>, id: string)
    requires MachineOk(db, log) && id in db.orders
    ensures id in CreatedIn(log) && OpeningRow(CreatedIn(log)[id])
    ensures DecidedBy(db.orders[id], CreatedIn(log)[id], FirstPaid(log, id))
  {
    ClosedForm(log);
    CreatedRows(log);
    hide Fold, CreatedIn, WfLog, OpeningRow, FirstPaid, Match;
    var row := Strip(db.orders[id]);
    assert StripAll(db.orders)[id] == row;
    assert row == SettledRow(log, id);
    assert row.status == db.orders[id].status && row.rejectReason == db.orders[id].rejectReason
      && Opening(row) == Opening(db.orders[id]);
  }

  lemma {:induction false} FirstPaidMemo(log: seq<Event>, id: string)
    requires FirstPaid(log, id).Some?
    ensures FirstPaid(log, id).value.memo == id && FirstPaid(log, id).value in PaidIn(log)
  {
    if FirstPaid(log[..|log| - 1], id).Some? {
      FirstPaidMemo(log[..|log| - 1], id);
    }
  }

  /** With one watcher, settled orders and judged evidence rows correspond one to one. */
  lemma {:induction false} OneRowPerSettledOrder(w: string, stream: string, s: State)
    requires Reachable(map[w := stream], s)
    ensures Corresponds(Machine(StripAll(s.db.orders), s.db.evidence))
  {
    ExactlyOnce(w, stream, s);
    EvidenceCorresponds(s.log);
  }

  /** The evidence is a prefix of the ledger's payments, and settled orders and judged rows correspond. */
  ghost predicate OnePass(raw: seq<Record>, db: Db) {
    && |db.evidence| <= |Payments(raw)|
    && (forall j :: 0 <= j < |db.evidence| ==> db.evidence[j].opId == Payments(raw)[j].id)
    && Corresponds(Machine(StripAll(db.orders), db.evidence))
  }

  lemma {:induction false} SoloOnePass(w: string, stream: string, s: State)
    requires Reachable(map[w := stream], s)
    ensures OnePass(s.raw, s.db)
  {
    ExactlyOnce(w, stream, s);
    OneRowPerSettledOrder(w, stream, s);
  }

  /** With nothing pending behind its cursor, the one watcher has the whole ledger in evidence. */
  lemma {:induction false} CaughtUp(w: string, stream: string, s: State)
    requires Reachable(map[w := stream], s) && Pending(s.raw, Cursor(s.db, stream)) == 0
    ensures |s.db.evidence| == |Payments(s.raw)|
  {
    hide Payments, Pending, MachineOk, Reachable, LedgerOk;
    ExactlyOnce(w, stream, s);
    SoloLedger(w, stream, s);
    var cursor := Cursor(s.db, stream);
    if stream in s.db.cursors {
      var k: nat :| 0 < k <= |s.db.evidence| && StretchStart(s.raw, cursor, k);
      NothingAhead(s.raw, cursor, k);
    } else {
      NothingAhead(s.raw, cursor, 0);
    }
  }

  lemma {:induction false} SoloLedger(w: string, stream: string, s: State)
    requires Reachable(map[w := stream], s)
    ensures LedgerOk(s.raw)
  {
    hide LedgerOk;
    Steps.ReachableSafe(map[w := stream], s);
  }

  /** A cursor with k payments behind it and none ahead: there are k in all. */
  lemma {:induction false} NothingAhead(raw: seq<Record>, cursor: nat, k: nat)
    requires LedgerOk(raw) && StretchStart(raw, cursor, k) && Pending(raw, cursor) == 0
    ensures |Payments(raw)| == k
  {
    hide Payments, Covered, LedgerOk, StretchStart;
    StretchLength(raw, cursor, k);
    var c := Covered(raw, cursor);
    assert raw == raw[..c] + raw[c..];
    PaymentsConcat(raw[..c], raw[c..]);
  }
}
