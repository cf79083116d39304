/**
 * The reconciliation protocol as a labelled transition system: the ledger, the database, any number
 * of watchers, and the contract with the transactions still in flight.
 *
 * A database transaction is two steps, the lookup of the order and the commit, so that another
 * watcher or a new order may come between them. A watcher writes one order to the chain at a time:
 * the one it just settled, or the next one its sweep found, each with the three calls in order and
 * one wait at a time. A call may be sent or not, and once sent it may land at any time, in any order
 * with others, or never; only the watcher that waits for it can be told of it.
 *
 * A sweep is one step for its query and a few for each row, so that what a process tries may have got
 * its hash from another one since the query.
 */
module Protocol {
  import opened Wrappers
  import opened Instruction
  import opened Models
  import opened Backlog
  import opened Horizon
  import opened Ingest
  import opened ScVal
  import Contract
  import Strkey

  /** The looked-up order, and the length of the event log at the lookup (history). */
  datatype Read = Read(order: Option<OrderIntent>, at: nat)

  /**
   * The write of one order to the chain: how many of its three calls were made or missed, and whether a sweep
   * made it.
   */
  datatype Job = Job(id: string, stage: nat, retry: bool)

  /**
   * One watcher process: its stream, the rest of its page, the transaction it is in, whether its last poll
   * read less than a page; the rows its sweep has yet to come to, and how many it tried; the order it is
   * writing and the call it waits for; its retry counters; and, as history since its start, the sweep
   * attempts and the acknowledged orders.
   */
  datatype Local = Local(
    stream: string,
    page: seq<Payment>,
    read: Option<Read>,
    caught: bool,
    todo: seq<string>,
    done: nat,
    job: Option<Job>,
    wait: Option<TxHash>,
    failed: map<string, nat>,
    attempts: map<string, nat>,
    acks: set<string>)

  /** The registry, and transactions by hash: those in flight and those that succeeded. */
  datatype Chain = Chain(
    store: Contract.Store,
    inflight: map<TxHash, Contract.Call>,
    succeeded: map<TxHash, Contract.Call>,
    next: TxHash)

  /** What the simple machine of Settlement folds: orders created and payments taken. */
  datatype Event = Created(order: OrderIntent) | Paid(payment: Payment)

  datatype State = State(
    raw: seq<Record>,
    db: Db,
    watchers: map<string, Local>,
    chain: Chain,
    acked: set<TxHash>,
    log: seq<Event>)

  /**
   * Send makes the next call of the write at hand and Miss leaves it out, as when it is refused before it is
   * sent. The wait for a call ends with SaveHash or Attempt, when the watcher is told that its verdict landed
   * and the hash is then saved or, if the statement fails, not; or with GiveUp, for any other outcome and for
   * calls whose outcome nobody looks at; or with Crash. EndWrite and Attempt end a write that failed.
   */
  datatype Step =
    | Append(r: Record)
    | Create(order: OrderIntent)
    | Poll(w: string, rewound: bool)
    | Lookup(w: string)
    | Commit(w: string)
    | Abort(w: string)
    | Crash(w: string, stream: string)
    | Send(w: string)
    | Miss(w: string)
    | GiveUp(w: string)
    | Land(tx: TxHash)
    | Drop(tx: TxHash)
    | SaveHash(w: string, saved: bool)
    | EndWrite(w: string)
    | Sweep(w: string, rows: seq<OrderIntent>)
    | PassOver(w: string)
    | TryNext(w: string)
    | Attempt(w: string, ack: Option<TxHash>, saved: bool)

  /** How many records a poll asks for. */
  const PAGE_LIMIT: nat := 200

  const CALLS: nat := 3

  const EMPTY_CHAIN := Chain(map[], map[], map[], 0)

  function Booted(stream: string): Local {
    Local(stream, [], None, false, [], 0, None, None, map[], map[], {})
  }

  /** An empty world with one watcher process for each name. */
  function Init(streams: map<string, string>): State {
    State([], EMPTY_DB, map w | w in streams :: Booted(streams[w]), EMPTY_CHAIN, {}, [])
  }

  /** The three calls writeChain makes for an order. */
  function OpenCall(o: OrderIntent): Contract.Call {
    Contract.CreateCall(o.id, o.buyerWallet, ChainStroops(o.expectedAmount), o.assetCode, Contract.Sha256(o.memo))
  }

  function DetectCall(id: string): Contract.Call { Contract.StatusCall(id, Contract.PaymentDetected) }

  predicate Judged(o: OrderIntent) { OrderFinal(o.status) && Sendable(o.status, o.rejectReason) }

  function VerdictCall(o: OrderIntent): Contract.Call
    requires Judged(o)
  {
    Contract.StatusCall(o.id, ChainStatus(o.status, o.rejectReason))
  }

  predicate IsVerdictCall(orders: Orders, c: Contract.Call) {
    c.id in orders && Judged(orders[c.id]) && c == VerdictCall(orders[c.id])
  }

  /**
   * A call some watcher may send: one of the three, for an order with a committed verdict. The client registers no
   * order whose wallet it cannot decode.
   */
  predicate Permitted(orders: Orders, c: Contract.Call) {
    && c.id in orders && Judged(orders[c.id])
    && ((c == OpenCall(orders[c.id]) && Strkey.Decodes(orders[c.id].buyerWallet))
        || c == DetectCall(c.id) || c == VerdictCall(orders[c.id]))
  }

  /** An acknowledgement not yet consumed: a verdict call that succeeded and whose sender was told so. */
  predicate FreshAck(s: State, tx: TxHash) {
    tx in s.chain.succeeded && tx !in s.acked && IsVerdictCall(s.db.orders, s.chain.succeeded[tx])
  }

  function Cursor(db: Db, stream: string): nat { if stream in db.cursors then db.cursors[stream] else 0 }

  /** The call a write makes at its present stage. */
  function NextCall(orders: Orders, job: Job): Contract.Call
    requires job.id in orders && Judged(orders[job.id])
  {
    if job.stage == 0 then OpenCall(orders[job.id])
    else if job.stage == 1 then DetectCall(job.id)
    else VerdictCall(orders[job.id])
  }

  predicate Writing(s: State, w: string) { w in s.watchers && s.watchers[w].job.Some? }

  /** A sweep ends with its rows, or at the first one it would try beyond its five. */
  predicate SweepOver(l: Local) { l.todo == [] || (l.done >= BATCH && !Exhausted(l.failed, l.todo[0])) }

  /** At a point where the process may poll or sweep. */
  predicate Resting(s: State, w: string) {
    w in s.watchers && s.watchers[w].page == [] && s.watchers[w].read == None && s.watchers[w].job == None
    && SweepOver(s.watchers[w])
  }

  ghost predicate Enabled(s: State, step: Step) {
    match step
    case Append(r) => LedgerOk(s.raw + [r])
    case Create(o) => o.id !in s.db.orders && OpeningRow(o)
    case Poll(w, _) => Resting(s, w)
    case Lookup(w) => w in s.watchers && s.watchers[w].page != [] && s.watchers[w].read == None
      && s.watchers[w].job == None
    case Commit(w) => w in s.watchers && s.watchers[w].page != [] && s.watchers[w].read.Some?
      && s.watchers[w].job == None
    case Abort(w) => w in s.watchers && s.watchers[w].job == None
    case Crash(w, _) => w in s.watchers
    case Send(w) =>
      && Writing(s, w) && s.watchers[w].wait == None && s.watchers[w].job.value.stage < CALLS
      && var job := s.watchers[w].job.value;
         job.id in s.db.orders && Judged(s.db.orders[job.id]) && Permitted(s.db.orders, NextCall(s.db.orders, job))
    case Miss(w) => Writing(s, w) && s.watchers[w].wait == None && s.watchers[w].job.value.stage < CALLS
    case GiveUp(w) => Writing(s, w)
    case Land(tx) => tx in s.chain.inflight
    case Drop(tx) => tx in s.chain.inflight
    case SaveHash(w, _) =>
      Writing(s, w) && !s.watchers[w].job.value.retry && s.watchers[w].wait.Some?
        && FreshAck(s, s.watchers[w].wait.value)
    case EndWrite(w) =>
      && Writing(s, w) && !s.watchers[w].job.value.retry && s.watchers[w].wait == None
      && (s.watchers[w].job.value.stage == 0 || s.watchers[w].job.value.stage == CALLS)
    case Sweep(w, rows) => Resting(s, w) && s.watchers[w].caught && IsSweepQuery(s.db.orders, rows)
    case PassOver(w) =>
      && w in s.watchers && s.watchers[w].job == None && s.watchers[w].todo != []
      && Exhausted(s.watchers[w].failed, s.watchers[w].todo[0])
    case TryNext(w) =>
      && w in s.watchers && s.watchers[w].job == None && s.watchers[w].todo != [] && s.watchers[w].done < BATCH
      && !Exhausted(s.watchers[w].failed, s.watchers[w].todo[0])
    case Attempt(w, ack, _) =>
      && Writing(s, w) && s.watchers[w].job.value.retry && s.watchers[w].wait == ack
      && if ack.Some? then FreshAck(s, ack.value) && s.chain.succeeded[ack.value].id == s.watchers[w].job.value.id
         else s.watchers[w].job.value.stage == CALLS
  }

  function WithHash(db: Db, id: string, tx: TxHash): Db
    requires id in db.orders
  {
    db.(orders := db.orders[id := db.orders[id].(onChainTxHash := Some(tx))])
  }

  function Landed(c: Chain, tx: TxHash): Chain
    requires tx in c.inflight
  {
    var call := c.inflight[tx];
    Chain(Contract.Apply(c.store, call), c.inflight - {tx},
          if Contract.Accepts(c.store, call) then c.succeeded[tx := call] else c.succeeded, c.next)
  }

  /** A committed payment takes its place in the log at its lookup. */
  function Logged(log: seq<Event>, at: nat, p: Payment): seq<Event> {
    if at <= |log| then log[..at] + [Paid(p)] + log[at..] else log + [Paid(p)]
  }

  /** The same state, but for one watcher. */
  function With(s: State, w: string, l: Local): State { s.(watchers := s.watchers[w := l]) }

  /** The same state, but for how far watcher w is with its write, and what it waits for. */
  function At(s: State, w: string, job: Option<Job>, wait: Option<TxHash>): State
    requires w in s.watchers
  {
    With(s, w, s.watchers[w].(job := job, wait := wait))
  }

  /** The next stage of the write of w, waiting for what was sent, if it was. */
  function Advanced(s: State, w: string, wait: Option<TxHash>): State
    requires Writing(s, w)
  {
    At(s, w, Some(s.watchers[w].job.value.(stage := s.watchers[w].job.value.stage + 1)), wait)
  }

  function Sent(c: Chain, call: Contract.Call): Chain {
    c.(inflight := c.inflight[c.next := call], next := c.next + 1)
  }

  /** The counters after one sweep attempt on id. */
  function Counted(l: Local, id: string, ack: bool): Local {
    l.(job := None,
       wait := None,
       attempts := l.attempts[id := Count(l.attempts, id) + 1],
       failed := if ack then l.failed - {id} else l.failed[id := Count(l.failed, id) + 1],
       acks := if ack then l.acks + {id} else l.acks)
  }

  /** A process that settles an order goes on to write it. */
  function Committed(db: Db, l: Local): Local
    requires l.page != [] && l.read.Some?
  {
    var p, copy := l.page[0], l.read.value.order;
    l.(page := l.page[1..], read := None,
       job := if !Seen(db.evidence, p.id)
         && Settles(db.orders, p, copy) then Some(Job(copy.value.id, 0, false)) else None)
  }

  ghost function Next(s: State, step: Step): State
    requires Enabled(s, step)
  {
    match step
    case Append(r) => s.(raw := s.raw + [r])
    case Create(o) => s.(db := s.db.(orders := s.db.orders[o.id := o]), log := s.log + [Created(o)])
    case Poll(w, rewound) =>
      var page := Payments(Page(s.raw, if rewound then 0 else Cursor(s.db, s.watchers[w].stream), PAGE_LIMIT));
      With(s, w, s.watchers[w].(page := page, caught := |page| < PAGE_LIMIT, todo := []))
    case Lookup(w) =>
      var l := s.watchers[w];
      With(s, w, l.(read := Some(Read(FindByMemo(s.db.orders, l.page[0].memo), |s.log|))))
    case Commit(w) =>
      var l := s.watchers[w];
      var p := l.page[0];
      With(s, w, Committed(s.db, l))
        .(db := CommitTx(s.db, p, l.read.value.order, l.stream),
          log := if Seen(s.db.evidence, p.id) then s.log else Logged(s.log, l.read.value.at, p))
    case Abort(w) => With(s, w, s.watchers[w].(page := [], read := None, caught := false))
    case Crash(w, stream) => With(s, w, Booted(stream))
    case Send(w) => Advanced(s, w,
      Some(s.chain.next)).(chain := Sent(s.chain, NextCall(s.db.orders, s.watchers[w].job.value)))
    case Miss(w) => Advanced(s, w, None)
    case GiveUp(w) => At(s, w, s.watchers[w].job, None)
    case Land(tx) => s.(chain := Landed(s.chain, tx))
    case Drop(tx) => s.(chain := s.chain.(inflight := s.chain.inflight - {tx}))
    case SaveHash(w, saved) =>
      var tx := s.watchers[w].wait.value;
      At(s, w, None, None)
        .(db := if saved then WithHash(s.db, s.chain.succeeded[tx].id, tx) else s.db, acked := s.acked + {tx})
    case EndWrite(w) => At(s, w, None, None)
    case Sweep(w, rows) => With(s, w, s.watchers[w].(todo := Ids(rows), done := 0, caught := false))
    case PassOver(w) => With(s, w, s.watchers[w].(todo := s.watchers[w].todo[1..]))
    case TryNext(w) =>
      var l := s.watchers[w];
      With(s, w, l.(todo := l.todo[1..], done := l.done + 1, job := Some(Job(l.todo[0], 0, true))))
    case Attempt(w, ack, saved) =>
      var id := s.watchers[w].job.value.id;
      With(s, w, Counted(s.watchers[w], id, ack.Some?))
        .(db := if ack.Some? && saved then WithHash(s.db, id, ack.value) else s.db,
          acked := if ack.Some? then s.acked + {ack.value} else s.acked)
  }

  // --- Runs ---------------------------------------------------------------------------

  ghost predicate Legal(s: State, run: seq<Step>)
    decreases |run|
  {
    run == [] || (Enabled(s, run[0]) && Legal(Next(s, run[0]), run[1..]))
  }

  ghost function Exec(s: State, run: seq<Step>): State
    requires Legal(s, run)
    decreases |run|
  {
    if run == [] then s else Exec(Next(s, run[0]), run[1..])
  }

  /** Some run from an empty world with these watchers ends in s. */
  ghost predicate Reachable(streams: map<string, string>, s: State) {
    exists run :: Legal(Init(streams), run) && Exec(Init(streams), run) == s
  }

  lemma {:induction false} ExecConcat(s: State, a: seq<Step>, b: seq<Step>)
    requires Legal(s, a) && Legal(Exec(s, a), b)
    ensures Legal(s, a + b) && Exec(s, a + b) == Exec(Exec(s, a), b)
    decreases |a|
  {
    if a == [] {
      assert a + b == b;
    } else {
      assert (a + b)[0] == a[0] && (a + b)[1..] == a[1..] + b;
      ExecConcat(Next(s, a[0]), a[1..], b);
    }
  }

  lemma {:induction false} ReachInit(streams: map<string, string>)
    ensures Reachable(streams, Init(streams))
  {
    assert Legal(Init(streams), []) && Exec(Init(streams), []) == Init(streams);
  }

  lemma {:induction false} ReachStep(streams: map<string, string>, s: State, step: Step)
    requires Reachable(streams, s) && Enabled(s, step)
    ensures Reachable(streams, Next(s, step))
  {
    var run :| Legal(Init(streams), run) && Exec(Init(streams), run) == s;
    assert Legal(Next(s, step), []);
    assert Legal(s, [step]) && Exec(s, [step]) == Next(s, step);
    ExecConcat(Init(streams), run, [step]);
    assert Exec(Init(streams), run + [step]) == Next(s, step);
  }
}
