/** Every step keeps the invariant of Safety and only lets the state grow. */
module Steps {
  import opened Wrappers
  import opened Models
  import opened Backlog
  import opened Matcher
  import opened Horizon
  import opened Ingest
  import opened Protocol
  import opened Safety
  import Contract
  import Strkey

  // --- What a step does to the watchers, part by part ------------------------------------------

  /** The watcher that takes the step, if one does. */
  function Actor(step: Step): Option<string> {
    if step.Append? || step.Create? || step.Land? || step.Drop? then None else Some(step.w)
  }

  lemma {:induction false} ActorOnly(s: State, step: Step)
    requires Enabled(s, step)
    ensures Next(s, step).watchers.Keys == s.watchers.Keys
    ensures forall v :: v in s.watchers && Actor(step) != Some(v) ==> Next(s, step).watchers[v] == s.watchers[v]
    ensures Actor(step).Some? ==> Actor(step).value in s.watchers
  {
    if Actor(step).Some? {
      ActorMoves(s, step, Actor(step).value);
    } else {
      NobodyMoves(s, step);
    }
    hide Next, Enabled;
  }

  lemma {:induction false} NobodyMoves(s: State, step: Step)
    requires Enabled(s, step) && Actor(step) == None
    ensures Next(s, step).watchers == s.watchers
  {
    hide LedgerOk, OpeningRow, Landed;
  }

  lemma {:induction false} ActorMoves(s: State, step: Step, w: string)
    requires Enabled(s, step) && Actor(step) == Some(w)
    ensures w in s.watchers && w in Next(s, step).watchers
    ensures Next(s, step).watchers == s.watchers[w := Next(s, step).watchers[w]]
  {
    hide CommitTx, LedgerOk, OpeningRow, Payments, Page, FindByMemo, IsSweepQuery, Permitted, FreshAck, WithHash,
      Landed, Committed,
      Counted, SweepOver, Exhausted, NextCall, Judged;
  }

  /** A wait starts with a call sent, stays with its write, or ends. */
  ghost predicate WaitMoves(s: State, step: Step, l: Local, m: Local) {
    || m.wait == None
       || (step.Send? && m.wait == Some(s.chain.next) && l.job.Some? && m.job.Some? && m.job.value.id == l.job.value.id)
    || (m.wait == l.wait && (l.job.Some? ==> m.job == l.job))
  }

  lemma {:induction false} WaitMove(s: State, step: Step, w: string)
    requires Enabled(s, step) && Actor(step) == Some(w)
    ensures w in s.watchers && w in Next(s, step).watchers
      && WaitMoves(s, step, s.watchers[w], Next(s, step).watchers[w])
  {
    hide CommitTx, LedgerOk, OpeningRow, Payments, Page, FindByMemo, IsSweepQuery, Permitted, FreshAck, WithHash,
      Landed, Settles, Seen,
      SweepOver, Exhausted, NextCall, Judged;
  }

  /** What a sweep has yet to come to is cleared, found, passed over, tried or counted, or stays. */
  ghost predicate WorkMoves(step: Step, l: Local, m: Local) {
    || (m.todo == l.todo && m.done == l.done && m.failed == l.failed)
    || m.todo == []
    || (step.Sweep? && m.todo == Ids(step.rows))
    || (l.todo != [] && m.todo == l.todo[1..] && m.failed == l.failed
        && m.done == l.done + if Exhausted(l.failed, l.todo[0]) then 0 else 1)
    || (l.job.Some? && l.job.value.retry && m.todo == l.todo && m.done == l.done
        && forall k :: k != l.job.value.id ==> Count(m.failed, k) == Count(l.failed, k))
  }

  lemma {:induction false} WorkMove(s: State, step: Step, w: string)
    requires Enabled(s, step) && Actor(step) == Some(w)
    ensures w in s.watchers && w in Next(s, step).watchers && WorkMoves(step, s.watchers[w], Next(s, step).watchers[w])
  {
    hide CommitTx, LedgerOk, OpeningRow, Payments, Page, FindByMemo, IsSweepQuery, Permitted, FreshAck, WithHash,
      Landed, Settles, Seen,
      SweepOver, NextCall, Judged;
  }

  /** Only sending, landing and losing a call move the chain. */
  lemma {:induction false} ChainMove(s: State, step: Step)
    requires Enabled(s, step) && !step.Send? && !step.Land? && !step.Drop?
    ensures Next(s, step).chain == s.chain
  {
    hide CommitTx, LedgerOk, OpeningRow, Payments, Page, FindByMemo, IsSweepQuery, FreshAck, WithHash, Committed,
      Counted, SweepOver,
      Exhausted;
  }

  /** And only an acknowledgement is used up. */
  lemma {:induction false} AckedMove(s: State, step: Step)
    requires Enabled(s, step) && !step.SaveHash? && !step.Attempt?
    ensures Next(s, step).acked == s.acked
  {
    hide CommitTx, LedgerOk, OpeningRow, Payments, Page, FindByMemo, IsSweepQuery, Permitted, Landed, Committed,
      SweepOver, Exhausted,
      NextCall, Judged;
  }

  lemma {:induction false} SendMeans(s: State, v: string)
    requires Enabled(s, Send(v))
    ensures var t, l := Next(s, Send(v)), s.watchers[v];
            && Writing(s, v) && l.wait == None && l.job.value.stage < CALLS && l.job.value.id in s.db.orders
            && Judged(s.db.orders[l.job.value.id]) && Permitted(s.db.orders, NextCall(s.db.orders, l.job.value))
            && t.db == s.db && t.acked == s.acked && t.chain == Sent(s.chain, NextCall(s.db.orders, l.job.value))
            && t.chain.store == s.chain.store && t.chain.succeeded == s.chain.succeeded
            && t.watchers == s.watchers[v :=
               l.(job := Some(l.job.value.(stage := l.job.value.stage + 1)), wait := Some(s.chain.next))]
  {
    hide Permitted, NextCall;
  }

  lemma {:induction false} LandMeans(s: State, tx: TxHash)
    requires Enabled(s, Land(tx))
    ensures tx in s.chain.inflight
    ensures var t := Next(s, Land(tx));
      t.db == s.db && t.watchers == s.watchers && t.acked == s.acked && t.chain == Landed(s.chain, tx)
  {
    hide Landed;
  }

  lemma {:induction false} CommitMeans(s: State, w: string)
    requires Enabled(s, Commit(w))
    ensures w in s.watchers && s.watchers[w].page != [] && s.watchers[w].read.Some?
    ensures var t, l := Next(s, Commit(w)), s.watchers[w];
            && t.raw == s.raw && t.db == CommitTx(s.db, l.page[0], l.read.value.order, l.stream)
            && t.watchers == s.watchers[w := Committed(s.db, l)]
            && t.log == if Seen(s.db.evidence, l.page[0].id) then s.log else Logged(s.log, l.read.value.at, l.page[0])
  {
    hide CommitTx, Committed, Seen, Logged;
  }

  /** A sweep attempt ended: counted, and with its acknowledgement, if any, consumed and saved or not. */
  ghost predicate Attempted(s: State, t: State, w: string, ack: Option<TxHash>, saved: bool) {
    && Writing(s, w) && s.watchers[w].job.value.retry && t.raw == s.raw && t.chain == s.chain
    && var id := s.watchers[w].job.value.id;
       && t.watchers == s.watchers[w := Counted(s.watchers[w], id, ack.Some?)]
       && (ack.Some? ==> FreshAck(s, ack.value) && s.chain.succeeded[ack.value].id == id && id in s.db.orders)
       && t.acked == (if ack.Some? then s.acked + {ack.value} else s.acked)
       && t.db == (if ack.Some? && saved then WithHash(s.db, id, ack.value) else s.db)
  }

  lemma {:induction false} AttemptMeans(s: State, w: string, ack: Option<TxHash>, saved: bool)
    requires Enabled(s, Attempt(w, ack, saved))
    ensures Attempted(s, Next(s, Attempt(w, ack, saved)), w, ack, saved)
  {
    hide Counted;
  }

  // --- The steps ---------------------------------------------------------------------------------

  lemma {:induction false} AppendStep(s: State, r: Record)
    requires Enabled(s, Append(r)) && Inv(s)
    ensures Inv(Next(s, Append(r))) && Grows(s, Next(s, Append(r)))
  {
    var t := Next(s, Append(r));
    PaymentsAppend(s.raw, r);
    EvidenceFrame(s.raw, t.raw, s.db.orders, t.db.orders, s.db.evidence);
    forall w | w in t.watchers ensures LocalOk(t.raw, t.db.orders, t.watchers[w]) {
      LocalFrame(s.raw, t.raw, s.db.orders, t.db.orders, s.watchers[w]);
    }
  }

  lemma {:induction false} CreateStep(s: State, o: OrderIntent)
    requires Enabled(s, Create(o)) && Inv(s)
    ensures Inv(Next(s, Create(o))) && Grows(s, Next(s, Create(o)))
  {
    hide EvidenceOk, SettledOk, LocalOk, StoreOk, CallsOk, HashOk, OnceOk, CountersOk;
    var t := Next(s, Create(o));
    var a, b := s.db.orders, t.db.orders;
    EvidenceFrame(s.raw, t.raw, a, b, s.db.evidence);
    SettledFrame(a, b, s.db.evidence, t.db.evidence);
    forall w | w in t.watchers ensures LocalOk(t.raw, b, t.watchers[w]) {
      LocalFrame(s.raw, t.raw, a, b, s.watchers[w]);
    }
    StoreFrame(a, b, s.chain);
    HashFrame(a, b, s.chain, s.acked);
    forall w, id | w in t.watchers ensures CountersOk(b, t.chain, t.acked, t.watchers[w], id) {
      CountersFrame(a, b, s.chain, t.chain, s.acked, t.acked, s.watchers[w], id);
    }
  }

  lemma {:induction false} PageFromLedger(raw: seq<Record>, cursor: nat, limit: nat)
    ensures forall p :: p in Payments(Page(raw, cursor, limit)) ==> p in Payments(raw)
  {
    StretchOf(raw, Covered(raw, cursor), PageEnd(raw, cursor, limit));
  }

  /** A row just looked up by memo is the current row of the order with that id. */
  lemma {:induction false} FoundCopyOk(orders: Orders, p: Payment)
    requires OrdersOk(orders)
    ensures CopyOk(orders, p, FindByMemo(orders, p.memo))
    ensures forall id :: id in orders && orders[id].memo == p.memo && p.memo != "" ==>
      FindByMemo(orders, p.memo) == Some(orders[id])
  {}

  /** What a watcher does alone keeps the invariant if its own part stays well-formed. */
  lemma {:induction false} LocalStep(s: State, t: State, w: string, l: Local)
    requires Inv(s) && w in s.watchers && t == s.(watchers := s.watchers[w := l])
    requires LocalOk(s.raw, s.db.orders, l)
    requires forall id :: CountersOk(s.db.orders, s.chain, s.acked, l, id)
    ensures Inv(t) && Grows(s, t)
  {
    hide EvidenceOk, SettledOk, LocalOk, StoreOk, CallsOk, OnceOk, HashOk, RowOk, CountersOk;
    forall v, id | v in t.watchers ensures CountersOk(t.db.orders, t.chain, t.acked, t.watchers[v], id) {
      assert CountersOk(s.db.orders, s.chain, s.acked, s.watchers[v], id);
    }
  }

  /** A watcher that neither counts nor takes on a try keeps the invariant, if its own part stays well-formed. */
  lemma {:induction false} QuietStep(s: State, w: string, l: Local)
    requires Inv(s) && w in s.watchers && LocalOk(s.raw, s.db.orders, l)
    requires var m := s.watchers[w]; l.failed == m.failed && l.attempts == m.attempts && l.acks == m.acks
    requires forall id :: id in l.todo ==> id in s.watchers[w].todo
    requires forall id :: Trying(l, id) ==> Trying(s.watchers[w], id)
    ensures Inv(With(s, w, l)) && Grows(s, With(s, w, l))
  {
    hide EvidenceOk, SettledOk, LocalOk, StoreOk, CallsOk, OnceOk, HashOk, RowOk, CountersOk, Grows;
    forall id ensures CountersOk(s.db.orders, s.chain, s.acked, l, id) {
      SameCounters(s.db.orders, s.chain, s.acked, s.watchers[w], l, id);
    }
    hide Inv;
    LocalStep(s, With(s, w, l), w, l);
  }

  lemma {:induction false} PollStep(s: State, w: string, rewound: bool)
    requires Enabled(s, Poll(w, rewound)) && Inv(s)
    ensures Inv(Next(s, Poll(w, rewound))) && Grows(s, Next(s, Poll(w, rewound)))
  {
    hide EvidenceOk, SettledOk, StoreOk, CallsOk, OnceOk, HashOk, CountersOk, RowOk, CopyOk, Grows, Page, Payments;
    var cursor := if rewound then 0 else Cursor(s.db, s.watchers[w].stream);
    PageFromLedger(s.raw, cursor, PAGE_LIMIT);
    var l := Next(s, Poll(w, rewound)).watchers[w];
    assert LocalOk(s.raw, s.db.orders, s.watchers[w]);
    hide Inv;
    QuietStep(s, w, l);
  }

  lemma {:induction false} LookupStep(s: State, w: string)
    requires Enabled(s, Lookup(w)) && Inv(s)
    ensures Inv(Next(s, Lookup(w))) && Grows(s, Next(s, Lookup(w)))
  {
    hide EvidenceOk, SettledOk, StoreOk, CallsOk, OnceOk, HashOk, CountersOk, RowOk, CopyOk, Grows, FindByMemo;
    FoundCopyOk(s.db.orders, s.watchers[w].page[0]);
    var l := Next(s, Lookup(w)).watchers[w];
    assert LocalOk(s.raw, s.db.orders, l);
    hide Inv;
    QuietStep(s, w, l);
  }

  lemma {:induction false} AbortStep(s: State, w: string)
    requires Enabled(s, Abort(w)) && Inv(s)
    ensures Inv(Next(s, Abort(w))) && Grows(s, Next(s, Abort(w)))
  {
    hide EvidenceOk, SettledOk, StoreOk, CallsOk, OnceOk, HashOk, CountersOk, RowOk, CopyOk, Grows;
    var l := Next(s, Abort(w)).watchers[w];
    assert LocalOk(s.raw, s.db.orders, l);
    hide Inv;
    QuietStep(s, w, l);
  }

  /** A restarted process has nothing at hand and has counted nothing. */
  lemma {:induction false} CrashStep(s: State, w: string, stream: string)
    requires Enabled(s, Crash(w, stream)) && Inv(s)
    ensures Inv(Next(s, Crash(w, stream))) && Grows(s, Next(s, Crash(w, stream)))
  {
    hide Inv, Grows;
    LocalStep(s, Next(s, Crash(w, stream)), w, Booted(stream));
  }

  /** What a sweep query found is unsynced, so an acknowledged order in it still lacks its hash. */
  lemma {:induction false} SweepStep(s: State, w: string, rows: seq<OrderIntent>)
    requires Enabled(s, Sweep(w, rows)) && Inv(s)
    ensures Inv(Next(s, Sweep(w, rows))) && Grows(s, Next(s, Sweep(w, rows)))
  {
    hide EvidenceOk, SettledOk, StoreOk, CallsOk, OnceOk, HashOk, RowOk, CopyOk, Grows;
    var l := Next(s, Sweep(w, rows)).watchers[w];
    assert forall i :: 0 <= i < |rows| ==> Unsynced(s.db.orders, rows[i].id);
    assert LocalOk(s.raw, s.db.orders, l);
    forall id ensures CountersOk(s.db.orders, s.chain, s.acked, l, id) {
      assert CountersOk(s.db.orders, s.chain, s.acked, s.watchers[w], id);
      if id in l.todo {
        var i :| 0 <= i < |l.todo| && l.todo[i] == id;
        assert Unsynced(s.db.orders, rows[i].id);
      }
    }
    hide Inv, CountersOk;
    LocalStep(s, Next(s, Sweep(w, rows)), w, l);
  }

  lemma {:induction false} PassStep(s: State, w: string)
    requires Enabled(s, PassOver(w)) && Inv(s)
    ensures Inv(Next(s, PassOver(w))) && Grows(s, Next(s, PassOver(w)))
  {
    hide EvidenceOk, SettledOk, StoreOk, CallsOk, OnceOk, HashOk, CountersOk, RowOk, CopyOk, Grows, Exhausted;
    var l := Next(s, PassOver(w)).watchers[w];
    assert LocalOk(s.raw, s.db.orders, l);
    hide Inv;
    QuietStep(s, w, l);
  }

  /** The next row of a sweep is not exhausted, and gone from the rows to come. */
  lemma {:induction false} TryStep(s: State, w: string)
    requires Enabled(s, TryNext(w)) && Inv(s)
    ensures Inv(Next(s, TryNext(w))) && Grows(s, Next(s, TryNext(w)))
  {
    hide EvidenceOk, SettledOk, StoreOk, CallsOk, OnceOk, HashOk, RowOk, CopyOk, Grows;
    var m, l := s.watchers[w], Next(s, TryNext(w)).watchers[w];
    assert LocalOk(s.raw, s.db.orders, m);
    assert m.todo == [m.todo[0]] + l.todo;
    assert LocalOk(s.raw, s.db.orders, l);
    forall id ensures CountersOk(s.db.orders, s.chain, s.acked, l, id) {
      assert CountersOk(s.db.orders, s.chain, s.acked, m, id);
    }
    hide Inv, CountersOk;
    LocalStep(s, Next(s, TryNext(w)), w, l);
  }

  /** How far a write is, and what it waits for, matters to no part of the invariant. */
  lemma {:induction false} WriteStep(s: State, w: string, job: Option<Job>, wait: Option<TxHash>)
    requires Inv(s) && w in s.watchers
    requires job.Some? ==>
      s.watchers[w].job.Some? && job.value == s.watchers[w].job.value.(stage := job.value.stage)
        && job.value.stage <= CALLS
    ensures Inv(At(s, w, job, wait)) && Grows(s, At(s, w, job, wait))
  {
    hide EvidenceOk, SettledOk, StoreOk, CallsOk, OnceOk, HashOk, CountersOk, RowOk, CopyOk, Grows;
    var l := s.watchers[w].(job := job, wait := wait);
    assert LocalOk(s.raw, s.db.orders, l);
    hide Inv;
    QuietStep(s, w, l);
  }

  lemma {:induction false} SendStep(s: State, w: string)
    requires Enabled(s, Send(w)) && Inv(s)
    ensures Inv(Next(s, Send(w))) && Grows(s, Next(s, Send(w)))
  {
    hide Inv, Permitted;
    var job := s.watchers[w].job.value;
    WriteStep(s, w, Some(job.(stage := job.stage + 1)), Some(s.chain.next));
    SentStep(Advanced(s, w, Some(s.chain.next)), NextCall(s.db.orders, job));
  }

  lemma {:induction false} SentStep(s: State, c: Contract.Call)
    requires Inv(s) && Permitted(s.db.orders, c)
    ensures var t := s.(chain := Sent(s.chain, c)); Inv(t) && Grows(s, t)
  {
    hide EvidenceOk, SettledOk, LocalOk, StoreOk, CallsOk, OnceOk, CountersOk, RowOk;
    var t := s.(chain := Sent(s.chain, c));
    SentCalls(s.db.orders, s.chain, t.chain, c);
    forall w, id | w in t.watchers ensures CountersOk(t.db.orders, t.chain, t.acked, t.watchers[w], id) {
      CountersFrame(s.db.orders, t.db.orders, s.chain, t.chain, s.acked, t.acked, s.watchers[w], id);
    }
  }

  lemma {:induction false} SentCalls(orders: Orders, c: Chain, d: Chain, call: Contract.Call)
    requires CallsOk(orders, c) && OnceOk(c) && Permitted(orders, call)
    requires d == c.(inflight := c.inflight[c.next := call], next := c.next + 1)
    ensures CallsOk(orders, d) && OnceOk(d)
  {
    hide Permitted;
  }

  lemma {:induction false} DroppedCalls(orders: Orders, c: Chain, tx: TxHash)
    requires CallsOk(orders, c) && OnceOk(c)
    ensures var d := c.(inflight := c.inflight - {tx}); CallsOk(orders, d) && OnceOk(d)
  {
    hide Permitted;
  }

  lemma {:induction false} DropStep(s: State, tx: TxHash)
    requires Enabled(s, Drop(tx)) && Inv(s)
    ensures Inv(Next(s, Drop(tx))) && Grows(s, Next(s, Drop(tx)))
  {
    hide EvidenceOk, SettledOk, LocalOk, StoreOk, CallsOk, OnceOk, CountersOk, RowOk;
    var t := Next(s, Drop(tx));
    DroppedCalls(s.db.orders, s.chain, tx);
    forall w, id | w in t.watchers ensures CountersOk(t.db.orders, t.chain, t.acked, t.watchers[w], id) {
      CountersFrame(s.db.orders, t.db.orders, s.chain, t.chain, s.acked, t.acked, s.watchers[w], id);
    }
  }

  /** Landing a permitted call moves its entry one place on the path, or changes nothing. */
  lemma {:induction false} LandedStore(orders: Orders, c: Chain, tx: TxHash)
    requires StoreOk(orders, c.store) && CallsOk(orders, c) && tx in c.inflight
    requires OrdersOk(orders)
    ensures StoreOk(orders, Landed(c, tx).store) && StoreGrows(c.store, Landed(c, tx).store)
  {
    hide RowOk, OpenCall, VerdictCall, StoredOk, Strkey.Decodes, Rank, Contract.Accepts, Contract.Apply;
    var call := c.inflight[tx];
    OneEntry(c.store, call);
    if Contract.Accepts(c.store, call) {
      assert RowOk(call.id, orders[call.id]);
      RowId(call.id, orders[call.id]);
      LandedEntry(orders[call.id], c.store, call);
    }
  }

  /** A call touches its own entry only, and that only when it is accepted. */
  lemma {:induction false} OneEntry(store: Contract.Store, c: Contract.Call)
    ensures var after := Contract.Apply(store, c);
            if Contract.Accepts(store, c) then after.Keys == store.Keys + {c.id} && forall k ::
              k in store && k != c.id ==> after[k] == store[k]
            else after == store
  {}

  lemma {:induction false} RowId(id: string, o: OrderIntent)
    requires RowOk(id, o)
    ensures o.id == id
  {}

  lemma {:induction false} LandedCalls(orders: Orders, c: Chain, tx: TxHash)
    requires CallsOk(orders, c) && OnceOk(c) && tx in c.inflight
    ensures CallsOk(orders, Landed(c, tx)) && OnceOk(Landed(c, tx))
    ensures tx !in c.succeeded
  {
    hide Permitted, Contract.CanTransition;
    var call := c.inflight[tx];
    assert tx !in c.succeeded;
    if Contract.Accepts(c.store, call) {
      forall t | t in c.succeeded && Finalizes(c.succeeded[t])
        ensures c.succeeded[t].id != call.id
      {
        Contract.FinalIsForever(c.store, call, c.succeeded[t].id);
      }
      FinalHasCarrier(c, tx);
    }
  }

  /** After an accepted call lands, every final entry still has the transaction that made it so. */
  lemma {:induction false} FinalHasCarrier(c: Chain, tx: TxHash)
    requires OnceOk(c) && tx in c.inflight && tx !in c.succeeded && Contract.Accepts(c.store, c.inflight[tx])
    ensures var d := Landed(c, tx);
            forall id :: id in d.store && Contract.Final(d.store[id].status) ==>
              exists t :: t in d.succeeded && Finalizes(d.succeeded[t]) && d.succeeded[t].id == id
  {
    hide Contract.CanTransition;
    var d := Landed(c, tx);
    forall id | id in d.store && Contract.Final(d.store[id].status)
      ensures exists t :: t in d.succeeded && Finalizes(d.succeeded[t]) && d.succeeded[t].id == id
    {
      if id == c.inflight[tx].id {
        assert Finalizes(d.succeeded[tx]);
      } else {
        var t :| t in c.succeeded && Finalizes(c.succeeded[t]) && c.succeeded[t].id == id;
        assert d.succeeded[t] == c.succeeded[t];
      }
    }
  }

  lemma {:induction false} LandedEntry(o: OrderIntent, store: Contract.Store, call: Contract.Call)
    requires o.id == call.id && Judged(o)
    requires (call == OpenCall(o) && Strkey.Decodes(o.buyerWallet)) || call == DetectCall(call.id)
      || call == VerdictCall(o)
    requires call.id in store ==> StoredOk(o, store[call.id])
    requires Contract.Accepts(store, call)
    ensures StoredOk(o, Contract.Apply(store, call)[call.id])
    ensures Rank(Contract.Apply(store, call), call.id) == Rank(store, call.id) + 1
  {}

  lemma {:induction false} LandStep(s: State, tx: TxHash)
    requires Enabled(s, Land(tx)) && Inv(s)
    ensures Inv(Next(s, Land(tx))) && Grows(s, Next(s, Land(tx)))
  {
    hide EvidenceOk, SettledOk, LocalOk, StoreOk, CallsOk, OnceOk, CountersOk, RowOk;
    var t := Next(s, Land(tx));
    LandedStore(s.db.orders, s.chain, tx);
    LandedCalls(s.db.orders, s.chain, tx);
    forall w, id | w in t.watchers ensures CountersOk(t.db.orders, t.chain, t.acked, t.watchers[w], id) {
      CountersFrame(s.db.orders, t.db.orders, s.chain, t.chain, s.acked, t.acked, s.watchers[w], id);
    }
  }

  /** Two successful verdict calls for one order are one transaction. */
  lemma {:induction false} OneCarrier(orders: Orders, c: Chain, id: string, t: TxHash, u: TxHash)
    requires OnceOk(c) && Carried(orders, c, id, t) && Carried(orders, c, id, u)
    ensures t == u
  {
    assert Finalizes(c.succeeded[t]) && Finalizes(c.succeeded[u]);
  }

  /** A fresh acknowledgement is the first: its order has no hash, and no process counted one before. */
  lemma {:induction false} FirstAck(s: State, id: string, tx: TxHash)
    requires Inv(s) && FreshAck(s, tx) && s.chain.succeeded[tx].id == id
    ensures Carried(s.db.orders, s.chain, id, tx) && id in s.db.orders && s.db.orders[id].onChainTxHash == None
    ensures forall w :: w in s.watchers ==> id !in s.watchers[w].acks
  {
    hide EvidenceOk, SettledOk, LocalOk, StoreOk, CallsOk, OnceOk, RowOk;
    var a := s.db.orders;
    if a[id].onChainTxHash.Some? {
      OneCarrier(a, s.chain, id, tx, a[id].onChainTxHash.value);
    }
    forall w | w in s.watchers ensures id !in s.watchers[w].acks {
      assert CountersOk(a, s.chain, s.acked, s.watchers[w], id);
      if id in s.watchers[w].acks {
        var t :| t in s.acked && Carried(a, s.chain, id, t);
        OneCarrier(a, s.chain, id, tx, t);
      }
    }
  }

  /** Setting the hash of a settled order without one keeps rows well-formed and grows them. */
  lemma {:induction false} HashedRow(db: Db, id: string, tx: TxHash)
    requires OrdersOk(db.orders) && id in db.orders && OrderFinal(db.orders[id].status)
      && db.orders[id].onChainTxHash == None
    ensures OrdersGrow(db.orders, WithHash(db, id, tx).orders) && OrdersOk(WithHash(db, id, tx).orders)
  {}

  lemma {:induction false} HashedChain(a: Orders, b: Orders, c: Chain, acked: set<TxHash>, id: string, tx: TxHash)
    requires OrdersOk(a) && OrdersGrow(a, b) && HashOk(a, c, acked) && Carried(a, c, id, tx)
    requires id in a && b == a[id := a[id].(onChainTxHash := Some(tx))]
    ensures HashOk(b, c, acked + {tx})
  {
    CallsFrame(a, b);
  }

  /** Saving the hash of a fresh acknowledgement keeps everything else. */
  lemma {:induction false} SavedHash(s: State, id: string, tx: TxHash)
    requires Inv(s) && FreshAck(s, tx) && s.chain.succeeded[tx].id == id
    ensures id in s.db.orders
    ensures var b := WithHash(s.db, id, tx).orders;
            && OrdersGrow(s.db.orders, b) && OrdersOk(b)
            && EvidenceOk(s.raw, b, s.db.evidence) && SettledOk(b, s.db.evidence)
            && (forall w :: w in s.watchers ==> LocalOk(s.raw, b, s.watchers[w]))
            && StoreOk(b, s.chain.store) && CallsOk(b, s.chain) && HashOk(b, s.chain, s.acked + {tx})
  {
    hide EvidenceOk, SettledOk, LocalOk, StoreOk, CallsOk, OnceOk, HashOk, CountersOk, RowOk;
    var a := s.db.orders;
    FirstAck(s, id, tx);
    HashedRow(s.db, id, tx);
    var b := WithHash(s.db, id, tx).orders;
    EvidenceFrame(s.raw, s.raw, a, b, s.db.evidence);
    SettledFrame(a, b, s.db.evidence, s.db.evidence);
    forall w | w in s.watchers ensures LocalOk(s.raw, b, s.watchers[w]) {
      LocalFrame(s.raw, s.raw, a, b, s.watchers[w]);
    }
    StoreFrame(a, b, s.chain);
    HashedChain(a, b, s.chain, s.acked, id, tx);
  }

  lemma {:induction false} SaveHashStep(s: State, w: string, save: bool)
    requires Enabled(s, SaveHash(w, save)) && Inv(s)
    ensures Inv(Next(s, SaveHash(w, save))) && Grows(s, Next(s, SaveHash(w, save)))
  {
    hide Inv, VerdictCall, OrdersGrow, StoreGrows;
    var tx := s.watchers[w].wait.value;
    ToldStep(s, tx, save);
    WriteStep(s.(db := if save then WithHash(s.db, s.chain.succeeded[tx].id, tx) else s.db, acked := s.acked + {tx}),
      w, None, None);
  }

  lemma {:induction false} ToldStep(s: State, tx: TxHash, save: bool)
    requires Inv(s) && FreshAck(s, tx)
    ensures var t :=
      s.(db := if save then WithHash(s.db, s.chain.succeeded[tx].id, tx) else s.db, acked := s.acked + {tx});
            Inv(t) && Grows(s, t)
  {
    hide EvidenceOk, SettledOk, LocalOk, StoreOk, CallsOk, OnceOk, CountersOk, RowOk, OrdersGrow;
    GrowSame(s.db.orders);
    var t := s.(db := if save then WithHash(s.db, s.chain.succeeded[tx].id, tx) else s.db, acked := s.acked + {tx});
    var saved := s.chain.succeeded[tx].id;
    SavedHash(s, saved, tx);
    FirstAck(s, saved, tx);
    forall w, id | w in t.watchers ensures CountersOk(t.db.orders, t.chain, t.acked, t.watchers[w], id) {
      CountersFrame(s.db.orders, t.db.orders, s.chain, t.chain, s.acked, t.acked, s.watchers[w], id);
    }
  }

  lemma {:induction false} GrowSame(orders: Orders)
    ensures OrdersGrow(orders, orders)
  {}

  /** The counters play no part in a watcher's page, copy and work. */
  lemma {:induction false} CountedLocal(raw: seq<Record>, orders: Orders, l: Local, id: string, ack: bool)
    requires LocalOk(raw, orders, l)
    ensures LocalOk(raw, orders, Counted(l, id, ack))
  {
    hide CopyOk;
  }

  /** An acknowledgement is consumed, and its hash saved or not. */
  lemma {:induction false} ToldDb(s: State, tx: TxHash, id: string, save: bool)
    requires FreshAck(s, tx) && s.chain.succeeded[tx].id == id && Inv(s)
    ensures id in s.db.orders
    ensures var b := if save then WithHash(s.db, id, tx).orders else s.db.orders;
            && OrdersGrow(s.db.orders, b) && OrdersOk(b)
            && EvidenceOk(s.raw, b, s.db.evidence) && SettledOk(b, s.db.evidence)
            && (forall w :: w in s.watchers ==> LocalOk(s.raw, b, s.watchers[w]))
            && StoreOk(b, s.chain.store) && CallsOk(b, s.chain) && OnceOk(s.chain) && HashOk(b, s.chain, s.acked + {tx})
  {
    hide EvidenceOk, SettledOk, LocalOk, StoreOk, CallsOk, OnceOk, CountersOk, RowOk, OrdersGrow;
    SavedHash(s, id, tx);
    FirstAck(s, id, tx);
    GrowSame(s.db.orders);
  }

  /** A sweep attempt is a save of the hash, or of nothing, besides the counters. */
  lemma {:induction false} AttemptDb(s: State, t: State, w: string, ack: Option<TxHash>, saved: bool)
    requires Attempted(s, t, w, ack, saved) && Inv(s)
    ensures DbOk(t) && ChainOk(t) && OrdersGrow(s.db.orders, t.db.orders) && OrdersOk(s.db.orders)
    ensures ack.Some? ==> s.watchers[w].job.value.id !in s.watchers[w].acks
  {
    hide EvidenceOk, SettledOk, LocalOk, StoreOk, CallsOk, OnceOk, HashOk, CountersOk, RowOk, OrdersGrow, OrdersOk,
      Counted, FreshAck,
      LedgerOk, SweepOk;
    var id := s.watchers[w].job.value.id;
    GrowSame(s.db.orders);
    if ack.Some? {
      ToldDb(s, ack.value, id, saved);
      FirstAck(s, id, ack.value);
    }
    CountedLocal(s.raw, t.db.orders, s.watchers[w], id, ack.Some?);
  }

  lemma {:induction false} StoreSame(store: Contract.Store)
    ensures StoreGrows(store, store)
  {}

  lemma {:induction false} AttemptStep(s: State, w: string, ack: Option<TxHash>, saved: bool)
    requires Enabled(s, Attempt(w, ack, saved)) && Inv(s)
    ensures var t := Next(s, Attempt(w, ack, saved)); Inv(t) && Grows(s, t)
  {
    AttemptMeans(s, w, ack, saved);
    hide Next, Enabled;
    AttemptKeeps(s, Next(s, Attempt(w, ack, saved)), w, ack, saved);
  }

  lemma {:induction false} AttemptKeeps(s: State, t: State, w: string, ack: Option<TxHash>, saved: bool)
    requires Attempted(s, t, w, ack, saved) && Inv(s)
    ensures Inv(t) && Grows(s, t)
  {
    AttemptDb(s, t, w, ack, saved);
    AttemptGrows(s, t, w, ack, saved);
    hide DbOk, ChainOk, CountersOk, Inv, Grows, Attempted;
    forall v, id | v in t.watchers ensures CountersOk(t.db.orders, t.chain, t.acked, t.watchers[v], id) {
      if v == w && id == s.watchers[w].job.value.id {
        AttemptCounters(s, t, w, ack, saved);
      } else {
        OtherCounters(s, t, w, ack, saved, v, id);
      }
    }
    InvParts(t);
  }

  lemma {:induction false} AttemptGrows(s: State, t: State, w: string, ack: Option<TxHash>, saved: bool)
    requires Attempted(s, t, w, ack, saved) && OrdersGrow(s.db.orders, t.db.orders)
    ensures Grows(s, t) && Writing(s, w) && t.watchers.Keys == s.watchers.Keys
  {
    hide FreshAck, OrdersGrow, Counted;
    StoreSame(s.chain.store);
    hide StoreGrows;
  }

  lemma {:induction false} InvParts(t: State)
    requires DbOk(t) && ChainOk(t)
    requires forall w, id :: w in t.watchers ==> CountersOk(t.db.orders, t.chain, t.acked, t.watchers[w], id)
    ensures Inv(t)
  {}

  /** Elsewhere an attempt changes neither the counters, nor the chain, nor what is unsynced. */
  lemma {:induction false} AttemptElsewhere(s: State, t: State, w: string, ack: Option<TxHash>, saved: bool, v: string,
    id: string)
    requires Attempted(s, t, w, ack, saved) && v in s.watchers && (v != w || id != s.watchers[w].job.value.id)
    requires ack.Some? ==> s.watchers[w].job.value.id !in s.watchers[v].acks
    ensures t.chain == s.chain && s.acked <= t.acked && v in t.watchers
    ensures var l, m := s.watchers[v], t.watchers[v];
            && Count(m.failed, id) == Count(l.failed, id) && Count(m.attempts, id) == Count(l.attempts, id)
            && (id in m.acks <==> id in l.acks) && (id in m.todo ==> id in l.todo) && (Trying(m, id) ==> Trying(l, id))
            && (Unsynced(s.db.orders, id) && id in l.acks ==> Unsynced(t.db.orders, id))
  {
    hide FreshAck;
  }

  lemma {:induction false} OtherCounters(
      s: State, t: State, w: string, ack: Option<TxHash>, saved: bool, v: string, id: string)
    requires Attempted(s, t, w, ack, saved) && v in s.watchers && (v != w || id != s.watchers[w].job.value.id) && Inv(s)
    ensures v in t.watchers && CountersOk(t.db.orders, t.chain, t.acked, t.watchers[v], id)
  {
    AttemptDb(s, t, w, ack, saved);
    if ack.Some? { FirstAck(s, s.watchers[w].job.value.id, ack.value); }
    AttemptElsewhere(s, t, w, ack, saved, v, id);
    CountersAt(s, v, id);
    hide CountersOk, Attempted, Inv, DbOk, ChainOk;
    CountersFrame(s.db.orders, t.db.orders, s.chain, t.chain, s.acked, t.acked, s.watchers[v], id);
    SameCounters(t.db.orders, t.chain, t.acked, s.watchers[v], t.watchers[v], id);
  }

  lemma {:induction false} CountersAt(s: State, v: string, id: string)
    requires Inv(s) && v in s.watchers
    ensures CountersOk(s.db.orders, s.chain, s.acked, s.watchers[v], id)
  {
    hide DbOk, ChainOk, CountersOk;
  }

  lemma {:induction false} SameCounters(orders: Orders, c: Chain, acked: set<TxHash>, l: Local, m: Local, id: string)
    requires CountersOk(orders, c, acked, l, id)
    requires Count(m.failed, id) == Count(l.failed, id) && Count(m.attempts, id) == Count(l.attempts, id)
    requires (id in m.acks <==> id in l.acks) && (id in m.todo ==> id in l.todo) && (Trying(m, id) ==> Trying(l, id))
    ensures CountersOk(orders, c, acked, m, id)
  {}

  lemma {:induction false} AttemptCounters(s: State, t: State, w: string, ack: Option<TxHash>, saved: bool)
    requires Attempted(s, t, w, ack, saved) && Inv(s)
    ensures w in t.watchers && CountersOk(t.db.orders, t.chain, t.acked, t.watchers[w], s.watchers[w].job.value.id)
  {
    var id := s.watchers[w].job.value.id;
    AttemptDb(s, t, w, ack, saved);
    CountersAt(s, w, id);
    if ack.Some? { FirstAck(s, id, ack.value); }
    hide Inv, DbOk, ChainOk, FreshAck, OrdersOk, OrdersGrow, CountersOk, Counted, Carried;
    if ack.Some? {
      AckedCount(s.db.orders, t.db.orders, s.chain, s.acked, s.watchers[w], id, ack.value);
    } else {
      FailedCount(s.db.orders, s.chain, s.acked, s.watchers[w], id);
    }
  }

  lemma {:induction false} FailedCount(orders: Orders, c: Chain, acked: set<TxHash>, l: Local, id: string)
    requires CountersOk(orders, c, acked, l, id) && Trying(l, id)
    ensures CountersOk(orders, c, acked, Counted(l, id, false), id)
  {
    hide Carried;
  }

  lemma {:induction false} AckedCount(a: Orders, b: Orders, c: Chain, acked: set<TxHash>, l: Local, id: string,
    tx: TxHash)
    requires OrdersOk(a) && OrdersGrow(a, b) && CountersOk(a, c, acked, l, id) && Trying(l, id)
    requires Carried(a, c, id, tx) && id !in l.acks
    ensures CountersOk(b, c, acked + {tx}, Counted(l, id, true), id)
  {
    CallsFrame(a, b);
    assert Carried(b, c, id, tx);
    hide OrdersOk, OrdersGrow, Carried;
  }

  /** The committed orders: at most one open row becomes final, with a named reason. */
  lemma {:induction false} CommittedOrders(orders: Orders, p: Payment, copy: Option<OrderIntent>)
    requires OrdersOk(orders) && CopyOk(orders, p, copy)
    ensures OrdersOk(OrdersAfter(orders, p, copy)) && OrdersGrow(orders, OrdersAfter(orders, p, copy))
    ensures var after := OrdersAfter(orders, p, copy);
            forall id :: id in after ==>
              && id in orders && after[id].onChainTxHash == orders[id].onChainTxHash
              && (after[id] == orders[id] || (copy.Some? && id == copy.value.id))
  {
    MatchMeaning(Observe(p), copy);
  }

  /** A new evidence row explains itself, and settles the order whenever it is linked and none did before. */
  lemma {:induction false} CommittedRow(orders: Orders, p: Payment, copy: Option<OrderIntent>)
    requires OrdersOk(orders) && CopyOk(orders, p, copy)
    ensures Explains(p, OrdersAfter(orders, p, copy), EvidenceOf(p, copy))
    ensures Settles(orders, p, copy) ==>
      SettledBy(OrdersAfter(orders, p, copy)[copy.value.id], [EvidenceOf(p, copy)], 0)
  {
    MatchMeaning(Observe(p), copy);
    if copy.Some? {
      var id := copy.value.id;
      assert RowOk(id, orders[id]);
      var after := OrdersAfter(orders, p, copy)[id];
      assert Opening(after) == Opening(copy.value);
      if !OrderFinal(copy.value.status) {
        MatchOfOpenCopy(Observe(p), copy.value, after);
      } else {
        MatchMeaning(Observe(p), Some(after));
      }
    }
  }

  lemma {:induction false} CommittedEvidence(raw: seq<Record>, db: Db, p: Payment, copy: Option<OrderIntent>,
    stream: string)
    requires OrdersOk(db.orders) && EvidenceOk(raw, db.orders, db.evidence) && SettledOk(db.orders, db.evidence)
    requires p in Payments(raw) && CopyOk(db.orders, p, copy)
    ensures var d := CommitTx(db, p, copy, stream);
      EvidenceOk(raw, d.orders, d.evidence) && SettledOk(d.orders, d.evidence)
  {
    if !Seen(db.evidence, p.id) {
      CommittedExplained(raw, db, p, copy);
      CommittedSettled(db, p, copy);
    }
  }

  lemma {:induction false} CommittedExplained(raw: seq<Record>, db: Db, p: Payment, copy: Option<OrderIntent>)
    requires OrdersOk(db.orders) && EvidenceOk(raw, db.orders, db.evidence) && !Seen(db.evidence, p.id)
    requires p in Payments(raw) && CopyOk(db.orders, p, copy)
    ensures EvidenceOk(raw, OrdersAfter(db.orders, p, copy), db.evidence + [EvidenceOf(p, copy)])
  {
    hide RowOk, Explains, OrdersAfter, CopyOk;
    var after := OrdersAfter(db.orders, p, copy);
    CommittedOrders(db.orders, p, copy);
    CommittedRow(db.orders, p, copy);
    EvidenceFrame(raw, raw, db.orders, after, db.evidence);
    assert RowExplained(raw, after, EvidenceOf(p, copy));
  }

  lemma {:induction false} CommittedSettled(db: Db, p: Payment, copy: Option<OrderIntent>)
    requires OrdersOk(db.orders) && SettledOk(db.orders, db.evidence) && CopyOk(db.orders, p, copy)
    ensures SettledOk(OrdersAfter(db.orders, p, copy), db.evidence + [EvidenceOf(p, copy)])
  {
    hide RowOk, EvidenceOf;
    var after, evidence := OrdersAfter(db.orders, p, copy), db.evidence + [EvidenceOf(p, copy)];
    CommittedOrders(db.orders, p, copy);
    CommittedRow(db.orders, p, copy);
    if !Settles(db.orders, p, copy) {
      SettledFrame(db.orders, after, db.evidence, evidence);
    } else {
      forall id | id in after && OrderFinal(after[id].status) ensures exists j :: SettledBy(after[id], evidence, j) {
        if id == copy.value.id {
          assert SettledBy(after[id], evidence, |db.evidence|);
        } else {
          var j :| SettledBy(db.orders[id], db.evidence, j);
          assert SettledBy(after[id], evidence, j);
        }
      }
    }
  }

  /** The chain's part does not see evidence or cursors, nor an order being settled. */
  lemma {:induction false} SettledChain(s: State, b: Orders)
    requires Inv(s) && OrdersGrow(s.db.orders, b)
    requires forall id :: id in b ==> id in s.db.orders && b[id].onChainTxHash == s.db.orders[id].onChainTxHash
    ensures StoreOk(b, s.chain.store) && CallsOk(b, s.chain) && HashOk(b, s.chain, s.acked)
  {
    hide EvidenceOk, SettledOk, LocalOk, StoreOk, CallsOk, OnceOk, HashOk, CountersOk, RowOk, OrdersGrow;
    StoreFrame(s.db.orders, b, s.chain);
    HashFrame(s.db.orders, b, s.chain, s.acked);
  }

  /** Nor do the other watchers and their counters. */
  lemma {:induction false} SettledWatchers(s: State, b: Orders)
    requires Inv(s) && OrdersGrow(s.db.orders, b)
    requires forall id :: id in b ==> id in s.db.orders && b[id].onChainTxHash == s.db.orders[id].onChainTxHash
    ensures forall w :: w in s.watchers ==> LocalOk(s.raw, b, s.watchers[w])
    ensures forall w, id :: w in s.watchers ==> CountersOk(b, s.chain, s.acked, s.watchers[w], id)
  {
    hide EvidenceOk, SettledOk, LocalOk, StoreOk, CallsOk, OnceOk, HashOk, CountersOk, RowOk;
    forall w | w in s.watchers ensures LocalOk(s.raw, b, s.watchers[w]) {
      LocalFrame(s.raw, s.raw, s.db.orders, b, s.watchers[w]);
    }
    forall w, id | w in s.watchers ensures CountersOk(b, s.chain, s.acked, s.watchers[w], id) {
      CountersFrame(s.db.orders, b, s.chain, s.chain, s.acked, s.acked, s.watchers[w], id);
    }
  }

  /** A commit is a settling of at most one order, with its evidence. */
  lemma {:induction false} CommitDb(s: State, w: string)
    requires Enabled(s, Commit(w)) && Inv(s)
    ensures var d := CommitTx(s.db, s.watchers[w].page[0], s.watchers[w].read.value.order, s.watchers[w].stream);
            && OrdersOk(d.orders) && OrdersGrow(s.db.orders, d.orders)
            && EvidenceOk(s.raw, d.orders, d.evidence) && SettledOk(d.orders, d.evidence) && s.db.evidence <= d.evidence
            && forall id :: id in d.orders ==>
               id in s.db.orders && d.orders[id].onChainTxHash == s.db.orders[id].onChainTxHash
  {
    hide EvidenceOk, SettledOk, StoreOk, CallsOk, OnceOk, HashOk, RowOk, OrdersAfter, EvidenceOf, CountersOk, CopyOk;
    var l := s.watchers[w];
    assert LocalOk(s.raw, s.db.orders, l);
    CommittedOrders(s.db.orders, l.page[0], l.read.value.order);
    CommittedEvidence(s.raw, s.db, l.page[0], l.read.value.order, l.stream);
  }

  /** What a commit settles is settled, for the process that goes on to write it. */
  lemma {:induction false} CommittedWork(db: Db, l: Local)
    requires l.page != [] && l.read.Some?
    ensures var m := Committed(db, l);
            var orders := CommitTx(db, l.page[0], l.read.value.order, l.stream).orders;
            && (m.job.Some? ==> Settled(orders, m.job.value.id) && m.job.value.stage == 0 && !m.job.value.retry)
            && m.todo == l.todo && m.page == l.page[1..] && m.read == None && m.wait == l.wait
            && (forall id :: !Trying(m, id))
            && m.failed == l.failed && m.attempts == l.attempts && m.acks == l.acks
  {
    hide Match;
  }

  lemma {:induction false} CommitStep(s: State, w: string)
    requires Enabled(s, Commit(w)) && Inv(s)
    ensures Inv(Next(s, Commit(w))) && Grows(s, Next(s, Commit(w)))
  {
    hide EvidenceOk, SettledOk, StoreOk, CallsOk, OnceOk, HashOk, RowOk, OrdersAfter, EvidenceOf, CommitTx, CopyOk,
      OrdersGrow, CountersOk, Committed;
    var t := Next(s, Commit(w));
    CommitDb(s, w);
    SettledChain(s, t.db.orders);
    SettledWatchers(s, t.db.orders);
    CommittedWork(s.db, s.watchers[w]);
    forall v, id | v in t.watchers ensures CountersOk(t.db.orders, t.chain, t.acked, t.watchers[v], id) {
      SameCounters(t.db.orders, t.chain, t.acked, s.watchers[v], t.watchers[v], id);
    }
  }

  // --- All steps, all runs ------------------------------------------------------------------

  lemma {:induction false} WorkAt(s: State, w: string)
    requires Inv(s) && w in s.watchers
    ensures WorkOk(s.db.orders, s.watchers[w])
  {
    hide EvidenceOk, SettledOk, StoreOk, CallsOk, OnceOk, HashOk, CountersOk, RowOk, CopyOk, WorkOk;
    assert LocalOk(s.raw, s.db.orders, s.watchers[w]);
  }

  lemma {:induction false} MissMeans(s: State, w: string)
    requires Enabled(s, Miss(w))
    ensures Writing(s, w)
    ensures var job := s.watchers[w].job.value;
            job.stage < CALLS && Next(s, Miss(w)) == At(s, w, Some(job.(stage := job.stage + 1)), None)
  {}

  lemma {:induction false} MissStep(s: State, w: string)
    requires Enabled(s, Miss(w)) && Inv(s)
    ensures Inv(Next(s, Miss(w))) && Grows(s, Next(s, Miss(w)))
  {
    hide Inv, Grows, Next, Enabled, At;
    MissMeans(s, w);
    var job := s.watchers[w].job.value;
    WriteStep(s, w, Some(job.(stage := job.stage + 1)), None);
  }

  lemma {:induction false} GiveUpMeans(s: State, w: string)
    requires Enabled(s, GiveUp(w))
    ensures Writing(s, w) && Next(s, GiveUp(w)) == At(s, w, s.watchers[w].job, None)
  {}

  lemma {:induction false} GiveUpStep(s: State, w: string)
    requires Enabled(s, GiveUp(w)) && Inv(s)
    ensures Inv(Next(s, GiveUp(w))) && Grows(s, Next(s, GiveUp(w)))
  {
    GiveUpMeans(s, w);
    WorkAt(s, w);
    hide Inv, Grows, Next, Enabled, At;
    WriteStep(s, w, s.watchers[w].job, None);
  }

  lemma {:induction false} EndMeans(s: State, w: string)
    requires Enabled(s, EndWrite(w))
    ensures Writing(s, w) && Next(s, EndWrite(w)) == At(s, w, None, None)
  {}

  lemma {:induction false} EndStep(s: State, w: string)
    requires Enabled(s, EndWrite(w)) && Inv(s)
    ensures Inv(Next(s, EndWrite(w))) && Grows(s, Next(s, EndWrite(w)))
  {
    EndMeans(s, w);
    hide Inv, Grows, Next, Enabled, At;
    WriteStep(s, w, None, None);
  }

  lemma {:induction false} StepSafe(s: State, step: Step)
    requires Enabled(s, step) && Inv(s)
    ensures Inv(Next(s, step)) && Grows(s, Next(s, step))
  {
    hide Inv, Grows, Next, Enabled;
    match step
    case Append(r) => AppendStep(s, r);
    case Create(o) => CreateStep(s, o);
    case Commit(w) => CommitStep(s, w);
    case Poll(w, rewound) => PollStep(s, w, rewound);
    case Lookup(w) => LookupStep(s, w);
    case Abort(w) => AbortStep(s, w);
    case Crash(w, stream) => CrashStep(s, w, stream);
    case Send(w) => SendStep(s, w);
    case Miss(w) => MissStep(s, w);
    case GiveUp(w) => GiveUpStep(s, w);
    case Land(tx) => LandStep(s, tx);
    case Drop(tx) => DropStep(s, tx);
    case SaveHash(w, save) => SaveHashStep(s, w, save);
    case EndWrite(w) => EndStep(s, w);
    case Sweep(w, rows) => SweepStep(s, w, rows);
    case PassOver(w) => PassStep(s, w);
    case TryNext(w) => TryStep(s, w);
    case Attempt(w, ack, saved) => AttemptStep(s, w, ack, saved);
  }

  lemma {:induction false} InitSafe(streams: map<string, string>)
    ensures Inv(Init(streams))
  {}

  lemma {:induction false} RunSafe(s: State, run: seq<Step>)
    requires Inv(s) && Legal(s, run)
    ensures Inv(Exec(s, run))
    decreases |run|
  {
    if run != [] {
      StepSafe(s, run[0]);
      RunSafe(Next(s, run[0]), run[1..]);
    }
  }

  /** The invariant holds in every reachable state, with any number of watchers. */
  lemma {:induction false} ReachableSafe(streams: map<string, string>, s: State)
    requires Reachable(streams, s)
    ensures Inv(s)
  {
    var run :| Legal(Init(streams), run) && Exec(Init(streams), run) == s;
    InitSafe(streams);
    RunSafe(Init(streams), run);
  }
}
