/** Who can still be told that a verdict landed, and what becomes of an order when nobody can. */
module Waits {
  import opened Wrappers
  import opened Models
  import opened Backlog
  import opened Matcher
  import opened Horizon
  import opened ScVal
  import opened Ingest
  import opened Protocol
  import opened Safety
  import opened Steps
  import opened Soundness
  import Contract
  import Strkey

  /** Some watcher waits for this transaction. */
  ghost predicate Awaited(s: State, tx: TxHash) { exists w :: w in s.watchers && s.watchers[w].wait == Some(tx) }

  /** A transaction, in flight or succeeded, is a call for this order. */
  ghost predicate IsFor(c: Chain, tx: TxHash, id: string) {
    (tx in c.inflight ==> c.inflight[tx].id == id) && (tx in c.succeeded ==> c.succeeded[tx].id == id)
  }

  /** A watcher waits only while it writes, for a call it sent for that order, which no one was told of. */
  ghost predicate WaitOk(c: Chain, acked: set<TxHash>, l: Local) {
    l.wait.Some? ==>
      l.job.Some? && l.wait.value < c.next && l.wait.value !in acked && IsFor(c, l.wait.value, l.job.value.id)
  }

  /** And no two watchers wait for one call. */
  ghost predicate WaitsOk(s: State) {
    && (forall tx :: tx in s.acked ==> tx < s.chain.next)
    && (forall w :: w in s.watchers ==> WaitOk(s.chain, s.acked, s.watchers[w]))
    && (forall v, w :: v in s.watchers && w in s.watchers && v != w && s.watchers[v].wait.Some? ==>
          s.watchers[v].wait != s.watchers[w].wait)
  }

  /** No transaction becomes another call. */
  ghost predicate ChainMoves(a: Chain, b: Chain) {
    && a.next <= b.next
    && (forall tx :: tx in b.inflight && tx < a.next ==> tx in a.inflight && b.inflight[tx] == a.inflight[tx])
    && (forall tx :: tx in b.succeeded && tx < a.next ==>
          (tx in a.succeeded && b.succeeded[tx] == a.succeeded[tx])
            || (tx in a.inflight && b.succeeded[tx] == a.inflight[tx]))
  }

  /** Waits may end, and one that ends may have been told. */
  lemma {:induction false} WaitsEnd(s: State, t: State, told: set<TxHash>)
    requires WaitsOk(s) && ChainMoves(s.chain, t.chain) && t.watchers.Keys == s.watchers.Keys
      && t.acked == s.acked + told
    requires forall w :: w in s.watchers ==>
      t.watchers[w].wait.None? || (t.watchers[w].wait == s.watchers[w].wait && t.watchers[w].wait.value !in told
                                   && t.watchers[w].job.Some? && s.watchers[w].job.Some?
                                      && t.watchers[w].job.value.id == s.watchers[w].job.value.id)
    requires forall tx :: tx in told ==> tx < s.chain.next
    ensures WaitsOk(t)
  {
    forall w | w in t.watchers ensures WaitOk(t.chain, t.acked, t.watchers[w]) {
      assert WaitOk(s.chain, s.acked, s.watchers[w]);
    }
  }

  lemma {:induction false} WaitsStep(s: State, step: Step)
    requires Inv(s) && WaitsOk(s) && Enabled(s, step)
    ensures WaitsOk(Next(s, step))
  {
    hide WaitsOk, Enabled, Next, Inv;
    if step.SaveHash? || step.Attempt? {
      WaitsTold(s, step);
    } else if step.Send? {
      WaitsSent(s, step.w);
    } else if step.Land? || step.Drop? {
      WaitsLanded(s, step);
    } else {
      WaitsUntold(s, step);
    }
  }

  lemma {:induction false} WaitsTold(s: State, step: Step)
    requires WaitsOk(s) && Enabled(s, step) && (step.SaveHash? || step.Attempt?)
    ensures WaitsOk(Next(s, step))
  {
    hide IsVerdictCall, FreshAck, WithHash;
    var l := s.watchers[step.w];
    assert WaitOk(s.chain, s.acked, l);
    forall w | w in s.watchers && s.watchers[w].wait.Some? ensures s.watchers[w].job.Some? {
      assert WaitOk(s.chain, s.acked, s.watchers[w]);
    }
    WaitsEnd(s, Next(s, step), if step.SaveHash? || step.ack.Some? then {l.wait.value} else {});
  }

  lemma {:induction false} WaitsSent(s: State, w: string)
    requires Enabled(s, Send(w)) && Inv(s) && WaitsOk(s)
    ensures WaitsOk(Next(s, Send(w)))
  {
    SendMeans(s, w);
    hide Next, Enabled, Inv, Permitted, NextCall, Judged;
    CallIsForJob(s, s.watchers[w].job.value);
    NewWait(s, Next(s, Send(w)), w, NextCall(s.db.orders, s.watchers[w].job.value));
  }

  lemma {:induction false} NewWait(s: State, t: State, w: string, call: Contract.Call)
    requires WaitsOk(s) && w in s.watchers && s.watchers[w].job.Some? && call.id == s.watchers[w].job.value.id
    requires t.acked == s.acked && t.chain == Sent(s.chain, call)
    requires s.chain.next !in s.chain.inflight && s.chain.next !in s.chain.succeeded
    requires var l := s.watchers[w];
             t.watchers == s.watchers[w :=
               l.(job := Some(l.job.value.(stage := l.job.value.stage + 1)), wait := Some(s.chain.next))]
    ensures WaitsOk(t)
  {
    forall v | v in t.watchers ensures WaitOk(t.chain, t.acked, t.watchers[v]) {
      assert WaitOk(s.chain, s.acked, s.watchers[v]);
    }
    forall v | v in s.watchers && s.watchers[v].wait.Some? ensures s.watchers[v].wait.value != s.chain.next {
      assert WaitOk(s.chain, s.acked, s.watchers[v]);
    }
  }

  /** The calls of a write are for its order. */
  lemma {:induction false} CallIsForJob(s: State, job: Job)
    requires Inv(s) && job.id in s.db.orders && Judged(s.db.orders[job.id])
    ensures NextCall(s.db.orders, job).id == job.id && s.db.orders[job.id].id == job.id
    ensures s.chain.next !in s.chain.inflight && s.chain.next !in s.chain.succeeded
  {
    hide EvidenceOk, SettledOk, LocalOk, StoreOk, OnceOk, HashOk, CountersOk;
    assert RowOk(job.id, s.db.orders[job.id]);
  }

  lemma {:induction false} WaitsLanded(s: State, step: Step)
    requires WaitsOk(s) && Enabled(s, step) && (step.Land? || step.Drop?)
    ensures WaitsOk(Next(s, step))
  {
    hide Contract.Accepts, Contract.Apply, WaitOk;
    forall w | w in s.watchers && s.watchers[w].wait.Some? ensures s.watchers[w].job.Some? {
      WaitMeans(s, w);
    }
    WaitsEnd(s, Next(s, step), {});
  }

  lemma {:induction false} WaitMeans(s: State, w: string)
    requires WaitsOk(s) && w in s.watchers && s.watchers[w].wait.Some?
    ensures s.watchers[w].job.Some? && s.watchers[w].wait.value !in s.acked
    ensures IsFor(s.chain, s.watchers[w].wait.value, s.watchers[w].job.value.id)
  {
    assert WaitOk(s.chain, s.acked, s.watchers[w]);
  }

  lemma {:induction false} WaitsUntold(s: State, step: Step)
    requires WaitsOk(s) && Enabled(s, step)
    requires !step.SaveHash? && !step.Attempt? && !step.Send? && !step.Land? && !step.Drop?
    ensures WaitsOk(Next(s, step))
  {
    ActorOnly(s, step);
    ChainMove(s, step);
    AckedMove(s, step);
    if Actor(step).Some? { WaitMove(s, step, Actor(step).value); }
    hide WaitsOk, Enabled, Next;
    forall w | w in s.watchers && s.watchers[w].wait.Some? ensures s.watchers[w].job.Some? {
      WaitMeans(s, w);
    }
    WaitsEnd(s, Next(s, step), {});
  }

  lemma {:induction false} WaitsRun(s: State, run: seq<Step>)
    requires Inv(s) && WaitsOk(s) && Legal(s, run)
    ensures WaitsOk(Exec(s, run))
    decreases |run|
  {
    if run != [] {
      hide WaitsOk, Enabled, Next, Inv;
      WaitsStep(s, run[0]);
      StepSafe(s, run[0]);
      WaitsRun(Next(s, run[0]), run[1..]);
    }
  }

  lemma {:induction false} ReachableWaits(streams: map<string, string>, s: State)
    requires Reachable(streams, s)
    ensures WaitsOk(s)
  {
    var run :| Legal(Init(streams), run) && Exec(Init(streams), run) == s;
    InitSafe(streams);
    hide Inv;
    WaitsRun(Init(streams), run);
  }

  /** The verdict landed, its order has no hash, and nobody waits for the news. */
  ghost predicate LostHash(s: State, id: string, tx: TxHash) {
    Unsynced(s.db.orders, id) && Carried(s.db.orders, s.chain, id, tx) && !Awaited(s, tx)
  }

  /** Once the verdict landed and no one waits for it any more, no run ever saves a hash. */
  lemma {:induction false} LostHashStaysLost(s: State, run: seq<Step>, id: string, tx: TxHash)
    requires Inv(s) && Legal(s, run) && LostHash(s, id, tx)
    ensures LostHash(Exec(s, run), id, tx)
    decreases |run|
  {
    if run != [] {
      hide Inv, LostHash, Enabled, Next;
      StepSafe(s, run[0]);
      LostHashStep(s, run[0], id, tx);
      LostHashStaysLost(Next(s, run[0]), run[1..], id, tx);
    }
  }

  /** The rows of a reachable state that wait for a hash carry their id and a verdict that can be sent. */
  lemma {:induction false} UnsyncedRow(streams: map<string, string>, s: State, id: string)
    requires Reachable(streams, s) && Unsynced(s.db.orders, id)
    ensures s.db.orders[id].id == id && Judged(s.db.orders[id])
    ensures id in s.chain.store ==> StoredOk(s.db.orders[id], s.chain.store[id])
  {
    ReachableSafe(streams, s);
    hide EvidenceOk, SettledOk, LocalOk, CallsOk, OnceOk, HashOk, CountersOk, StoredOk;
    assert RowOk(id, s.db.orders[id]);
  }

  lemma {:induction false} StoredDecodes(streams: map<string, string>, s: State, id: string)
    requires Reachable(streams, s) && id in s.chain.store
    ensures id in s.db.orders && Strkey.Decodes(s.db.orders[id].buyerWallet)
  {
    ReachableSafe(streams, s);
    hide EvidenceOk, SettledOk, LocalOk, CallsOk, OnceOk, HashOk, CountersOk, RowOk, Strkey.Decodes, ChainStatus;
    assert StoredOk(s.db.orders[id], s.chain.store[id]);
  }

  /** An order whose wallet the client cannot decode is never on chain and never has a hash. */
  lemma {:induction false} UndecodableNeverOnChain(streams: map<string, string>, s: State, id: string)
    requires Reachable(streams, s) && id in s.db.orders && !Strkey.Decodes(s.db.orders[id].buyerWallet)
    ensures id !in s.chain.store && s.db.orders[id].onChainTxHash == None
  {
    hide Strkey.Decodes, Carried;
    if id in s.chain.store {
      StoredDecodes(streams, s, id);
    }
    if s.db.orders[id].onChainTxHash.Some? {
      HashMeansVerdict(streams, s, id);
    }
  }

  /** Nor in any later state. */
  lemma {:induction false} UndecodableStays(streams: map<string, string>, s: State, run: seq<Step>, id: string)
    requires Reachable(streams, s) && Unsynced(s.db.orders, id) && !Strkey.Decodes(s.db.orders[id].buyerWallet)
    requires Legal(s, run)
    ensures Unsynced(Exec(s, run).db.orders, id) && id !in Exec(s, run).chain.store
  {
    hide Inv, Strkey.Decodes;
    ReachableSafe(streams, s);
    VerdictsStand(s, run);
    ReachRun(streams, s, run);
    var a, b := s.db.orders[id], Exec(s, run).db.orders[id];
    assert Opening(a).buyerWallet == Opening(b).buyerWallet;
    UndecodableNeverOnChain(streams, Exec(s, run), id);
  }

  lemma {:induction false} ReachRun(streams: map<string, string>, s: State, run: seq<Step>)
    requires Reachable(streams, s) && Legal(s, run)
    ensures Reachable(streams, Exec(s, run))
  {
    var before :| Legal(Init(streams), before) && Exec(Init(streams), before) == s;
    ExecConcat(Init(streams), before, run);
  }

  /** Only a save and a sweep attempt write the hash column. */
  lemma {:induction false} HashColumnKept(s: State, step: Step, id: string)
    requires Enabled(s, step) && !step.SaveHash? && !step.Attempt?
    requires id in s.db.orders
    ensures id in Next(s, step).db.orders && Next(s, step).db.orders[id].onChainTxHash == s.db.orders[id].onChainTxHash
  {
    hide EvidenceOf, Settles, Match, LedgerOk, Permitted, OpeningRow, Payments, Page, FindByMemo, IsSweepQuery,
      SweepOver;
  }

  /** The succeeded transactions are never forgotten. */
  lemma {:induction false} SucceededKept(s: State, step: Step, tx: TxHash)
    requires Enabled(s, step) && CallsOk(s.db.orders, s.chain) && tx in s.chain.succeeded
    ensures tx in Next(s, step).chain.succeeded && Next(s, step).chain.succeeded[tx] == s.chain.succeeded[tx]
  {
    hide CommitTx, IsVerdictCall, LedgerOk, OpeningRow, Permitted, FreshAck, Payments, Page, FindByMemo, Counted,
      WithHash, IsSweepQuery, SweepOver,
      Contract.Accepts, Contract.Apply;
    assert tx !in s.chain.inflight;
  }

  lemma {:induction false} CarriedKept(s: State, step: Step, id: string, tx: TxHash)
    requires Inv(s) && Enabled(s, step) && OrdersGrow(s.db.orders, Next(s, step).db.orders)
    requires Carried(s.db.orders, s.chain, id, tx)
    ensures Carried(Next(s, step).db.orders, Next(s, step).chain, id, tx)
  {
    hide EvidenceOk, SettledOk, LocalOk, StoreOk, CallsOk, OnceOk, HashOk, CountersOk, RowOk, IsVerdictCall, Next,
      Enabled;
    SucceededKept(s, step, tx);
    CallsFrame(s.db.orders, Next(s, step).db.orders);
  }

  /** News of this order's verdict can only be of the transaction that carried it. */
  lemma {:induction false} OnlyCarrier(s: State, id: string, tx: TxHash, u: TxHash)
    requires OnceOk(s.chain) && Carried(s.db.orders, s.chain, id, tx)
    requires FreshAck(s, u) && s.chain.succeeded[u].id == id
    ensures u == tx
  {
    OneCarrier(s.db.orders, s.chain, id, tx, u);
  }

  lemma {:induction false} LostHashStep(s: State, step: Step, id: string, tx: TxHash)
    requires Inv(s) && Enabled(s, step) && LostHash(s, id, tx)
    ensures LostHash(Next(s, step), id, tx)
  {
    StepSafe(s, step);
    hide EvidenceOk, SettledOk, LocalOk, StoreOk, OnceOk, HashOk, CountersOk, RowOk, FreshAck, Carried, Next, Enabled,
      Awaited;
    CarriedKept(s, step, id, tx);
    NotAwaitedKept(s, step, id, tx);
    if step.SaveHash? || step.Attempt? {
      UnsyncedKept(s, step, id, tx);
    } else {
      HashColumnKept(s, step, id);
    }
  }

  /** A new call is a new transaction: nobody starts to wait for an old one. */
  lemma {:induction false} NotAwaitedKept(s: State, step: Step, id: string, tx: TxHash)
    requires Enabled(s, step) && CallsOk(s.db.orders, s.chain) && Carried(s.db.orders, s.chain, id, tx)
      && !Awaited(s, tx)
    ensures !Awaited(Next(s, step), tx)
  {
    hide Enabled, Next, Carried, CallsOk;
    CarriedIsOld(s.db.orders, s.chain, id, tx);
    ActorOnly(s, step);
    if Actor(step).Some? { WaitMove(s, step, Actor(step).value); }
    var t := Next(s, step);
    forall v | v in t.watchers ensures t.watchers[v].wait != Some(tx) {
      assert s.watchers[v].wait != Some(tx);
      if Actor(step) == Some(v) { assert WaitMoves(s, step, s.watchers[v], t.watchers[v]); }
    }
  }

  lemma {:induction false} CarriedIsOld(orders: Orders, c: Chain, id: string, tx: TxHash)
    requires CallsOk(orders, c) && Carried(orders, c, id, tx)
    ensures tx < c.next
  {
    hide Permitted, IsVerdictCall;
  }

  lemma {:induction false} UnsyncedKept(s: State, step: Step, id: string, tx: TxHash)
    requires OnceOk(s.chain) && Enabled(s, step) && (step.SaveHash? || step.Attempt?) && LostHash(s, id, tx)
    ensures Unsynced(Next(s, step).db.orders, id)
  {
    hide OnceOk, Carried, CommitTx, LedgerOk, OpeningRow, Permitted;
    if step.SaveHash? {
      if s.chain.succeeded[s.watchers[step.w].wait.value].id == id {
        OnlyCarrier(s, id, tx, s.watchers[step.w].wait.value);
      }
    } else if step.ack.Some? && s.watchers[step.w].job.value.id == id {
      OnlyCarrier(s, id, tx, step.ack.value);
    }
  }
}
