/**
 * What the running program does, as functions of what it meets: one write to the chain, one payment, one page and
 * one sweep. Watcher's methods compute these; here is what the functions amount to.
 */
module Effects {
  import opened Wrappers
  import opened Models
  import opened Backlog
  import opened Matcher
  import opened Horizon
  import opened Ingest
  import opened ScVal
  import opened Protocol
  import opened Sweep
  import opened Recovery
  import opened Steps
  import opened Client
  import Contract
  import Strkey

  /** What the world does around one writeChain: the three calls and the hash save. */
  datatype WriteEnv = WriteEnv(create: CallEnv, detect: CallEnv, verdict: CallEnv, saved: bool)

  /** A statement of the transaction that fails, if any. */
  datatype Fault = NoFault | InsertFails | DetectFails | VerdictFails | CursorFails

  datatype ProcessEnv = ProcessEnv(fault: Fault, write: WriteEnv)

  ghost predicate CleanCalls(env: WriteEnv) { Clean(env.create) && Clean(env.detect) && Clean(env.verdict) }

  // --- One write ---------------------------------------------------------------------------

  /** The chain after the first call, which is not made for a wallet that does not decode. */
  ghost function Registered(c: Chain, o: OrderIntent, env: WriteEnv): Chain {
    if Strkey.Decodes(o.buyerWallet) then Invoked(c, OpenCall(o), env.create).0 else c
  }

  /** The chain when the third call is made, whatever the first two came to. */
  ghost function BeforeVerdict(c: Chain, o: OrderIntent, env: WriteEnv): Chain {
    Invoked(Registered(c, o, env), DetectCall(o.id), env.detect).0
  }

  /** The three calls, and what is told of the last one; a verdict without an encoding is never sent. */
  ghost function Wrote(c: Chain, o: OrderIntent, env: WriteEnv): (Chain, Result<TxHash, InvokeError>) {
    if Judged(o) then Invoked(BeforeVerdict(c, o, env), VerdictCall(o), env.verdict)
    else (BeforeVerdict(c, o, env), Err(NotPrepared))
  }

  /** The three calls by their outcomes. */
  lemma {:induction false} WroteBy(c: Chain, o: OrderIntent, env: WriteEnv, a: Chain, b: Chain)
    requires Judged(o) && a == Registered(c, o, env) && b == Invoked(a, DetectCall(o.id), env.detect).0
    ensures b == BeforeVerdict(c, o, env) && Wrote(c, o, env) == Invoked(b, VerdictCall(o), env.verdict)
  {
    hide Registered, Invoked, VerdictCall;
  }

  /** A whole writeChain: table, chain, and the hash if the verdict is known to be on chain. */
  ghost function Writes(on: bool, db: Db, c: Chain, id: string, env: WriteEnv): (Db, Chain, Option<TxHash>) {
    if !on || id !in db.orders then (db, c, None)
    else
      var (after, r) := Wrote(c, db.orders[id], env);
      (if r.Ok? && env.saved then WithHash(db, id, r.value) else db, after, if r.Ok? then Some(r.value) else None)
  }

  /** Hashes are handed out in order. */
  ghost predicate Ordered(c: Chain) {
    (forall t :: t in c.inflight ==> t < c.next && t !in c.succeeded) && forall t :: t in c.succeeded ==> t < c.next
  }

  lemma {:induction false} LandingsOrdered(c: Chain, txs: seq<TxHash>, but: Option<TxHash>)
    requires Ordered(c)
    ensures Ordered(LandedBut(c, txs, but))
  {
    if txs != [] { LandingsOrdered(c, txs[..|txs| - 1], but); }
  }

  lemma {:induction false} WaitOrdered(c: Chain, tx: TxHash, ticks: seq<Tick>, i: nat)
    requires Ordered(c)
    ensures Ordered(Waited(c, tx, ticks, i).0)
    decreases POLLS - i
  {
    hide LandedBut;
    if i < POLLS {
      LandingsOrdered(c, TickAt(ticks, i).others, Some(tx));
      WaitOrdered(Ticked(c, tx, TickAt(ticks, i)), tx, ticks, i + 1);
    }
  }

  lemma {:induction false} CallOrdered(c: Chain, call: Contract.Call, env: CallEnv)
    requires Ordered(c)
    ensures Ordered(Invoked(c, call, env).0)
  {
    hide LandedBut, Waited;
    LandingsOrdered(c, env.before, None);
    var d := LandedBut(c, env.before, None);
    WaitOrdered(Sent(d, call), d.next, env.ticks, 0);
  }

  lemma {:induction false} WroteOrdered(c: Chain, o: OrderIntent, env: WriteEnv)
    requires Ordered(c)
    ensures Ordered(BeforeVerdict(c, o, env)) && Ordered(Wrote(c, o, env).0)
  {
    hide Ordered, Invoked, OpenCall, VerdictCall;
    CallOrdered(c, OpenCall(o), env.create);
    CallOrdered(Registered(c, o, env), DetectCall(o.id), env.detect);
    if Judged(o) { CallOrdered(BeforeVerdict(c, o, env), VerdictCall(o), env.verdict); }
  }

  /** The entry has the payment detected, and no verdict yet. */
  ghost predicate DetectedIn(store: Contract.Store, id: string) { id in store && store[id].status.PaymentDetected? }

  /** The entry shows the verdict of the row. */
  ghost predicate Shows(store: Contract.Store, o: OrderIntent) {
    Judged(o) && o.id in store && store[o.id].status == ChainStatus(o.status, o.rejectReason)
  }

  /**
   * The third call decides alone: if it is clean, the write succeeds exactly if the entry has the payment detected
   * when it is made, whatever the first two calls reported.
   */
  lemma {:induction false} ThirdCallDecides(c: Chain, o: OrderIntent, env: WriteEnv)
    requires Ordered(c) && Judged(o) && Clean(env.verdict)
    ensures var now, (after, r) := BeforeVerdict(c, o, env).store, Wrote(c, o, env);
            && (r.Ok? <==> DetectedIn(now, o.id))
            && (r.Ok? ==> Shows(after.store, o))
  {
    hide BeforeVerdict, Invoked;
    WroteOrdered(c, o, env);
    CleanCall(BeforeVerdict(c, o, env), VerdictCall(o), env.verdict);
  }

  /** A call that is not accepted and before which nothing lands changes nothing, whatever the network does. */
  lemma {:induction false} RefusedCall(c: Chain, call: Contract.Call, env: CallEnv)
    requires env.before == [] && !Contract.Accepts(c.store, call)
    ensures Invoked(c, call, env).0 == c
  {
    hide Waited;
    Nothing(c);
  }

  /**
   * From wherever the entry stands, only the calls it still needs have to be clean; those it does not need may be
   * lost, refused or reported in any way, as long as nothing else lands before them.
   */
  lemma {:induction false} NeededCallsSuffice(c: Chain, o: OrderIntent, env: WriteEnv)
    requires Ordered(c) && Judged(o) && Healable(c.store, o.id, o.buyerWallet)
    requires if o.id in c.store then env.create.before == [] else Clean(env.create)
    requires if DetectedIn(c.store, o.id) then env.detect.before == []
             else Clean(env.detect)
    requires Clean(env.verdict)
    ensures Wrote(c, o, env).1.Ok? && Shows(Wrote(c, o, env).0.store, o)
    ensures DetectedIn(c.store, o.id) ==> BeforeVerdict(c, o, env) == c
  {
    hide Invoked, Clean, Wrote, Strkey.Decodes;
    if o.id in c.store {
      RefusedCall(c, OpenCall(o), env.create);
    } else {
      CleanCall(c, OpenCall(o), env.create);
    }
    CallOrdered(c, OpenCall(o), env.create);
    var a := Registered(c, o, env);
    if DetectedIn(c.store, o.id) {
      RefusedCall(a, DetectCall(o.id), env.detect);
    } else {
      CleanCall(a, DetectCall(o.id), env.detect);
    }
    ThirdCallDecides(c, o, env);
  }

  /**
   * Self-healing: from any entry short of final (absent, awaiting or detected), the three calls in order
   * bring it to the verdict, each refused one doing no harm, and the first left out if the wallet does not
   * decode; a final entry refuses the last call.
   */
  lemma {:induction false} Healing(o: OrderIntent, store: Contract.Store)
    requires Judged(o)
    ensures var s1 := if Strkey.Decodes(o.buyerWallet) then Contract.Apply(store, OpenCall(o)) else store;
            var s2 := Contract.Apply(s1, DetectCall(o.id));
            Contract.Accepts(s2, VerdictCall(o)) <==> Healable(store, o.id, o.buyerWallet)
  {}

  /** The three calls of an order touch its own entry only. */
  lemma {:induction false} OthersSame(o: OrderIntent, store: Contract.Store)
    requires Judged(o)
    ensures var s1 := if Strkey.Decodes(o.buyerWallet) then Contract.Apply(store, OpenCall(o)) else store;
            var s2 := Contract.Apply(s1, DetectCall(o.id));
            forall k :: k != o.id ==> SameEntry(store, Contract.Apply(s2, VerdictCall(o)), k)
  {
    hide Strkey.Decodes, Contract.Apply, Contract.Accepts;
    var s1 := if Strkey.Decodes(o.buyerWallet) then Contract.Apply(store, OpenCall(o)) else store;
    var s2 := Contract.Apply(s1, DetectCall(o.id));
    OneEntry(store, OpenCall(o));
    OneEntry(s1, DetectCall(o.id));
    OneEntry(s2, VerdictCall(o));
  }

  /** Three clean calls succeed exactly from a healable entry, and touch no other. */
  lemma {:induction false} CleanWrite(c: Chain, o: OrderIntent, env: WriteEnv)
    requires Ordered(c) && Judged(o) && CleanCalls(env)
    ensures Wrote(c, o, env).1.Ok? <==> Healable(c.store, o.id, o.buyerWallet)
    ensures Healable(c.store, o.id, o.buyerWallet) ==> Shows(Wrote(c, o, env).0.store, o)
    ensures forall k :: k != o.id ==> SameEntry(c.store, Wrote(c, o, env).0.store, k)
  {
    hide Invoked, Clean, Strkey.Decodes, Contract.Apply, Contract.Accepts, Healable, SameEntry;
    Healing(o, c.store);
    OthersSame(o, c.store);
    CleanCall(c, OpenCall(o), env.create);
    CleanStore(c, OpenCall(o));
    CallOrdered(c, OpenCall(o), env.create);
    var a := Registered(c, o, env);
    CleanCall(a, DetectCall(o.id), env.detect);
    CleanStore(a, DetectCall(o.id));
    CallOrdered(a, DetectCall(o.id), env.detect);
    var b := BeforeVerdict(c, o, env);
    CleanCall(b, VerdictCall(o), env.verdict);
    CleanStore(b, VerdictCall(o));
    ThirdCallDecides(c, o, env);
  }

  /** What a write told by its third call comes to, from wherever it starts. */
  lemma {:induction false} WriteOutcomes(c: Chain, o: OrderIntent, env: WriteEnv)
    requires Ordered(c) && Judged(o)
    ensures Clean(env.verdict) ==>
      var now := BeforeVerdict(c, o, env).store;
      Wrote(c, o, env).1.Ok? <==> DetectedIn(now, o.id)
    ensures Clean(env.verdict) && DetectedIn(c.store, o.id)
            && env.create.before == [] && env.detect.before == [] ==>
      Wrote(c, o, env).1.Ok?
    ensures CleanCalls(env) ==>
      && (Wrote(c, o, env).1.Ok? <==> Healable(c.store, o.id, o.buyerWallet))
      && forall k :: k != o.id ==> SameEntry(c.store, Wrote(c, o, env).0.store, k)
  {
    hide Ordered, Judged, Clean, BeforeVerdict, Wrote, SameEntry, Strkey.Decodes;
    if Clean(env.verdict) {
      ThirdCallDecides(c, o, env);
      if DetectedIn(c.store, o.id) && env.create.before == [] && env.detect.before == [] {
        NeededCallsSuffice(c, o, env);
      }
    }
    if CleanCalls(env) { CleanWrite(c, o, env); }
  }

  // --- One payment, and a page of them -------------------------------------------------------

  /** The failing statement is one that is executed, so the transaction fails. */
  predicate Strikes(db: Db, p: Payment, fault: Fault) {
    var copy := FindByMemo(db.orders, p.memo);
    match fault
    case NoFault => false
    case InsertFails => true
    case DetectFails => !Seen(db.evidence, p.id) && copy.Some? && Match(Observe(p), copy).0 != VerdictDuplicate
    case VerdictFails => !Seen(db.evidence, p.id) && Settles(db.orders, p, copy)
    case CursorFails => true
  }

  lemma {:induction false} NothingStrikes(db: Db, p: Payment, fault: Fault)
    ensures Strikes(db, p, fault) ==> fault != NoFault
  {}

  /** A payment whose transaction commits, and the write of the order it settles. */
  ghost function Processed(on: bool, db: Db, c: Chain, p: Payment, stream: string, env: WriteEnv): (Db, Chain) {
    var copy := FindByMemo(db.orders, p.memo);
    var committed := CommitTx(db, p, copy, stream);
    if !Seen(db.evidence, p.id) && Settles(db.orders, p, copy) then
      var (after, chain, _) := Writes(on, committed, c, copy.value.id, env);
      (after, chain)
    else (committed, c)
  }

  /** The payments of a page one after the other, up to the first that fails; and how many did not. */
  ghost function Handled(on: bool, db: Db, c: Chain, page: seq<Payment>, stream: string, each: nat -> ProcessEnv)
    : (h: (Db, Chain, nat))
    ensures h.2 <= |page|
  {
    if page == [] then (db, c, 0)
    else
      var n := |page| - 1;
      var (a, b, k) := Handled(on, db, c, page[..n], stream, each);
      if k < n || Strikes(a, page[n], each(n).fault) then (a, b, k)
      else
        var (after, chain) := Processed(on, a, b, page[n], stream, each(n).write);
        (after, chain, n + 1)
  }

  lemma {:induction false} ProcessedIs(on: bool, db: Db, c: Chain, p: Payment, stream: string, env: WriteEnv)
    ensures var copy := FindByMemo(db.orders, p.memo);
            var committed, h := CommitTx(db, p, copy, stream), Processed(on, db, c, p, stream, env);
            if !Seen(db.evidence, p.id) && Settles(db.orders, p, copy) then
              var w := Writes(on, committed, c, copy.value.id, env);
              h.0 == w.0 && h.1 == w.1
            else h.0 == committed && h.1 == c
  {
    hide CommitTx, Settles, Seen, Writes;
  }

  lemma {:induction false} HandledNothing(on: bool, db: Db, c: Chain, page: seq<Payment>, stream: string,
    each: nat -> ProcessEnv)
    ensures Handled(on, db, c, page[..0], stream, each) == (db, c, 0)
  {}

  /** Once a payment fails, the rest of the page is left. */
  lemma {:induction false} HandledStops(on: bool, db: Db, c: Chain, page: seq<Payment>, stream: string,
    each: nat -> ProcessEnv, n: nat)
    requires n < |page| && Handled(on, db, c, page[..n], stream, each).2 == n
    requires Strikes(Handled(on, db, c, page[..n], stream, each).0, page[n], each(n).fault)
    ensures Handled(on, db, c, page, stream, each) == Handled(on, db, c, page[..n], stream, each)
    decreases |page|
  {
    hide Strikes, Processed;
    var m := |page| - 1;
    if n < m {
      assert page[..m][..n] == page[..n];
      HandledStops(on, db, c, page[..m], stream, each, n);
    }
  }

  /**
   * From one table and registry to the next: an order that was settled on the way is on chain with its verdict if its
   * entry could be healed, and has its hash if hashes are saved; every other row and entry is as it was.
   */
  ghost predicate Recorded(a: Orders, s: Contract.Store, b: Orders, t: Contract.Store, saved: bool) {
    forall id :: id in a ==>
      && id in b
      && if a[id].status == AwaitingPayment && b[id].status != AwaitingPayment then
           Healable(s, id, a[id].buyerWallet) ==> Shows(t, b[id]) && (saved ==> b[id].onChainTxHash.Some?)
         else b[id] == a[id] && SameEntry(s, t, id)
  }

  lemma {:induction false} RecordedNothing(a: Orders, s: Contract.Store, saved: bool)
    ensures Recorded(a, s, a, s, saved)
  {}

  lemma {:induction false} RecordedThen(a: Orders, s: Contract.Store, b: Orders, t: Contract.Store, c: Orders,
    u: Contract.Store, saved: bool)
    requires Recorded(a, s, b, t, saved) && Recorded(b, t, c, u, saved)
    requires forall id :: id in a ==> id in b && b[id].id == id
    ensures Recorded(a, s, c, u, saved)
  {
    hide Judged, Strkey.Decodes;
  }

  /** Rows are kept under their own ids. */
  ghost predicate Keyed(orders: Orders) { forall id :: id in orders ==> orders[id].id == id }

  /** What a commit makes of the order it settles. */
  lemma {:induction false} SettledRow(db: Db, p: Payment, stream: string)
    requires Keyed(db.orders) && !Seen(db.evidence, p.id) && Settles(db.orders, p, FindByMemo(db.orders, p.memo))
    ensures var copy := FindByMemo(db.orders, p.memo);
            copy.Some? &&
            var id, after := copy.value.id, CommitTx(db, p, copy, stream).orders;
            && id in db.orders && db.orders[id].status == AwaitingPayment && id in after && Judged(after[id])
            && after[id].id == id && after[id].buyerWallet == db.orders[id].buyerWallet
            && after == db.orders[id := after[id]]
  {
    var copy := FindByMemo(db.orders, p.memo);
    MatchMeaning(Observe(p), copy);
  }

  lemma {:induction false} CommitSame(db: Db, p: Payment, stream: string)
    requires Seen(db.evidence, p.id) || !Settles(db.orders, p, FindByMemo(db.orders, p.memo))
    ensures CommitTx(db, p, FindByMemo(db.orders, p.memo), stream).orders == db.orders
  {}

  /** One row settled and written, nothing else touched. */
  lemma {:induction false} RecordedOne(a: Orders, s: Contract.Store, id: string, row: OrderIntent, t: Contract.Store,
    saved: bool)
    requires id in a && a[id].status == AwaitingPayment && row.id == id && Judged(row)
    requires Healable(s, id, a[id].buyerWallet) ==> Shows(t, row) && (saved ==> row.onChainTxHash.Some?)
    requires forall k :: k != id ==> SameEntry(s, t, k)
    ensures Recorded(a, s, a[id := row], t, saved)
  {
    hide Healable, SameEntry, Shows;
  }

  lemma {:induction false} HashShows(store: Contract.Store, o: OrderIntent, tx: TxHash)
    requires Shows(store, o)
    ensures Shows(store, o.(onChainTxHash := Some(tx))) && Judged(o.(onChainTxHash := Some(tx)))
  {}

  /** A payment whose writes are clean. */
  lemma {:induction false} CleanPayment(db: Db, c: Chain, p: Payment, stream: string, env: WriteEnv)
    requires Keyed(db.orders) && Ordered(c) && CleanCalls(env)
    ensures var (after, chain) := Processed(true, db, c, p, stream, env);
            && Recorded(db.orders, c.store, after.orders, chain.store, env.saved)
            && Keyed(after.orders) && Ordered(chain)
  {
    hide Ordered, Wrote, CleanCalls, Match, CommitTx, Settles, Seen, FindByMemo, Healable, SameEntry, Recorded, Shows,
      Judged;
    var copy := FindByMemo(db.orders, p.memo);
    if !Seen(db.evidence, p.id) && Settles(db.orders, p, copy) {
      SettledRow(db, p, stream);
      var o := CommitTx(db, p, copy, stream).orders[copy.value.id];
      CleanWrite(c, o, env);
      WroteOrdered(c, o, env);
      var (chain, r) := Wrote(c, o, env);
      var row := if r.Ok? && env.saved then o.(onChainTxHash := Some(r.value)) else o;
      if r.Ok? { HashShows(chain.store, o, r.value); }
      RecordedOne(db.orders, c.store, o.id, row, chain.store, env.saved);
      assert Processed(true, db, c, p, stream, env).0.orders == db.orders[o.id := row];
    } else {
      CommitSame(db, p, stream);
      RecordedNothing(db.orders, c.store, env.saved);
    }
  }

  /** A page whose writes are clean, whatever its transactions meet. */
  lemma {:induction false} CleanPage(db: Db, c: Chain, page: seq<Payment>, stream: string, each: nat -> ProcessEnv,
    saved: bool)
    requires Keyed(db.orders) && Ordered(c) && (saved ==> forall i: nat :: each(i).write.saved)
    requires forall i: nat :: CleanCalls(each(i).write)
    ensures var (after, chain, _) := Handled(true, db, c, page, stream, each);
            && Recorded(db.orders, c.store, after.orders, chain.store, saved)
            && Keyed(after.orders) && Ordered(chain)
  {
    hide CleanCalls, Ordered, Processed, Recorded, Strikes;
    if page == [] {
      RecordedNothing(db.orders, c.store, saved);
    } else {
      var n := |page| - 1;
      CleanPage(db, c, page[..n], stream, each, saved);
      var (a, b, k) := Handled(true, db, c, page[..n], stream, each);
      if k == n && !Strikes(a, page[n], each(n).fault) {
        CleanPayment(a, b, page[n], stream, each(n).write);
        var (after, chain) := Processed(true, a, b, page[n], stream, each(n).write);
        RecordedLess(a.orders, b.store, after.orders, chain.store, each(n).write.saved, saved);
        RecordedKeys(db.orders, c.store, a.orders, b.store, saved);
        RecordedThen(db.orders, c.store, a.orders, b.store, after.orders, chain.store, saved);
      }
    }
  }

  lemma {:induction false} PageOutcomes(on: bool, db: Db, c: Chain, page: seq<Payment>, stream: string,
    each: nat -> ProcessEnv)
    requires Keyed(db.orders) && Ordered(c)
    ensures page == [] ==> Handled(on, db, c, page, stream, each) == (db, c, 0)
    ensures on && (forall i: nat :: CleanCalls(each(i).write)) ==>
      var (after, chain, _) := Handled(on, db, c, page, stream, each);
      Recorded(db.orders, c.store, after.orders, chain.store, forall i: nat :: each(i).write.saved)
  {
    hide CleanCalls, Ordered, Recorded, Keyed;
    if on && forall i: nat :: CleanCalls(each(i).write) {
      CleanPage(db, c, page, stream, each, forall i: nat :: each(i).write.saved);
    }
  }

  lemma {:induction false} RecordedLess(a: Orders, s: Contract.Store, b: Orders, t: Contract.Store, saved: bool,
    less: bool)
    requires Recorded(a, s, b, t, saved) && (less ==> saved)
    ensures Recorded(a, s, b, t, less)
  {}

  lemma {:induction false} RecordedKeys(a: Orders, s: Contract.Store, b: Orders, t: Contract.Store, saved: bool)
    requires Recorded(a, s, b, t, saved)
    ensures forall id :: id in a ==> id in b
  {}

  // --- One sweep -----------------------------------------------------------------------------

  /** The tries of a sweep over these rows: table, chain, and what became of each. */
  ghost function Swept(db: Db, c: Chain, rows: seq<OrderIntent>, failed: map<string, nat>, each: nat -> WriteEnv)
    : (Db, Chain, seq<Try>)
  {
    if rows == [] then (db, c, [])
    else
      var n := |rows| - 1;
      var (a, b, tries) := Swept(db, c, rows[..n], failed, each);
      if Exhausted(failed, rows[n].id) || |tries| >= BATCH then (a, b, tries)
      else
        var (after, chain, ack) := Writes(true, a, b, rows[n].id, each(n));
        (after, chain, tries + [Try(rows[n].id, ack)])
  }

  /** Without a fault the whole page is handled. */
  lemma {:induction false} FaultFreePage(on: bool, db: Db, c: Chain, page: seq<Payment>, stream: string,
    each: nat -> ProcessEnv)
    requires forall i: nat :: i < |page| ==> each(i).fault == NoFault
    ensures Handled(on, db, c, page, stream, each).2 == |page|
  {
    hide Processed;
    if page != [] {
      var n := |page| - 1;
      FaultFreePage(on, db, c, page[..n], stream, each);
      NothingStrikes(Handled(on, db, c, page[..n], stream, each).0, page[n], each(n).fault);
    }
  }

  /** One more payment. */
  lemma {:induction false} HandledNext(on: bool, db: Db, c: Chain, page: seq<Payment>, stream: string,
    each: nat -> ProcessEnv, n: nat)
    requires n < |page| && Handled(on, db, c, page[..n], stream, each).2 == n
    requires var a := Handled(on, db, c, page[..n], stream, each).0; !Strikes(a, page[n], each(n).fault)
    ensures var h, now := Handled(on, db, c, page[..n], stream, each), Handled(on, db, c, page[..n + 1], stream, each);
            var next := Processed(on, h.0, h.1, page[n], stream, each(n).write);
            now.0 == next.0 && now.1 == next.1 && now.2 == n + 1
  {
    hide Strikes, Processed;
    assert page[..n + 1][..n] == page[..n];
  }

  lemma {:induction false} SweptNothing(db: Db, c: Chain, rows: seq<OrderIntent>, failed: map<string, nat>,
    each: nat -> WriteEnv)
    ensures Swept(db, c, rows[..0], failed, each) == (db, c, [])
  {}

  /** One more row: passed over, or tried. */
  lemma {:induction false} SweptNext(db: Db, c: Chain, rows: seq<OrderIntent>, failed: map<string, nat>,
    each: nat -> WriteEnv, n: nat)
    requires n < |rows|
    requires |Swept(db, c, rows[..n], failed, each).2| < BATCH || Exhausted(failed, rows[n].id)
    ensures var s, now := Swept(db, c, rows[..n], failed, each), Swept(db, c, rows[..n + 1], failed, each);
            if Exhausted(failed, rows[n].id) then now == s
            else
              var w := Writes(true, s.0, s.1, rows[n].id, each(n));
              now.0 == w.0 && now.1 == w.1 && now.2 == s.2 + [Try(rows[n].id, w.2)]
  {
    hide Writes, Exhausted;
    assert rows[..n + 1][..n] == rows[..n];
  }

  /** With five tries made, the rest of the rows is left. */
  lemma {:induction false} SweptFull(db: Db, c: Chain, rows: seq<OrderIntent>, failed: map<string, nat>,
    each: nat -> WriteEnv, n: nat)
    requires n <= |rows| && |Swept(db, c, rows[..n], failed, each).2| >= BATCH
    ensures Swept(db, c, rows, failed, each) == Swept(db, c, rows[..n], failed, each)
    decreases |rows|
  {
    hide Writes;
    if n == |rows| {
      assert rows[..n] == rows;
    } else {
      var m := |rows| - 1;
      assert rows[..m][..n] == rows[..n];
      SweptFull(db, c, rows[..m], failed, each, n);
    }
  }
}
