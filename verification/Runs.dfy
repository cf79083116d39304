/**
 * Runs the program can make, put together step by step: replays of known payments, failed writes, sweeps row by
 * row, and a write that meets no fault.
 */
module Runs {
  import opened Wrappers
  import opened Models
  import opened Backlog
  import opened Horizon
  import opened Ingest
  import opened Protocol
  import opened Safety
  import opened Steps
  import opened Waits
  import opened Paging
  import opened Sweep
  import opened Recovery
  import Contract
  import Strkey

  // --- Putting runs together -------------------------------------------------------------------

  /** Some run leads from s to t. */
  ghost predicate Leads(s: State, t: State) { exists run :: Legal(s, run) && Exec(s, run) == t }

  lemma {:induction false} LeadsSame(s: State)
    ensures Leads(s, s)
  {
    assert Legal(s, []) && Exec(s, []) == s;
  }

  lemma {:induction false} LeadsThen(a: State, b: State, c: State)
    requires Leads(a, b) && Leads(b, c)
    ensures Leads(a, c)
  {
    var before :| Legal(a, before) && Exec(a, before) == b;
    var run :| Legal(b, run) && Exec(b, run) == c;
    ExecConcat(a, before, run);
  }

  lemma {:induction false} LeadsReach(streams: map<string, string>, s: State, t: State)
    requires Reachable(streams, s) && Leads(s, t)
    ensures Reachable(streams, t)
  {
    var run :| Legal(s, run) && Exec(s, run) == t;
    ReachRun(streams, s, run);
  }

  /** One more step of a run from s. */
  lemma {:induction false} Go(s: State, t: State, step: Step) returns (u: State)
    requires Leads(s, t) && Enabled(t, step)
    ensures u == Next(t, step) && Leads(s, u)
  {
    hide Enabled, Next, Legal, Exec;
    u := Next(t, step);
    OneStep(t, step);
    assert Leads(t, u);
    LeadsThen(s, t, u);
  }

  lemma {:induction false} OneStep(t: State, step: Step)
    requires Enabled(t, step)
    ensures Legal(t, [step]) && Exec(t, [step]) == Next(t, step)
  {
    hide Enabled, Next;
    var u := Next(t, step);
    assert Legal(u, []) && Exec(u, []) == u;
    assert [step][0] == step && [step][1..] == [];
  }

  /** The steps of a write that end a wait, miss a call, or end the write in vain. */
  lemma {:induction false} GoHush(s: State, t: State, w: string) returns (u: State)
    requires Leads(s, t) && Writing(t, w)
    ensures Leads(s, u) && u == At(t, w, t.watchers[w].job, None)
  {
    hide Leads;
    u := Go(s, t, GiveUp(w));
  }

  lemma {:induction false} GoMiss(s: State, t: State, w: string) returns (u: State)
    requires Leads(s, t) && Writing(t, w) && t.watchers[w].wait == None && t.watchers[w].job.value.stage < CALLS
    ensures Leads(s, u) && u == Advanced(t, w, None)
  {
    hide Leads;
    u := Go(s, t, Miss(w));
  }

  lemma {:induction false} GoEnd(s: State, t: State, w: string) returns (u: State)
    requires Leads(s, t) && Writing(t, w) && t.watchers[w].wait == None && t.watchers[w].job.value.stage == CALLS
    ensures Leads(s, u)
      && u == With(t, w, if t.watchers[w].job.value.retry then Counted(t.watchers[w], t.watchers[w].job.value.id, false)
                                           else t.watchers[w].(job := None, wait := None))
  {
    hide Leads, Counted;
    if t.watchers[w].job.value.retry {
      u := Go(s, t, Attempt(w, None, false));
    } else {
      u := Go(s, t, EndWrite(w));
    }
  }

  lemma {:induction false} GoTry(s: State, t: State, w: string) returns (u: State)
    requires Leads(s, t) && w in t.watchers && t.watchers[w].job == None && t.watchers[w].todo != []
      && t.watchers[w].done < BATCH
    requires !Exhausted(t.watchers[w].failed, t.watchers[w].todo[0])
    ensures Leads(s, u)
    ensures var l := t.watchers[w];
            u == With(t, w, l.(todo := l.todo[1..], done := l.done + 1, job := Some(Job(l.todo[0], 0, true))))
  {
    hide Leads;
    u := Go(s, t, TryNext(w));
  }

  // --- Steps that change nothing but one watcher -------------------------------------------------

  /** Only watcher w moved, and what it knows of its cursor. */
  ghost predicate Alone(s: State, t: State, w: string) {
    && t.raw == s.raw && t.db.orders == s.db.orders && t.db.evidence == s.db.evidence && t.chain == s.chain
       && t.acked == s.acked
    && t.watchers.Keys == s.watchers.Keys && forall v :: v in s.watchers && v != w ==> t.watchers[v] == s.watchers[v]
  }

  /** Every payment on the ledger was taken. */
  ghost predicate AllSeen(s: State) { forall p :: p in Payments(s.raw) ==> Seen(s.db.evidence, p.id) }

  /** A page of known payments is gone through without any effect but on the cursor. */
  lemma {:induction false} Replay(s: State, w: string) returns (t: State)
    requires w in s.watchers && s.watchers[w].read == None && s.watchers[w].job == None
    requires forall i :: 0 <= i < |s.watchers[w].page| ==> Seen(s.db.evidence, s.watchers[w].page[i].id)
    ensures Leads(s, t) && Alone(s, t, w) && t.watchers[w] == s.watchers[w].(page := [])
    ensures Cursor(t.db, s.watchers[w].stream) ==
      if s.watchers[w].page == [] then Cursor(s.db, s.watchers[w].stream)
      else s.watchers[w].page[|s.watchers[w].page| - 1].token
    decreases |s.watchers[w].page|
  {
    hide Seen, FindByMemo, Settles;
    LeadsSame(s);
    var l := s.watchers[w];
    if l.page == [] {
      t := s;
      assert l.(page := []) == l && With(s, w, l) == s;
    } else {
      var u := Go(s, s, Lookup(w));
      u := Go(s, u, Commit(w));
      assert u.watchers[w] == l.(page := l.page[1..]);
      t := Replay(u, w);
      LeadsThen(s, u, t);
    }
  }

  /** Polls until one reads less than a page, with every payment known. */
  lemma {:induction false} PollUp(s: State, w: string) returns (t: State)
    requires Resting(s, w) && AllSeen(s) && LedgerOk(s.raw)
    ensures Leads(s, t) && Alone(s, t, w) && t.watchers[w] == s.watchers[w].(caught := true, todo := [])
    decreases Pending(s.raw, Cursor(s.db, s.watchers[w].stream))
  {
    hide LedgerOk, Payments, Page, Seen, Pending;
    LeadsSame(s);
    var l := s.watchers[w];
    var cursor := Cursor(s.db, l.stream);
    PageFromLedger(s.raw, cursor, PAGE_LIMIT);
    var u := Go(s, s, Poll(w, false));
    var page := Payments(Page(s.raw, cursor, PAGE_LIMIT));
    var v := Replay(u, w);
    LeadsThen(s, u, v);
    if |page| < PAGE_LIMIT {
      t := v;
    } else {
      PageProgress(s.raw, cursor, PAGE_LIMIT);
      t := PollUp(v, w);
      LeadsThen(s, v, t);
    }
  }

  /** A write none of whose further calls gets out ends, and is counted if a sweep made it. */
  lemma {:induction false} FailedWrite(s: State, w: string) returns (t: State)
    requires Writing(s, w) && s.watchers[w].job.value.stage <= CALLS
    ensures Leads(s, t) && Alone(s, t, w) && t.db == s.db && w in t.watchers
    ensures var l := s.watchers[w];
            t.watchers[w] == if l.job.value.retry then Counted(l, l.job.value.id, false) else l.(job := None,
              wait := None)
    decreases CALLS - s.watchers[w].job.value.stage, if s.watchers[w].wait.Some? then 1 else 0
  {
    hide Counted, Leads, Next, Enabled;
    LeadsSame(s);
    var job := s.watchers[w].job.value;
    if s.watchers[w].wait.Some? {
      var u := GoHush(s, s, w);
      t := FailedWrite(u, w);
      HushedCount(s.watchers[w], job.id);
      LeadsThen(s, u, t);
    } else if job.stage < CALLS {
      var u := GoMiss(s, s, w);
      t := FailedWrite(u, w);
      HushedCount(s.watchers[w], job.id);
      LeadsThen(s, u, t);
    } else {
      t := GoEnd(s, s, w);
    }
  }

  /** How far a write got, and what it waited for, does not show in the count. */
  lemma {:induction false} HushedCount(l: Local, id: string)
    ensures forall job, wait :: Counted(l.(job := job, wait := wait), id, false) == Counted(l, id, false)
  {}

  /** The next row of a sweep is tried, and the try fails. */
  lemma {:induction false} FailedTry(s: State, w: string) returns (t: State)
    requires Enabled(s, TryNext(w)) && s.watchers[w].wait == None
    ensures Leads(s, t) && Alone(s, t, w) && w in t.watchers
    ensures var l := s.watchers[w];
            t.watchers[w] == Counted(l.(todo := l.todo[1..], done := l.done + 1), l.todo[0], false)
  {
    TryMeans(s, w);
    hide Counted, Leads, Next, Enabled;
    LeadsSame(s);
    var u := GoTry(s, s, w);
    t := FailedWrite(u, w);
    HushedCount(s.watchers[w].(todo := s.watchers[w].todo[1..], done := s.watchers[w].done + 1), s.watchers[w].todo[0]);
    LeadsThen(s, u, t);
  }

  lemma {:induction false} TryMeans(s: State, w: string)
    requires Enabled(s, TryNext(w))
    ensures w in s.watchers && s.watchers[w].job == None && s.watchers[w].todo != [] && s.watchers[w].done < BATCH
    ensures !Exhausted(s.watchers[w].failed, s.watchers[w].todo[0])
  {}

  // --- Sweeps, row by row --------------------------------------------------------------------------

  /** The attempts left to these orders. */
  function LeftIn(ids: seq<string>, failed: map<string, nat>): nat {
    if ids == [] then 0
    else
      var id := ids[|ids| - 1];
      LeftIn(ids[..|ids| - 1], failed) + if Exhausted(failed, id) then 0 else MAX_ATTEMPTS - Count(failed, id)
  }

  lemma {:induction false} LeftDrops(ids: seq<string>, failed: map<string, nat>, id: string)
    requires !Exhausted(failed, id)
    ensures var after := failed[id := Count(failed, id) + 1];
            LeftIn(ids, after) <= LeftIn(ids, failed) && (id in ids ==> LeftIn(ids, after) < LeftIn(ids, failed))
  {
    if ids != [] { LeftDrops(ids[..|ids| - 1], failed, id); }
  }

  /** Between two writes of a sweep, with rows from the i-th on to come. */
  ghost predicate AtRow(s: State, w: string, rows: seq<OrderIntent>, i: nat) {
    && w in s.watchers && i <= |rows| && s.watchers[w].todo == Ids(rows)[i..] && s.watchers[w].done <= BATCH
    && s.watchers[w].page == [] && s.watchers[w].read == None && s.watchers[w].job == None && s.watchers[w].wait == None
  }

  /** A new sweep, over the same rows. */
  lemma {:induction false} SweepAgain(s: State, w: string, rows: seq<OrderIntent>) returns (t: State)
    requires Resting(s, w) && s.watchers[w].wait == None && AllSeen(s) && LedgerOk(s.raw)
      && IsSweepQuery(s.db.orders, rows)
    ensures Leads(s, t) && Alone(s, t, w) && AtRow(t, w, rows, 0) && t.watchers[w].done == 0
    ensures t.watchers[w].failed == s.watchers[w].failed
  {
    hide LedgerOk, IsSweepQuery, AllSeen;
    var u := PollUp(s, w);
    t := Go(s, u, Sweep(w, rows));
  }

  lemma {:induction false} AloneThen(s: State, t: State, u: State, w: string)
    requires Alone(s, t, w) && Alone(t, u, w) && Leads(s, t) && Leads(t, u)
    ensures Alone(s, u, w) && Leads(s, u)
  {
    LeadsThen(s, t, u);
  }

  lemma {:induction false} AloneSeen(s: State, t: State, w: string)
    requires Alone(s, t, w) && AllSeen(s)
    ensures AllSeen(t) && t.raw == s.raw && t.db.orders == s.db.orders && t.chain == s.chain
  {}

  /** The next row is passed over. */
  lemma {:induction false} PassRow(s: State, w: string, rows: seq<OrderIntent>, i: nat) returns (t: State)
    requires AtRow(s, w, rows, i) && i < |rows| && Exhausted(s.watchers[w].failed, rows[i].id)
    ensures Leads(s, t) && Alone(s, t, w) && AtRow(t, w, rows, i + 1)
    ensures t.watchers[w].failed == s.watchers[w].failed && t.watchers[w].done == s.watchers[w].done
  {
    LeadsSame(s);
    t := Go(s, s, PassOver(w));
    assert Ids(rows)[i..][1..] == Ids(rows)[i + 1..];
  }

  /** The next row is tried in vain. */
  lemma {:induction false} FailRow(s: State, w: string, rows: seq<OrderIntent>, i: nat) returns (t: State)
    requires AtRow(s, w, rows, i) && i < |rows| && !Exhausted(s.watchers[w].failed, rows[i].id)
      && s.watchers[w].done < BATCH
    ensures Leads(s, t) && Alone(s, t, w) && AtRow(t, w, rows, i + 1) && t.watchers[w].done == s.watchers[w].done + 1
    ensures var f, id := s.watchers[w].failed, rows[i].id; t.watchers[w].failed == f[id := Count(f, id) + 1]
  {
    assert Ids(rows)[i..][1..] == Ids(rows)[i + 1..];
    assert Ids(rows)[i..][0] == rows[i].id;
    t := FailedTry(s, w);
  }

  /**
   * Sweep after sweep, every try failing, until the row at p is next and may be tried; or, if p is the end, until
   * every row is exhausted.
   */
  lemma {:induction false} Walk(s: State, w: string, rows: seq<OrderIntent>, i: nat, p: nat) returns (t: State)
    requires AtRow(s, w, rows, i) && i <= p <= |rows| && AllSeen(s) && LedgerOk(s.raw)
      && IsSweepQuery(s.db.orders, rows)
    requires p < |rows| ==> !Exhausted(s.watchers[w].failed, rows[p].id)
    requires s.watchers[w].done == 0 ==> forall k :: 0 <= k < i ==> Exhausted(s.watchers[w].failed, rows[k].id)
    ensures Leads(s, t) && Alone(s, t, w) && AtRow(t, w, rows, p)
    ensures p < |rows| ==> t.watchers[w].done < BATCH && !Exhausted(t.watchers[w].failed, rows[p].id)
    ensures p == |rows| ==> forall k :: 0 <= k < |rows| ==> Exhausted(t.watchers[w].failed, rows[k].id)
    ensures forall id :: id !in Ids(rows)[..p] ==> Count(t.watchers[w].failed, id) == Count(s.watchers[w].failed, id)
    decreases LeftIn(Ids(rows)[..p], s.watchers[w].failed), if s.watchers[w].done > 0 then 1 else 0, p - i
  {
    hide LedgerOk, AllSeen, IsSweepQuery, Alone, Leads, LeftIn;
    var l := s.watchers[w];
    var u;
    if i == p && (if p < |rows| then l.done < BATCH else l.done == 0) {
      LeadsSame(s);
      AloneSame(s, w);
      t := s;
      return;
    }
    if i < p && Exhausted(l.failed, rows[i].id) {
      u := PassRow(s, w, rows, i);
      AloneSeen(s, u, w);
      t := Walk(u, w, rows, i + 1, p);
    } else if i < p && l.done < BATCH {
      RowApart(s.db.orders, rows, i, p);
      u := FailRow(s, w, rows, i);
      LeftDrops(Ids(rows)[..p], l.failed, rows[i].id);
      AloneSeen(s, u, w);
      t := Walk(u, w, rows, i + 1, p);
    } else {
      assert SweepOver(l);
      u := SweepAgain(s, w, rows);
      AloneSeen(s, u, w);
      t := Walk(u, w, rows, 0, p);
    }
    AloneThen(s, u, t, w);
  }

  lemma {:induction false} AloneSame(s: State, w: string)
    ensures Alone(s, s, w)
  {}

  lemma {:induction false} RowApart(orders: Orders, rows: seq<OrderIntent>, i: nat, p: nat)
    requires IsSweepQuery(orders, rows) && i < p <= |rows|
    ensures rows[i].id in Ids(rows)[..p] && (p < |rows| ==> rows[i].id != rows[p].id)
  {
    assert Ids(rows)[..p][i] == rows[i].id;
  }

  // --- A write that meets no fault --------------------------------------------------------------------

  ghost predicate FinalAt(s: State, id: string) { id in s.chain.store && Contract.Final(s.chain.store[id].status) }

  /** Not final on chain, and registered or fit to be. */
  ghost predicate Registrable(s: State, id: string) {
    !FinalAt(s, id) && (id in s.chain.store || (id in s.db.orders && Strkey.Decodes(s.db.orders[id].buyerWallet)))
  }

  /** Watcher w moved on with its write, and calls of its own landed. */
  ghost predicate Worked(s: State, t: State, w: string) {
    && t.raw == s.raw && t.db == s.db && t.watchers.Keys == s.watchers.Keys
    && (forall v :: v in s.watchers && v != w ==> t.watchers[v] == s.watchers[v])
    && t.chain.inflight == s.chain.inflight
    && (forall tx :: tx in s.chain.succeeded ==>
         tx in t.chain.succeeded && t.chain.succeeded[tx] == s.chain.succeeded[tx])
  }

  /** Fit to make its next call, if the contract accepts it. */
  ghost predicate Callable(s: State, w: string) {
    && Writing(s, w) && s.watchers[w].wait == None && s.watchers[w].job.value.stage < CALLS
    && s.chain.next !in s.chain.inflight && s.chain.next !in s.chain.succeeded
    && var job := s.watchers[w].job.value;
       && job.id in s.db.orders && Judged(s.db.orders[job.id])
       && (Contract.Accepts(s.chain.store, NextCall(s.db.orders, job)) ==>
          Permitted(s.db.orders, NextCall(s.db.orders, job)))
  }

  /** The call at hand sent, accepted and landed, with its sender still waiting. */
  lemma {:induction false} SendAndLand(s: State, w: string) returns (t: State)
    requires Callable(s, w) && Contract.Accepts(s.chain.store, NextCall(s.db.orders, s.watchers[w].job.value))
    ensures Leads(s, t) && Worked(s, t, w)
    ensures var job, c := s.watchers[w].job.value, NextCall(s.db.orders, s.watchers[w].job.value);
            && t.watchers[w].job == Some(job.(stage := job.stage + 1)) && t.watchers[w].wait == Some(s.chain.next)
            && t.chain.store == Contract.Apply(s.chain.store, c)
            && s.chain.next in t.chain.succeeded && t.chain.succeeded[s.chain.next] == c
  {
    hide NextCall, Contract.Accepts, Contract.Apply, Permitted;
    LeadsSame(s);
    var u := Go(s, s, Send(w));
    t := Go(s, u, Land(s.chain.next));
    assert u.chain.inflight - {s.chain.next} == s.chain.inflight;
  }

  /** The call at hand made if the contract accepts it, and left out, as the simulation has it, if not. */
  lemma {:induction false} MakeCall(s: State, w: string) returns (t: State)
    requires Callable(s, w)
    ensures Leads(s, t) && Worked(s, t, w)
    ensures var job := s.watchers[w].job.value;
            t.watchers[w].job == Some(job.(stage := job.stage + 1)) && t.watchers[w].wait == None
    ensures t.chain.store == Contract.Apply(s.chain.store, NextCall(s.db.orders, s.watchers[w].job.value))
  {
    hide NextCall, Contract.Accepts, Contract.Apply, Permitted, Judged, Leads, Next, Enabled;
    var job := s.watchers[w].job.value;
    var call := NextCall(s.db.orders, job);
    OneEntry(s.chain.store, call);
    if Contract.Accepts(s.chain.store, call) {
      var u := SendAndLand(s, w);
      t := GoHush(s, u, w);
    } else {
      LeadsSame(s);
      t := GoMiss(s, s, w);
    }
  }

  /** The order got its hash; beyond that only its own entry changed, and the watcher that wrote it. */
  ghost predicate Synced(s: State, t: State, w: string, id: string) {
    && t.raw == s.raw && t.db.evidence == s.db.evidence && t.watchers.Keys == s.watchers.Keys
    && (forall v :: v in s.watchers && v != w ==> t.watchers[v] == s.watchers[v])
    && id in s.db.orders && t.db.orders.Keys == s.db.orders.Keys && !Unsynced(t.db.orders, id)
    && (forall k :: k in s.db.orders && k != id ==> t.db.orders[k] == s.db.orders[k])
    && (forall k :: k != id ==> SameEntry(s.chain.store, t.chain.store, k))
    && t.chain.inflight == s.chain.inflight
    && (forall tx :: tx in s.chain.succeeded ==>
         tx in t.chain.succeeded && t.chain.succeeded[tx] == s.chain.succeeded[tx])
  }

  /** A watcher waiting for a verdict that landed is told, and saves the hash. */
  lemma {:induction false} SaveIt(s: State, w: string, id: string) returns (t: State)
    requires WaitsOk(s) && w in s.watchers && s.watchers[w].wait.Some? && id in s.db.orders
    requires Carried(s.db.orders, s.chain, id, s.watchers[w].wait.value)
    ensures Leads(s, t) && Synced(s, t, w, id) && t.chain == s.chain
  {
    hide IsVerdictCall, WaitsOk, Leads, SameEntry, Counted, AwaitsHash;
    WaitMeans(s, w);
    LeadsSame(s);
    var tx := s.watchers[w].wait;
    if s.watchers[w].job.value.retry {
      t := Go(s, s, Attempt(w, tx, true));
    } else {
      t := Go(s, s, SaveHash(w, true));
    }
    HashThere(s.db, id, tx.value);
    EntriesAlike(s.chain.store);
  }

  lemma {:induction false} HashThere(db: Db, id: string, tx: TxHash)
    requires id in db.orders
    ensures !Unsynced(WithHash(db, id, tx).orders, id)
  {}

  lemma {:induction false} EntriesAlike(store: Contract.Store)
    ensures forall k :: SameEntry(store, store, k)
  {}

  /** What a reachable state says of an order that waits for its hash, and of the calls for it. */
  lemma {:induction false} WritableRow(streams: map<string, string>, s: State, id: string)
    requires Reachable(streams, s) && Unsynced(s.db.orders, id)
    ensures var o := s.db.orders[id];
            && o.id == id && Judged(o) && Permitted(s.db.orders, DetectCall(id))
               && Permitted(s.db.orders, VerdictCall(o))
            && (Strkey.Decodes(o.buyerWallet) ==> Permitted(s.db.orders, OpenCall(o)))
            && OpenCall(o).id == id && VerdictCall(o).id == id && IsVerdictCall(s.db.orders, VerdictCall(o))
            && s.chain.next !in s.chain.inflight && s.chain.next !in s.chain.succeeded
            && (id in s.chain.store ==> Strkey.Decodes(o.buyerWallet))
  {
    hide Strkey.Decodes;
    UnsyncedRow(streams, s, id);
    if id in s.chain.store { StoredDecodes(streams, s, id); }
    ReachableSafe(streams, s);
    hide EvidenceOk, SettledOk, LocalOk, StoreOk, OnceOk, HashOk, CountersOk, RowOk;
  }

  /** The three calls, each made if the contract accepts it, bring an entry short of final to the verdict. */
  lemma {:induction false} CallsInOrder(o: OrderIntent, store: Contract.Store)
    requires Judged(o) && (o.id in store ==> !Contract.Final(store[o.id].status))
    ensures var s1 := Contract.Apply(store, OpenCall(o));
            var s2 := Contract.Apply(s1, DetectCall(o.id));
            Contract.Accepts(s2, VerdictCall(o))
    ensures var s1 := Contract.Apply(store, OpenCall(o));
            var s2 := Contract.Apply(s1, DetectCall(o.id));
            forall k :: k != o.id ==> SameEntry(store, Contract.Apply(s2, VerdictCall(o)), k)
    ensures o.id in store ==> !Contract.Accepts(store, OpenCall(o))
  {}

  /** A write from its start, with every call that is accepted landing at once. */
  lemma {:induction false} WriteOut(streams: map<string, string>, s: State, w: string, id: string) returns (t: State)
    requires Reachable(streams, s) && Writing(s, w) && s.watchers[w].wait == None
    requires s.watchers[w].job.value.id == id && s.watchers[w].job.value.stage == 0
    requires Unsynced(s.db.orders, id) && Registrable(s, id)
    ensures Leads(s, t) && Synced(s, t, w, id)
  {
    hide Reachable, Contract.Accepts, Contract.Apply, OpenCall, VerdictCall, Permitted, Strkey.Decodes, SameEntry,
      AwaitsHash, Leads,
      IsVerdictCall;
    var o := s.db.orders[id];
    WritableRow(streams, s, id);
    CallsInOrder(o, s.chain.store);
    var a := MakeCall(s, w);
    LeadsReach(streams, s, a);
    WritableRow(streams, a, id);
    var b := MakeCall(a, w);
    LeadsThen(s, a, b);
    LeadsReach(streams, s, b);
    WritableRow(streams, b, id);
    assert b.chain.store == Contract.Apply(Contract.Apply(s.chain.store, OpenCall(o)), DetectCall(id));
    t := FinishWrite(streams, b, w, id);
    LeadsThen(s, b, t);
  }

  /** The last call of a write, accepted, landed, told and saved. */
  lemma {:induction false} FinishWrite(streams: map<string, string>, s: State, w: string, id: string) returns (t: State)
    requires Reachable(streams, s) && Writing(s, w) && s.watchers[w].wait == None
    requires s.watchers[w].job.value.id == id && s.watchers[w].job.value.stage == 2 && Unsynced(s.db.orders, id)
    requires Judged(s.db.orders[id]) && Contract.Accepts(s.chain.store, VerdictCall(s.db.orders[id]))
    ensures Leads(s, t) && Synced(s, t, w, id)
    ensures t.chain.store == Contract.Apply(s.chain.store, VerdictCall(s.db.orders[id]))
  {
    hide Reachable, Contract.Accepts, Contract.Apply, OpenCall, VerdictCall, Permitted, Strkey.Decodes, SameEntry,
      Leads,
      IsVerdictCall, AwaitsHash, WaitsOk;
    WritableRow(streams, s, id);
    OthersApart(s.chain.store, VerdictCall(s.db.orders[id]));
    var c := SendAndLand(s, w);
    LeadsReach(streams, s, c);
    ReachableWaits(streams, c);
    t := SaveIt(c, w, id);
    LeadsThen(s, c, t);
  }

  lemma {:induction false} OthersApart(store: Contract.Store, c: Contract.Call)
    ensures forall k :: k != c.id ==> SameEntry(store, Contract.Apply(store, c), k)
  {
    OneEntry(store, c);
  }

  /** A restarted process brings an order on chain that the query may return. */
  lemma {:induction false} SweepUpTo(streams: map<string, string>, s: State, w: string, id: string) returns (t: State)
    requires Reachable(streams, s) && AllSeen(s) && w in s.watchers
    requires Unsynced(s.db.orders, id) && Registrable(s, id) && |Older(s.db.orders, id)| < WINDOW
    ensures Leads(s, t) && Synced(s, t, w, id)
  {
    hide Reachable, AllSeen, LedgerOk, IsSweepQuery, Strkey.Decodes, Leads, AwaitsHash, Alone, Older, Synced;
    RowsKnown(streams, s);
    var rows := QueryWith(s.db.orders, id);
    var p :| 0 <= p < |rows| && rows[p].id == id;
    var a := Restart(s, w);
    AloneSeen(s, a, w);
    var b := SweepAgain(a, w, rows);
    AloneThen(s, a, b, w);
    AloneSeen(a, b, w);
    var c := Walk(b, w, rows, 0, p);
    AloneThen(s, b, c, w);
    t := TryOut(streams, s, c, w, rows, p);
  }

  /** The process starts again, with its counters empty. */
  lemma {:induction false} Restart(s: State, w: string) returns (t: State)
    requires w in s.watchers
    ensures Leads(s, t) && Alone(s, t, w) && Resting(t, w) && t.watchers[w].wait == None
      && t.watchers[w].failed == map[]
  {
    LeadsSame(s);
    t := Go(s, s, Crash(w, s.watchers[w].stream));
  }

  /** The next row of a sweep is tried, with success. */
  lemma {:induction false} TryOut(streams: map<string, string>, s: State, c: State, w: string, rows: seq<OrderIntent>,
    p: nat)
      returns (t: State)
    requires Reachable(streams, s) && Leads(s, c) && Alone(s, c, w) && AtRow(c, w, rows, p) && p < |rows|
    requires c.watchers[w].done < BATCH && !Exhausted(c.watchers[w].failed, rows[p].id)
    requires Unsynced(s.db.orders, rows[p].id) && Registrable(s, rows[p].id)
    ensures Leads(s, t) && Synced(s, t, w, rows[p].id)
  {
    hide Reachable, Strkey.Decodes, Leads, AwaitsHash, SameEntry;
    var id := rows[p].id;
    assert Ids(rows)[p..][0] == id;
    var d := Go(s, c, TryNext(w));
    LeadsReach(streams, s, d);
    t := WriteOut(streams, d, w, id);
    LeadsThen(s, d, t);
  }

  lemma {:induction false} RowsKnown(streams: map<string, string>, s: State)
    requires Reachable(streams, s)
    ensures LedgerOk(s.raw) && forall k :: k in s.db.orders ==> s.db.orders[k].id == k
  {
    ReachableSafe(streams, s);
    hide LedgerOk, EvidenceOk, SettledOk, LocalOk, StoreOk, CallsOk, OnceOk, HashOk, CountersOk;
    forall k | k in s.db.orders ensures s.db.orders[k].id == k { assert RowOk(k, s.db.orders[k]); }
  }
}
