/**
 * Whether a settled order without a hash can still get one, in any run of the program: exactly when someone is
 * about to finish writing it, or it can still be registered and a sweep will come to it or can be made to.
 */
module Outlook {
  import opened Wrappers
  import opened Models
  import opened Backlog
  import opened Matcher
  import opened Horizon
  import opened Ingest
  import opened Protocol
  import opened Safety
  import opened Steps
  import opened Waits
  import opened Sweep
  import opened Recovery
  import opened Runs
  import Contract
  import Strkey

  /** Some run gives the order a hash. */
  ghost predicate Recoverable(s: State, id: string) {
    exists run :: Legal(s, run) && !Unsynced(Exec(s, run).db.orders, id)
  }

  /** A call of this content is in flight. */
  ghost predicate Flying(c: Chain, call: Contract.Call) { exists tx :: tx in c.inflight && c.inflight[tx] == call }

  /** The entry is there, or on its way, or this write is about to send it. */
  ghost predicate OpenAhead(c: Chain, job: Job, o: OrderIntent) {
    job.id in c.store || Flying(c, OpenCall(o)) || (job.stage == 0 && Strkey.Decodes(o.buyerWallet))
  }

  ghost predicate DetectAhead(c: Chain, job: Job) {
    (job.id in c.store && c.store[job.id].status.PaymentDetected?) || Flying(c, DetectCall(job.id)) || job.stage <= 1
  }

  /** The verdict call is still to be made, or in flight with its sender waiting. */
  ghost predicate VerdictAhead(c: Chain, job: Job, wait: Option<TxHash>, o: OrderIntent)
    requires Judged(o)
  {
    job.stage <= 2 || (wait.Some? && wait.value in c.inflight && c.inflight[wait.value] == VerdictCall(o))
  }

  /** What this write has sent and has yet to send may get the order through. */
  ghost predicate Through(c: Chain, job: Job, wait: Option<TxHash>, o: OrderIntent)
    requires Judged(o)
  {
    OpenAhead(c, job, o) && DetectAhead(c, job) && VerdictAhead(c, job, wait, o)
  }

  /** Watcher w is writing the order, and may be told that its verdict landed. */
  ghost predicate Finishes(s: State, w: string, id: string) {
    && Writing(s, w) && s.watchers[w].job.value.id == id && id in s.db.orders && Judged(s.db.orders[id])
    && if FinalAt(s, id) then s.watchers[w].wait.Some? && Carried(s.db.orders, s.chain, id, s.watchers[w].wait.value)
       else Through(s.chain, s.watchers[w].job.value, s.watchers[w].wait, s.db.orders[id])
  }

  ghost predicate Finishing(s: State, id: string) { exists w :: Finishes(s, w, id) }

  /** How many of these orders a sweep would try. */
  function Trials(ids: seq<string>, failed: map<string, nat>): nat {
    if ids == [] then 0
    else Trials(ids[..|ids| - 1], failed) + if Exhausted(failed, ids[|ids| - 1]) then 0 else 1
  }

  /** A sweep under way will try the order. */
  ghost predicate Reaches(l: Local, id: string) {
    && !Exhausted(l.failed, id)
    && exists p :: 0 <= p < |l.todo| && l.todo[p] == id && l.done + Trials(l.todo[..p], l.failed) < BATCH
  }

  ghost predicate Upcoming(s: State, id: string) { exists w :: w in s.watchers && Reaches(s.watchers[w], id) }

  /** The older orders without a hash that will never get one. */
  ghost function Blockers(s: State, id: string): set<string>
    requires id in s.db.orders
  {
    set k | k in Older(s.db.orders, id) && !Registrable(s, k) && !Finishing(s, k)
  }

  // --- A write under way that can get through ------------------------------------------------------

  lemma {:induction false} RecoverVia(s: State, t: State, id: string)
    requires Leads(s, t) && Recoverable(t, id)
    ensures Recoverable(s, id)
  {
    hide Unsynced;
    var before :| Legal(s, before) && Exec(s, before) == t;
    var run :| Legal(t, run) && !Unsynced(Exec(t, run).db.orders, id);
    ExecConcat(s, before, run);
  }

  lemma {:induction false} SyncedRecovers(s: State, t: State, id: string)
    requires Leads(s, t) && !Unsynced(t.db.orders, id)
    ensures Recoverable(s, id)
  {}

  /** What a watcher waits for, it can give up. */
  lemma {:induction false} Hush(s: State, w: string) returns (t: State)
    requires Writing(s, w)
    ensures Leads(s, t) && Worked(s, t, w) && t.chain == s.chain
    ensures t.watchers[w].job == s.watchers[w].job && t.watchers[w].wait == None
  {
    LeadsSame(s);
    t := Go(s, s, GiveUp(w));
  }

  lemma {:induction false} ReadyToCall(streams: map<string, string>, s: State, w: string, id: string)
    requires Reachable(streams, s) && Unsynced(s.db.orders, id) && Writing(s, w) && s.watchers[w].wait == None
    requires s.watchers[w].job.value.id == id && s.watchers[w].job.value.stage < CALLS
    requires s.watchers[w].job.value.stage == 0 ==> id in s.chain.store || Strkey.Decodes(s.db.orders[id].buyerWallet)
    ensures Callable(s, w)
  {
    hide Reachable, Strkey.Decodes, Permitted, Contract.Accepts, VerdictCall, OpenCall;
    WritableRow(streams, s, id);
  }

  /** A detected entry, and the verdict to be sent or on its way. */
  lemma {:induction false} VerdictLeft(streams: map<string, string>, s: State, w: string, id: string)
    requires Reachable(streams, s) && Unsynced(s.db.orders, id) && Finishes(s, w, id) && !FinalAt(s, id)
    requires id in s.chain.store && s.chain.store[id].status.PaymentDetected?
    ensures Recoverable(s, id)
    decreases CALLS - s.watchers[w].job.value.stage
  {
    hide Reachable, Recoverable, Strkey.Decodes, Permitted, OpenCall, Leads, OpenAhead, DetectAhead, AwaitsHash,
      WaitsOk;
    var job, o := s.watchers[w].job.value, s.db.orders[id];
    WritableRow(streams, s, id);
    if job.stage <= 2 {
      var a := Hush(s, w);
      LeadsReach(streams, s, a);
      ReadyToCall(streams, a, w, id);
      if job.stage == 2 {
        var t := FinishWrite(streams, a, w, id);
        LeadsThen(s, a, t);
        SyncedRecovers(s, t, id);
      } else {
        BothRefused(o, s.chain.store);
        var b := MakeCall(a, w);
        LeadsThen(s, a, b);
        LeadsReach(streams, s, b);
        StillAhead(b, w, id);
        VerdictLeft(streams, b, w, id);
        RecoverVia(s, b, id);
      }
    } else {
      var tx := s.watchers[w].wait.value;
      LeadsSame(s);
      var a := Go(s, s, Land(tx));
      LeadsReach(streams, s, a);
      ReachableWaits(streams, a);
      var t := SaveIt(a, w, id);
      LeadsThen(s, a, t);
      SyncedRecovers(s, t, id);
    }
  }

  lemma {:induction false} BothRefused(o: OrderIntent, store: Contract.Store)
    requires o.id in store && store[o.id].status.PaymentDetected?
    ensures Contract.Apply(store, OpenCall(o)) == store && Contract.Apply(store, DetectCall(o.id)) == store
  {}

  /** With a detected entry and calls left to make, a write can get through. */
  lemma {:induction false} StillAhead(s: State, w: string, id: string)
    requires Writing(s, w) && s.watchers[w].job.value.id == id && s.watchers[w].job.value.stage <= 2
    requires id in s.db.orders && Judged(s.db.orders[id])
    requires id in s.chain.store && s.chain.store[id].status.PaymentDetected?
    ensures Finishes(s, w, id) && !FinalAt(s, id)
  {}

  /** A registered entry, and the detection to be sent or on its way. */
  lemma {:induction false} DetectLeft(streams: map<string, string>, s: State, w: string, id: string)
    requires Reachable(streams, s) && Unsynced(s.db.orders, id) && Finishes(s, w, id) && !FinalAt(s, id)
      && id in s.chain.store
    ensures Recoverable(s, id)
    decreases CALLS - s.watchers[w].job.value.stage
  {
    hide Reachable, Recoverable, Strkey.Decodes, Permitted, OpenCall, VerdictCall, Leads, AwaitsHash, WaitsOk;
    var job := s.watchers[w].job.value;
    if s.chain.store[id].status.PaymentDetected? {
      VerdictLeft(streams, s, w, id);
    } else if Flying(s.chain, DetectCall(id)) {
      var tx :| tx in s.chain.inflight && s.chain.inflight[tx] == DetectCall(id);
      LeadsSame(s);
      var a := Go(s, s, Land(tx));
      LeadsReach(streams, s, a);
      LandedDetect(s, w, id, tx);
      VerdictLeft(streams, a, w, id);
      RecoverVia(s, a, id);
    } else {
      var a := Hush(s, w);
      LeadsReach(streams, s, a);
      ReadyToCall(streams, a, w, id);
      var b := MakeCall(a, w);
      LeadsThen(s, a, b);
      LeadsReach(streams, s, b);
      if job.stage == 0 {
        assert Finishes(b, w, id) && !FinalAt(b, id);
        DetectLeft(streams, b, w, id);
      } else {
        StillAhead(b, w, id);
        VerdictLeft(streams, b, w, id);
      }
      RecoverVia(s, b, id);
    }
  }

  lemma {:induction false} LandedDetect(s: State, w: string, id: string, tx: TxHash)
    requires Finishes(s, w, id) && !FinalAt(s, id) && id in s.chain.store && !s.chain.store[id].status.PaymentDetected?
    requires tx in s.chain.inflight && s.chain.inflight[tx] == DetectCall(id)
    ensures var t := Next(s, Land(tx));
      Finishes(t, w, id) && !FinalAt(t, id) && t.chain.store[id].status.PaymentDetected?
  {
    hide OpenCall, Strkey.Decodes;
    var t := Next(s, Land(tx));
    assert t.chain.store[id].status.PaymentDetected?;
  }

  /** A write that can get through does, in some run. */
  lemma {:induction false} FinishingRecovers(streams: map<string, string>, s: State, id: string)
    requires Reachable(streams, s) && Unsynced(s.db.orders, id) && Finishing(s, id)
    ensures Recoverable(s, id)
  {
    hide Reachable, Recoverable, Strkey.Decodes, Permitted, OpenCall, VerdictCall, Leads, AwaitsHash, WaitsOk;
    var w :| Finishes(s, w, id);
    if FinalAt(s, id) {
      ReachableWaits(streams, s);
      var t := SaveIt(s, w, id);
      SyncedRecovers(s, t, id);
    } else if id in s.chain.store {
      DetectLeft(streams, s, w, id);
    } else if Flying(s.chain, OpenCall(s.db.orders[id])) {
      WritableRow(streams, s, id);
      var tx :| tx in s.chain.inflight && s.chain.inflight[tx] == OpenCall(s.db.orders[id]);
      LeadsSame(s);
      var a := Go(s, s, Land(tx));
      LeadsReach(streams, s, a);
      LandedOpen(s, w, id, tx);
      DetectLeft(streams, a, w, id);
      RecoverVia(s, a, id);
    } else {
      var a := Hush(s, w);
      LeadsReach(streams, s, a);
      ReadyToCall(streams, a, w, id);
      WritableRow(streams, a, id);
      var b := MakeCall(a, w);
      LeadsThen(s, a, b);
      LeadsReach(streams, s, b);
      OpenedEntry(s.db.orders[id], s.chain.store);
      assert Finishes(b, w, id) && !FinalAt(b, id);
      DetectLeft(streams, b, w, id);
      RecoverVia(s, b, id);
    }
  }

  lemma {:induction false} OpenedEntry(o: OrderIntent, store: Contract.Store)
    requires o.id !in store
    ensures var t := Contract.Apply(store, OpenCall(o)); o.id in t && t[o.id].status.AwaitingPayment?
  {}

  lemma {:induction false} LandedOpen(s: State, w: string, id: string, tx: TxHash)
    requires Finishes(s, w, id) && !FinalAt(s, id) && id !in s.chain.store && s.db.orders[id].id == id
    requires tx in s.chain.inflight && s.chain.inflight[tx] == OpenCall(s.db.orders[id])
    ensures var t := Next(s, Land(tx)); Finishes(t, w, id) && !FinalAt(t, id) && id in t.chain.store
  {
    hide Strkey.Decodes;
    OpenedEntry(s.db.orders[id], s.chain.store);
    var t := Next(s, Land(tx));
    if Flying(s.chain, DetectCall(id)) {
      var u :| u in s.chain.inflight && s.chain.inflight[u] == DetectCall(id);
      assert t.chain.inflight[u] == DetectCall(id);
    }
  }

  // --- A sweep under way that will come to it ----------------------------------------------------------

  lemma {:induction false} TrialsFront(ids: seq<string>, failed: map<string, nat>)
    requires ids != []
    ensures Trials(ids, failed) == Trials(ids[1..], failed) + if Exhausted(failed, ids[0]) then 0 else 1
  {
    if |ids| > 1 {
      assert ids[1..][..|ids| - 2] == ids[..|ids| - 1][1..];
      TrialsFront(ids[..|ids| - 1], failed);
    } else {
      assert ids[1..] == [] && ids[..0] == [];
    }
  }

  lemma {:induction false} TrialsElsewhere(ids: seq<string>, f: map<string, nat>, g: map<string, nat>)
    requires forall id :: id in ids ==> Count(f, id) == Count(g, id)
    ensures Trials(ids, f) == Trials(ids, g)
  {
    if ids != [] { TrialsElsewhere(ids[..|ids| - 1], f, g); }
  }

  /** The sweep goes on, every try failing, until the order is next. */
  lemma {:induction false} March(s: State, w: string, id: string, p: nat) returns (t: State)
    requires w in s.watchers && s.watchers[w].job == None && s.watchers[w].wait == None
    requires var l := s.watchers[w];
             && p < |l.todo| && l.todo[p] == id && !Exhausted(l.failed, id)
                && l.done + Trials(l.todo[..p], l.failed) < BATCH
             && forall i, j :: 0 <= i < j < |l.todo| ==> l.todo[i] != l.todo[j]
    ensures Leads(s, t) && Alone(s, t, w) && Enabled(t, TryNext(w)) && t.watchers[w].todo[0] == id
      && t.watchers[w].wait == None
    decreases p
  {
    hide Alone, Leads;
    var l := s.watchers[w];
    if p == 0 {
      LeadsSame(s);
      AloneSame(s, w);
      t := s;
      return;
    }
    TrialsFront(l.todo[..p], l.failed);
    assert l.todo[..p][1..] == l.todo[1..][..p - 1];
    var u;
    if Exhausted(l.failed, l.todo[0]) {
      u := Passed(s, w);
    } else {
      u := FailedTry(s, w);
      TrialsElsewhere(l.todo[1..][..p - 1], l.failed, u.watchers[w].failed);
    }
    t := March(u, w, id, p - 1);
    AloneThen(s, u, t, w);
  }

  lemma {:induction false} Passed(s: State, w: string) returns (t: State)
    requires Enabled(s, PassOver(w))
    ensures Leads(s, t) && Alone(s, t, w) && t.watchers[w] == s.watchers[w].(todo := s.watchers[w].todo[1..])
  {
    LeadsSame(s);
    t := Go(s, s, PassOver(w));
  }

  /** The write under way, if any, ends in vain; what the sweep has yet to come to stays the same. */
  lemma {:induction false} Finished(streams: map<string, string>, s: State, w: string, id: string, p: nat)
    returns (t: State)
    requires Reachable(streams, s) && w in s.watchers
    requires var l := s.watchers[w];
             p < |l.todo| && l.todo[p] == id && !Exhausted(l.failed, id)
               && l.done + Trials(l.todo[..p], l.failed) < BATCH
    ensures Leads(s, t) && Alone(s, t, w)
    ensures var l := t.watchers[w];
            && l.job == None && l.wait == None && p < |l.todo| && l.todo[p] == id && !Exhausted(l.failed, id)
            && l.done + Trials(l.todo[..p], l.failed) < BATCH
            && forall i, j :: 0 <= i < j < |l.todo| ==> l.todo[i] != l.todo[j]
  {
    hide Leads, Alone, Inv, WaitsOk, Reachable;
    ReachableSafe(streams, s);
    WorkAt(s, w);
    ReachableWaits(streams, s);
    var l := s.watchers[w];
    if l.job.Some? {
      TryingApart(s, w);
      t := FailedWrite(s, w);
      TrialsElsewhere(l.todo[..p], l.failed, t.watchers[w].failed);
    } else {
      NoWait(s, w);
      LeadsSame(s);
      AloneSame(s, w);
      t := s;
    }
  }

  lemma {:induction false} NoWait(s: State, w: string)
    requires WaitsOk(s) && w in s.watchers && s.watchers[w].job == None
    ensures s.watchers[w].wait == None
  {
    if s.watchers[w].wait.Some? { WaitMeans(s, w); }
  }

  lemma {:induction false} TryingApart(s: State, w: string)
    requires Inv(s) && w in s.watchers && s.watchers[w].job.Some?
    ensures s.watchers[w].job.value.retry ==> s.watchers[w].job.value.id !in s.watchers[w].todo
  {
    hide EvidenceOk, SettledOk, LocalOk, StoreOk, CallsOk, OnceOk, HashOk, RowOk;
    assert CountersOk(s.db.orders, s.chain, s.acked, s.watchers[w], s.watchers[w].job.value.id);
  }

  lemma {:induction false} UpcomingRecovers(streams: map<string, string>, s: State, id: string)
    requires Reachable(streams, s) && Unsynced(s.db.orders, id) && Registrable(s, id) && Upcoming(s, id)
    ensures Recoverable(s, id)
  {
    hide Reachable, Recoverable, Strkey.Decodes, Leads, AwaitsHash, SameEntry;
    var w :| w in s.watchers && Reaches(s.watchers[w], id);
    var l := s.watchers[w];
    var p :| 0 <= p < |l.todo| && l.todo[p] == id && l.done + Trials(l.todo[..p], l.failed) < BATCH;
    var a := Finished(streams, s, w, id, p);
    var b := March(a, w, id, p);
    AloneThen(s, a, b, w);
    TriedRecovers(streams, s, b, w, id);
  }

  lemma {:induction false} TriedRecovers(streams: map<string, string>, s: State, b: State, w: string, id: string)
    requires Reachable(streams, s) && Unsynced(s.db.orders, id) && Registrable(s, id) && Leads(s, b) && Alone(s, b, w)
    requires Enabled(b, TryNext(w)) && b.watchers[w].todo[0] == id && b.watchers[w].wait == None
    ensures Recoverable(s, id)
  {
    TryMeans(b, w);
    hide Reachable, Recoverable, Strkey.Decodes, Leads, AwaitsHash, SameEntry, Next, Enabled;
    var c := GoTry(s, b, w);
    LeadsReach(streams, s, c);
    var t := WriteOut(streams, c, w, id);
    LeadsThen(s, c, t);
    SyncedRecovers(s, t, id);
  }

  // --- A sweep that can be made to come to it ------------------------------------------------------------

  /** A final entry whose verdict some watcher waits for: it is told, and saves the hash. */
  lemma {:induction false} SaveFinal(streams: map<string, string>, s: State, id: string) returns (t: State, w: string)
    requires Reachable(streams, s) && FinalAt(s, id) && Finishing(s, id)
    ensures Leads(s, t) && Synced(s, t, w, id) && t.chain == s.chain && Finishes(s, w, id)
  {
    hide Reachable, WaitsOk, Leads;
    w :| Finishes(s, w, id);
    ReachableWaits(streams, s);
    t := SaveIt(s, w, id);
  }

  /** A write that can get an entry through that is not final can get it registered. */
  lemma {:induction false} FinishingIsRegistrable(streams: map<string, string>, s: State, id: string)
    requires Reachable(streams, s) && Unsynced(s.db.orders, id) && Finishing(s, id) && !FinalAt(s, id)
    ensures Registrable(s, id)
  {
    ReachableSafe(streams, s);
    hide Inv, Reachable, Strkey.Decodes, VerdictCall, OpenCall, AwaitsHash, Permitted, IsVerdictCall;
    RowHasId(s, id);
    var w :| Finishes(s, w, id);
    if id !in s.chain.store && Flying(s.chain, OpenCall(s.db.orders[id])) {
      var tx :| tx in s.chain.inflight && s.chain.inflight[tx] == OpenCall(s.db.orders[id]);
      PermittedFlight(s, tx);
      OpenDecodes(s.db.orders, id);
    }
  }

  /** Once another order is synced, no order that can still be helped has become a blocker. */
  lemma {:induction false} BlockersShrink(streams: map<string, string>, s: State, t: State, w: string, k: string,
    id: string)
    requires Reachable(streams, s) && Synced(s, t, w, k) && k != id && Unsynced(s.db.orders, id)
    requires t.chain == s.chain || forall j :: j in Older(s.db.orders, id) && FinalAt(s, j) ==> !Finishing(s, j)
    requires Finishes(s, w, k) || forall j :: j in Older(s.db.orders, id) && FinalAt(s, j) ==> !Finishing(s, j)
    ensures id in t.db.orders && Unsynced(t.db.orders, id) && Blockers(t, id) <= Blockers(s, id)
    ensures Registrable(s, id) ==> Registrable(t, id)
  {
    hide Reachable, Strkey.Decodes, Finishes;
    forall j | j in Blockers(t, id) ensures j in Blockers(s, id) {
      assert j != k && Unsynced(s.db.orders, j) && j in Older(s.db.orders, id);
      assert SameEntry(s.chain.store, t.chain.store, j);
      if Finishing(s, j) {
        if FinalAt(s, j) {
          StillFinishing(s, t, w, k, j);
        } else {
          FinishingIsRegistrable(streams, s, j);
        }
      }
    }
    assert SameEntry(s.chain.store, t.chain.store, id);
  }

  /** Whoever was about to be told of another order still is. */
  lemma {:induction false} StillFinishing(s: State, t: State, w: string, k: string, j: string)
    requires Synced(s, t, w, k) && t.chain == s.chain && Finishes(s, w, k) && j != k && FinalAt(s, j) && Finishing(s, j)
    ensures Finishing(t, j)
  {
    hide Strkey.Decodes;
    var v :| Finishes(s, v, j);
    assert v != w;
    assert Finishes(t, v, j);
  }

  /** The oldest of these orders that can be registered. */
  lemma {:induction false} OldestRegistrable(s: State, ids: set<string>) returns (j: string)
    requires ids != {} && forall k :: k in ids ==> k in s.db.orders
    ensures j in ids && forall k :: k in ids ==> s.db.orders[j].createdAt <= s.db.orders[k].createdAt
  {
    OldestExists(s.db.orders, ids);
    j :| j in ids && forall k :: k in ids ==> s.db.orders[j].createdAt <= s.db.orders[k].createdAt;
  }

  /**
   * With the ledger taken and fewer than twenty blockers in front, an order that can be registered gets its hash in
   * some run: those in front that can be helped are helped first.
   */
  lemma {:induction false} SweepsRecover(streams: map<string, string>, s: State, id: string)
    requires Reachable(streams, s) && AllSeen(s) && s.watchers != map[]
    requires Unsynced(s.db.orders, id) && Registrable(s, id) && |Blockers(s, id)| < WINDOW
    ensures Recoverable(s, id)
    decreases |UnsyncedIds(s.db.orders)|
  {
    hide Reachable, AllSeen, Registrable, Finishing, Finishes, FinalAt, Recoverable, Synced, AwaitsHash, Leads;
    if k :| k in Older(s.db.orders, id) && FinalAt(s, k) && Finishing(s, k) {
      var t, w := SaveFinal(streams, s, k);
      BlockersShrink(streams, s, t, w, k, id);
      NextRescue(streams, s, t, w, k, id);
    } else if |Older(s.db.orders, id)| < WINDOW {
      var w :| w in s.watchers;
      var t := SweepUpTo(streams, s, w, id);
      SyncedMeans(s, t, w, id);
      SyncedRecovers(s, t, id);
    } else {
      var k := FrontToHelp(streams, s, id);
      var w :| w in s.watchers;
      var t := SweepUpTo(streams, s, w, k);
      BlockersShrink(streams, s, t, w, k, id);
      NextRescue(streams, s, t, w, k, id);
    }
  }

  lemma {:induction false} SyncedMeans(s: State, t: State, w: string, id: string)
    requires Synced(s, t, w, id)
    ensures !Unsynced(t.db.orders, id) && t.raw == s.raw && t.db.evidence == s.db.evidence
      && t.watchers.Keys == s.watchers.Keys
    ensures forall k :: Unsynced(t.db.orders, k) ==> Unsynced(s.db.orders, k)
  {}

  /** The same for the state after one order in front was helped. */
  lemma {:induction false} NextRescue(streams: map<string, string>, s: State, t: State, w: string, k: string,
    id: string)
    requires Reachable(streams, s) && AllSeen(s) && s.watchers != map[] && Leads(s, t) && Synced(s, t, w, k)
    requires Unsynced(s.db.orders, k) && Unsynced(t.db.orders, id) && Registrable(t, id)
    requires |Blockers(s, id)| < WINDOW && id in s.db.orders && Blockers(t, id) <= Blockers(s, id)
    ensures Recoverable(s, id)
    decreases |UnsyncedIds(s.db.orders)|, 0
  {
    hide Reachable, Registrable, Finishing, Recoverable, AwaitsHash, Leads, Blockers;
    SyncedMeans(s, t, w, k);
    SubsetSize(Blockers(t, id), Blockers(s, id));
    assert UnsyncedIds(t.db.orders) <= UnsyncedIds(s.db.orders) - {k};
    SubsetSize(UnsyncedIds(t.db.orders), UnsyncedIds(s.db.orders) - {k});
    LeadsReach(streams, s, t);
    SweepsRecover(streams, t, id);
    RecoverVia(s, t, id);
  }

  /** Twenty in front, but not twenty blockers: the oldest one that can be registered is within the query's reach. */
  lemma {:induction false} FrontToHelp(streams: map<string, string>, s: State, id: string) returns (k: string)
    requires Reachable(streams, s) && Unsynced(s.db.orders, id)
      && |Blockers(s, id)| < WINDOW <= |Older(s.db.orders, id)|
    requires forall j :: j in Older(s.db.orders, id) && FinalAt(s, j) ==> !Finishing(s, j)
    ensures k in Older(s.db.orders, id) && Registrable(s, k) && |Older(s.db.orders, k)| < WINDOW
  {
    hide Reachable, Registrable, Finishing, FinalAt, AwaitsHash;
    var older := Older(s.db.orders, id);
    forall j | j in older && Finishing(s, j) ensures Registrable(s, j) { FinishingIsRegistrable(streams, s, j); }
    var front := set j | j in older && Registrable(s, j);
    if front == {} {
      forall j | j in older ensures j in Blockers(s, id) { assert j !in front; }
      SubsetSize(older, Blockers(s, id));
    }
    k := OldestRegistrable(s, front);
    assert Older(s.db.orders, k) <= Blockers(s, id);
    SubsetSize(Older(s.db.orders, k), Blockers(s, id));
  }

  // --- What no run changes ---------------------------------------------------------------------------------

  /** Growth of the orders keeps what a write of this order sends. */
  lemma {:induction false} SameWrite(a: Orders, b: Orders, id: string)
    requires OrdersOk(a) && OrdersGrow(a, b) && id in a && Judged(a[id])
    ensures id in b && Judged(b[id]) && OpenCall(b[id]) == OpenCall(a[id]) && VerdictCall(b[id]) == VerdictCall(a[id])
    ensures b[id].buyerWallet == a[id].buyerWallet && b[id].createdAt == a[id].createdAt
  {
    CallsFrame(a, b);
    assert Opening(a[id]).buyerWallet == Opening(b[id]).buyerWallet
      && Opening(a[id]).createdAt == Opening(b[id]).createdAt;
  }

  /** On the same chain, a write no further than before could get through before. */
  lemma {:induction false} WriteBack(s: State, t: State, w: string, id: string)
    requires Inv(s) && OrdersGrow(s.db.orders, t.db.orders) && t.chain == s.chain && Unsynced(s.db.orders, id)
    requires id in s.db.orders && Judged(s.db.orders[id]) && Finishes(t, w, id) && Writing(s, w)
    requires s.watchers[w].job.value.id == id && s.watchers[w].job.value.stage <= t.watchers[w].job.value.stage
    requires t.watchers[w].wait.None? || t.watchers[w].wait == s.watchers[w].wait
    ensures Finishes(s, w, id)
  {
    hide EvidenceOk, SettledOk, LocalOk, StoreOk, CallsOk, OnceOk, HashOk, CountersOk, RowOk, Strkey.Decodes, OpenCall,
      VerdictCall;
    SameWrite(s.db.orders, t.db.orders, id);
  }

  /** A step that leaves the chain alone starts no write that could get this order through, but a try of its own. */
  lemma {:induction false} FinishingBackLocal(s: State, step: Step, w: string, id: string)
    requires Enabled(s, step) && Inv(s) && WaitsOk(s) && Unsynced(s.db.orders, id) && Judged(s.db.orders[id])
    requires !step.Send? && !step.Land? && !step.Drop? && Finishes(Next(s, step), w, id)
    requires step.TryNext? && s.watchers[step.w].todo[0] == id ==> !Registrable(s, id)
    ensures Finishing(s, id)
  {
    FinishesWrites(Next(s, step), w, id);
    hide Inv, Grows, Next, Enabled, AwaitsHash, Finishes, WaitsOk;
    OwnJob(s, step, w, id);
    StepSafe(s, step);
    GrowsOrders(s, Next(s, step));
    if step.TryNext? && step.w == w {
      TryMeans(s, w);
      NoWait(s, w);
      TriedNotRegistrable(s, w, id);
    } else {
      WriteBack(s, Next(s, step), w, id);
    }
  }

  lemma {:induction false} FinishesWrites(s: State, w: string, id: string)
    requires Finishes(s, w, id)
    ensures Writing(s, w) && s.watchers[w].job.value.id == id
  {}

  lemma {:induction false} GrowsOrders(s: State, t: State)
    requires Grows(s, t)
    ensures OrdersGrow(s.db.orders, t.db.orders)
  {}

  /** A job for this order was there before, unless a sweep just took it on. */
  lemma {:induction false} OwnJob(s: State, step: Step, w: string, id: string)
    requires Enabled(s, step) && !step.Send? && !step.Land? && !step.Drop? && Unsynced(s.db.orders, id)
    requires var t := Next(s, step); Writing(t, w) && t.watchers[w].job.value.id == id
    ensures Next(s, step).chain == s.chain
    ensures (step.TryNext? && step.w == w && s.watchers[w].todo[0] == id)
            || (Writing(s, w) && s.watchers[w].job.value.id == id
                && s.watchers[w].job.value.stage <= Next(s, step).watchers[w].job.value.stage
                && (Next(s, step).watchers[w].wait.None? || Next(s, step).watchers[w].wait == s.watchers[w].wait))
  {
    hide CommitTx, LedgerOk, OpeningRow, Payments, Page, FindByMemo, IsSweepQuery, Match, FreshAck, WithHash;
  }

  /** A try of an order that is final, or absent and unfit to register, gets nowhere. */
  lemma {:induction false} TriedNotRegistrable(s: State, w: string, id: string)
    requires Enabled(s, TryNext(w)) && Inv(s) && s.watchers[w].todo[0] == id && s.watchers[w].wait == None
    requires Unsynced(s.db.orders, id) && Judged(s.db.orders[id]) && !Registrable(s, id)
    ensures !Finishes(Next(s, TryNext(w)), w, id)
  {
    hide Inv, Strkey.Decodes, VerdictCall, OpenCall, AwaitsHash, Permitted, IsVerdictCall;
    RowHasId(s, id);
    if Flying(s.chain, OpenCall(s.db.orders[id])) {
      var tx :| tx in s.chain.inflight && s.chain.inflight[tx] == OpenCall(s.db.orders[id]);
      PermittedFlight(s, tx);
      OpenDecodes(s.db.orders, id);
    }
  }

  lemma {:induction false} OpenDecodes(orders: Orders, id: string)
    requires id in orders && Judged(orders[id]) && orders[id].id == id && Permitted(orders, OpenCall(orders[id]))
    ensures Strkey.Decodes(orders[id].buyerWallet)
  {
    hide Strkey.Decodes;
  }

  /** A call just sent adds nothing its own sender could not do before. */
  lemma {:induction false} FinishingBackSent(s: State, v: string, w: string, id: string)
    requires Enabled(s, Send(v)) && Inv(s) && WaitsOk(s) && Unsynced(s.db.orders, id) && Judged(s.db.orders[id])
    requires Finishes(Next(s, Send(v)), w, id)
    ensures Finishing(s, id)
  {
    SendMeans(s, v);
    hide Inv, WaitsOk, Finishes, Next, Enabled, AwaitsHash;
    var l := s.watchers[v];
    CallIsForJob(s, l.job.value);
    RowHasId(s, id);
    SenderDecodes(s.db.orders, l.job.value);
    if v != w && w in s.watchers && s.watchers[w].wait.Some? { SentWait(s, v, w, id); }
    SentBack(s, Next(s, Send(v)), v, NextCall(s.db.orders, l.job.value), w, id);
  }

  lemma {:induction false} SentBack(s: State, t: State, v: string, call: Contract.Call, w: string, id: string)
    requires id in s.db.orders && s.db.orders[id].id == id && Judged(s.db.orders[id])
    requires v in s.watchers && s.watchers[v].job.Some? && s.watchers[v].wait == None
      && s.watchers[v].job.value.stage < CALLS
    requires call.id == s.watchers[v].job.value.id
    requires call.id == id ==> call == CallOf(s.db.orders[id], s.watchers[v].job.value.stage)
    requires call.id == id && s.watchers[v].job.value.stage == 0 ==> Strkey.Decodes(s.db.orders[id].buyerWallet)
    requires s.chain.next !in s.chain.succeeded
    requires v != w && w in s.watchers ==> s.watchers[w].wait != Some(s.chain.next)
    requires t.db == s.db && t.chain == Sent(s.chain, call)
    requires var l := s.watchers[v];
             t.watchers == s.watchers[v :=
               l.(job := Some(l.job.value.(stage := l.job.value.stage + 1)), wait := Some(s.chain.next))]
    requires Finishes(t, w, id)
    ensures Finishing(s, id)
  {
    hide Strkey.Decodes, OpenCall, VerdictCall, Through, IsVerdictCall, Judged, CallOf, Contract.Final;
    var o := s.db.orders[id];
    if FinalAt(s, id) {
      assert Finishes(s, w, id);
    } else if v == w {
      SentOwn(s.chain, s.watchers[v].job.value, o);
      assert Finishes(s, v, id);
    } else if call.id == id {
      SentOther(s.chain, s.watchers[v].job.value, s.watchers[w].job.value, s.watchers[w].wait, o);
      assert Finishes(s, v, id) || Finishes(s, w, id);
    } else {
      SentElsewhere(s.chain, call, s.watchers[w].job.value, s.watchers[w].wait, o);
      assert Finishes(s, w, id);
    }
  }

  lemma {:induction false} SenderDecodes(orders: Orders, job: Job)
    requires job.id in orders && Judged(orders[job.id]) && orders[job.id].id == job.id
      && Permitted(orders, NextCall(orders, job))
    ensures NextCall(orders, job) == CallOf(orders[job.id], job.stage)
    ensures job.stage == 0 ==> Strkey.Decodes(orders[job.id].buyerWallet)
  {
    hide Strkey.Decodes;
  }

  /** The call a write makes for this order. */
  function CallOf(o: OrderIntent, stage: nat): Contract.Call
    requires Judged(o)
  {
    if stage == 0 then OpenCall(o) else if stage == 1 then DetectCall(o.id) else VerdictCall(o)
  }

  lemma {:induction false} SentOwn(c: Chain, job: Job, o: OrderIntent)
    requires Judged(o) && job.id == o.id && job.stage < CALLS && (job.stage == 0 ==> Strkey.Decodes(o.buyerWallet))
    requires Through(Sent(c, CallOf(o, job.stage)), job.(stage := job.stage + 1), Some(c.next), o)
    ensures Through(c, job, None, o)
  {
    hide Strkey.Decodes;
    FlyingSent(c, CallOf(o, job.stage), OpenCall(o));
    FlyingSent(c, CallOf(o, job.stage), DetectCall(o.id));
  }

  lemma {:induction false} SentOther(c: Chain, v: Job, w: Job, wait: Option<TxHash>, o: OrderIntent)
    requires Judged(o) && v.id == o.id && w.id == o.id && v.stage < CALLS
      && (v.stage == 0 ==> Strkey.Decodes(o.buyerWallet))
    requires wait.Some? ==> wait.value != c.next
    requires Through(Sent(c, CallOf(o, v.stage)), w, wait, o)
    ensures Through(c, w, wait, o) || Through(c, v, None, o)
  {
    hide Strkey.Decodes, Flying;
    FlyingSent(c, CallOf(o, v.stage), OpenCall(o));
    FlyingSent(c, CallOf(o, v.stage), DetectCall(o.id));
  }

  lemma {:induction false} SentElsewhere(c: Chain, call: Contract.Call, w: Job, wait: Option<TxHash>, o: OrderIntent)
    requires Judged(o) && w.id == o.id && call.id != o.id && (wait.Some? ==> wait.value != c.next)
    requires Through(Sent(c, call), w, wait, o)
    ensures Through(c, w, wait, o)
  {
    hide Strkey.Decodes, Flying;
    FlyingSent(c, call, OpenCall(o));
    FlyingSent(c, call, DetectCall(o.id));
  }

  lemma {:induction false} FlyingSent(c: Chain, call: Contract.Call, x: Contract.Call)
    ensures Flying(Sent(c, call), x) ==> Flying(c, x) || x == call
  {
    var d := Sent(c, call);
    if Flying(d, x) {
      var tx :| tx in d.inflight && d.inflight[tx] == x;
      assert tx == c.next || (tx in c.inflight && c.inflight[tx] == x);
    }
  }

  lemma {:induction false} RowHasId(s: State, id: string)
    requires Inv(s) && id in s.db.orders
    ensures s.db.orders[id].id == id
  {
    hide EvidenceOk, SettledOk, LocalOk, StoreOk, CallsOk, OnceOk, HashOk, CountersOk;
    assert RowOk(id, s.db.orders[id]);
  }

  /** Another watcher than the sender waits for what it did, which is not what was just sent. */
  lemma {:induction false} SentWait(s: State, v: string, w: string, id: string)
    requires WaitsOk(s) && Enabled(s, Send(v)) && w in s.watchers && w != v && s.watchers[w].wait.Some?
    ensures s.watchers[w].wait.value != s.chain.next
  {}

  /** What lands was in flight: a write it helps could get through before. */
  lemma {:induction false} FinishingBackLanded(s: State, tx: TxHash, w: string, id: string)
    requires Enabled(s, Land(tx)) && Inv(s) && Unsynced(s.db.orders, id) && Judged(s.db.orders[id])
    requires Finishes(Next(s, Land(tx)), w, id)
    ensures Finishing(s, id)
  {
    LandMeans(s, tx);
    hide Inv, Finishes, Next, AwaitsHash, Landed, Permitted;
    RowHasId(s, id);
    PermittedFlight(s, tx);
    OnceAt(s);
    LandedBack(s, Next(s, Land(tx)), tx, w, id);
  }

  lemma {:induction false} LandedBack(s: State, t: State, tx: TxHash, w: string, id: string)
    requires id in s.db.orders && s.db.orders[id].id == id && Judged(s.db.orders[id])
    requires tx in s.chain.inflight && Permitted(s.db.orders, s.chain.inflight[tx]) && tx !in s.chain.succeeded
      && OnceOk(s.chain)
    requires t.db == s.db && t.watchers == s.watchers && t.chain == Landed(s.chain, tx)
    requires Finishes(t, w, id)
    ensures Finishes(s, w, id)
  {
    hide Strkey.Decodes, OpenCall, VerdictCall, Through, Permitted, OnceOk, Contract.Final, Contract.Apply,
      Contract.Accepts,
      IsVerdictCall;
    if FinalAt(t, id) {
      var told := s.watchers[w].wait.value;
      CarriedMeans(s.db.orders, t.chain, id, told);
      if told in s.chain.succeeded {
        CarriedWas(s.db.orders, s.chain, id, told);
      } else {
        LandedVerdict(s.chain, tx, s.db.orders[id]);
      }
    } else {
      LandedShort(s.db.orders, s.chain, tx, id);
      LandedThrough(s.db.orders, s.chain, tx, s.watchers[w].job.value, s.watchers[w].wait, s.db.orders[id]);
    }
  }

  lemma {:induction false} LandedThrough(orders: Orders, c: Chain, tx: TxHash, job: Job, wait: Option<TxHash>,
    o: OrderIntent)
    requires tx in c.inflight && Judged(o) && job.id == o.id && o.id in orders && orders[o.id] == o
    requires Permitted(orders, c.inflight[tx]) && tx !in c.succeeded
    requires Through(Landed(c, tx), job, wait, o)
    requires var d := Landed(c, tx); !(o.id in d.store && Contract.Final(d.store[o.id].status))
    ensures Through(c, job, wait, o)
  {
    LandedShort(orders, c, tx, o.id);
    FlyingLess(c, Landed(c, tx), OpenCall(o));
    FlyingLess(c, Landed(c, tx), DetectCall(o.id));
    assert Flying(c, c.inflight[tx]);
    hide Strkey.Decodes, Flying, Contract.Apply, Contract.Accepts, Permitted;
  }

  lemma {:induction false} PermittedFlight(s: State, tx: TxHash)
    requires Inv(s) && tx in s.chain.inflight
    ensures Permitted(s.db.orders, s.chain.inflight[tx]) && tx !in s.chain.succeeded
  {
    hide EvidenceOk, SettledOk, LocalOk, StoreOk, OnceOk, HashOk, CountersOk, Permitted, RowOk;
  }

  lemma {:induction false} FlyingLess(c: Chain, d: Chain, x: Contract.Call)
    requires forall tx :: tx in d.inflight ==> tx in c.inflight && d.inflight[tx] == c.inflight[tx]
    ensures Flying(d, x) ==> Flying(c, x)
  {}

  /** An entry not final yet got on, if at all, by a call that was in flight. */
  lemma {:induction false} LandedShort(orders: Orders, c: Chain, tx: TxHash, id: string)
    requires tx in c.inflight && Permitted(orders, c.inflight[tx]) && id in orders && Judged(orders[id])
      && orders[id].id == id
    requires var d := Landed(c, tx); !(id in d.store && Contract.Final(d.store[id].status))
    ensures !(id in c.store && Contract.Final(c.store[id].status))
    ensures var d, call := Landed(c, tx), c.inflight[tx];
            && (id in d.store ==> id in c.store || call == OpenCall(orders[id]))
            && (id in d.store && d.store[id].status.PaymentDetected? ==>
                  (id in c.store && c.store[id].status.PaymentDetected?) || call == DetectCall(id))
  {
    hide Strkey.Decodes;
  }

  lemma {:induction false} CarriedMeans(orders: Orders, c: Chain, id: string, tx: TxHash)
    requires Carried(orders, c, id, tx) && id in orders && orders[id].id == id
    ensures Judged(orders[id]) && c.succeeded[tx] == VerdictCall(orders[id])
  {}

  /** A verdict that succeeded left its entry final. */
  lemma {:induction false} CarriedWas(orders: Orders, c: Chain, id: string, tx: TxHash)
    requires OnceOk(c) && id in orders && orders[id].id == id && Judged(orders[id])
    requires tx in c.succeeded && c.succeeded[tx] == VerdictCall(orders[id])
    ensures Carried(orders, c, id, tx) && id in c.store && Contract.Final(c.store[id].status)
  {
    assert Finalizes(c.succeeded[tx]);
  }

  lemma {:induction false} OnceAt(s: State)
    requires Inv(s)
    ensures OnceOk(s.chain)
  {
    hide EvidenceOk, SettledOk, LocalOk, StoreOk, CallsOk, HashOk, CountersOk, RowOk, OnceOk;
  }

  /** The verdict was accepted, so it found its entry detected, and its sender could get it through. */
  lemma {:induction false} LandedVerdict(c: Chain, tx: TxHash, o: OrderIntent)
    requires Judged(o) && tx in c.inflight && c.inflight[tx] == VerdictCall(o) && tx in Landed(c, tx).succeeded
      && tx !in c.succeeded
    ensures o.id in c.store && c.store[o.id].status.PaymentDetected? && !Contract.Final(c.store[o.id].status)
    ensures forall job: Job :: job.id == o.id ==> Through(c, job, Some(tx), o)
  {
    hide Strkey.Decodes, OpenCall;
  }

  lemma {:induction false} FinishingBackDropped(s: State, tx: TxHash, w: string, id: string)
    requires Enabled(s, Drop(tx)) && Unsynced(s.db.orders, id) && Judged(s.db.orders[id])
    requires Finishes(Next(s, Drop(tx)), w, id)
    ensures Finishing(s, id)
  {
    hide Strkey.Decodes;
    var t := Next(s, Drop(tx));
    FlyingLess(s.chain, t.chain, OpenCall(s.db.orders[id]));
    FlyingLess(s.chain, t.chain, DetectCall(id));
    assert Finishes(s, w, id);
  }

  /** No step lets a write get through that could not, unless it takes on an order that can be registered. */
  lemma {:induction false} FinishingBack(s: State, step: Step, id: string)
    requires Enabled(s, step) && Inv(s) && WaitsOk(s) && Unsynced(s.db.orders, id) && Judged(s.db.orders[id])
    requires step.TryNext? && s.watchers[step.w].todo[0] == id ==> !Registrable(s, id)
    requires Finishing(Next(s, step), id)
    ensures Finishing(s, id)
  {
    hide Inv, WaitsOk, Finishes, Registrable;
    var w :| Finishes(Next(s, step), w, id);
    if step.Send? {
      FinishingBackSent(s, step.w, w, id);
    } else if step.Land? {
      FinishingBackLanded(s, step.tx, w, id);
    } else if step.Drop? {
      FinishingBackDropped(s, step.tx, w, id);
    } else {
      FinishingBackLocal(s, step, w, id);
    }
  }

  /** A final entry stays final, and an order unfit to register stays off the chain. */
  lemma {:induction false} RegistrableBack(streams: map<string, string>, s: State, step: Step, id: string)
    requires Reachable(streams, s) && Enabled(s, step) && Unsynced(s.db.orders, id) && Judged(s.db.orders[id])
    requires Registrable(Next(s, step), id)
    ensures Registrable(s, id)
  {
    hide Enabled, Next, Reachable, Strkey.Decodes, AwaitsHash;
    var t := Next(s, step);
    ReachStep(streams, s, step);
    ReachableSafe(streams, s);
    StepSafe(s, step);
    OrdersAt(s);
    hide Inv;
    SameWrite(s.db.orders, t.db.orders, id);
    if id in t.chain.store { StoredDecodes(streams, t, id); }
    FinalKept(s.chain.store, t.chain.store, id);
  }

  lemma {:induction false} OrdersAt(s: State)
    requires Inv(s)
    ensures OrdersOk(s.db.orders)
  {}

  lemma {:induction false} FinalKept(a: Contract.Store, b: Contract.Store, id: string)
    requires StoreGrows(a, b)
    ensures id in a && Contract.Final(a[id].status) ==> id in b && Contract.Final(b[id].status)
    ensures id in a ==> id in b
  {}

  /** An order that nobody can finish gets no hash in this step. */
  lemma {:induction false} UnsyncedStays(s: State, step: Step, id: string)
    requires Enabled(s, step) && Inv(s) && WaitsOk(s) && Unsynced(s.db.orders, id) && Judged(s.db.orders[id])
      && !Finishing(s, id)
    ensures Unsynced(Next(s, step).db.orders, id)
  {
    hide Inv, OnceOk, WaitsOk, Grows, Finishes, Enabled, Next, Finishing, AwaitsHash;
    OnceAt(s);
    RowHasId(s, id);
    StepSafe(s, step);
    GrowsOrders(s, Next(s, step));
    if step.SaveHash? || step.Attempt? {
      ToldAbout(s, step);
      if s.watchers[step.w].wait.Some? && FreshAck(s, s.watchers[step.w].wait.value) { ToldNot(s, step.w, id); }
      ToldColumn(s, step, id);
    } else {
      UnsyncedSame(s, step, id);
    }
  }

  lemma {:induction false} UnsyncedSame(s: State, step: Step, id: string)
    requires Enabled(s, step) && !step.SaveHash? && !step.Attempt? && Unsynced(s.db.orders, id)
    requires OrdersGrow(s.db.orders, Next(s, step).db.orders)
    ensures Unsynced(Next(s, step).db.orders, id)
  {
    hide Enabled, Next;
    HashColumnKept(s, step, id);
  }

  lemma {:induction false} ToldNot(s: State, w: string, id: string)
    requires OnceOk(s.chain) && WaitsOk(s) && w in s.watchers && s.watchers[w].wait.Some?
      && FreshAck(s, s.watchers[w].wait.value)
    requires id in s.db.orders && s.db.orders[id].id == id && Judged(s.db.orders[id]) && !Finishing(s, id)
    ensures s.chain.succeeded[s.watchers[w].wait.value].id != id
  {
    hide OnceOk, WaitsOk, Finishes;
    ToldFinishes(s, w, id);
  }

  lemma {:induction false} ToldAbout(s: State, step: Step)
    requires Enabled(s, step) && (step.SaveHash? || step.Attempt?)
    ensures step.w in s.watchers
  {}

  /** Being told of an order's verdict is finishing it. */
  lemma {:induction false} ToldFinishes(s: State, w: string, id: string)
    requires OnceOk(s.chain) && WaitsOk(s) && w in s.watchers && s.watchers[w].wait.Some?
      && FreshAck(s, s.watchers[w].wait.value)
    requires id in s.db.orders && s.db.orders[id].id == id && Judged(s.db.orders[id])
    ensures s.chain.succeeded[s.watchers[w].wait.value].id == id ==> Finishes(s, w, id)
  {
    WaitMeans(s, w);
    hide WaitsOk, Through, Strkey.Decodes;
    var tx := s.watchers[w].wait.value;
    if s.chain.succeeded[tx].id == id {
      CarriedWas(s.db.orders, s.chain, id, tx);
    }
  }

  lemma {:induction false} ToldColumn(s: State, step: Step, id: string)
    requires Enabled(s, step) && (step.SaveHash? || step.Attempt?) && Unsynced(s.db.orders, id)
    requires s.watchers[step.w].wait.Some? && FreshAck(s, s.watchers[step.w].wait.value) ==>
      s.chain.succeeded[s.watchers[step.w].wait.value].id != id
    ensures Unsynced(Next(s, step).db.orders, id)
  {
    hide IsVerdictCall;
  }

  /** A sweep comes to an order only if its query found it. */
  lemma {:induction false} UpcomingBack(s: State, step: Step, id: string)
    requires Enabled(s, step) && Inv(s) && Upcoming(Next(s, step), id)
    ensures Upcoming(s, id) || (step.Sweep? && Has(step.rows, id))
  {
    ActorOnly(s, step);
    if Actor(step).Some? { WorkMove(s, step, Actor(step).value); }
    hide Inv, Enabled, Next, Reaches;
    var w :| w in s.watchers && Reaches(Next(s, step).watchers[w], id);
    if Actor(step) == Some(w) {
      if s.watchers[w].job.Some? { TryingApart(s, w); }
      ReachesBack(step, s.watchers[w], Next(s, step).watchers[w], id);
    }
  }

  lemma {:induction false} ReachesBack(step: Step, l: Local, m: Local, id: string)
    requires WorkMoves(step, l, m) && Reaches(m, id)
    requires l.job.Some? && l.job.value.retry ==> l.job.value.id !in l.todo
    ensures Reaches(l, id) || (step.Sweep? && Has(step.rows, id))
  {
    hide Trials;
    var p :| 0 <= p < |m.todo| && m.todo[p] == id && m.done + Trials(m.todo[..p], m.failed) < BATCH;
    if m.todo == l.todo && m.done == l.done && m.failed == l.failed {
    } else if step.Sweep? && m.todo == Ids(step.rows) {
      assert step.rows[p].id == id;
    } else if l.todo != [] && m.todo == l.todo[1..] && m.failed == l.failed
              && m.done == l.done + (if Exhausted(l.failed, l.todo[0]) then 0 else 1) {
      FrontTaken(l, m, p, id);
    } else {
      CountedApart(l, m, p, id);
    }
  }

  /** The head of the rows to come was passed over, or tried. */
  lemma {:induction false} FrontTaken(l: Local, m: Local, p: nat, id: string)
    requires l.todo != [] && m.todo == l.todo[1..] && m.failed == l.failed
    requires m.done == l.done + if Exhausted(l.failed, l.todo[0]) then 0 else 1
    requires !Exhausted(m.failed, id) && p < |m.todo| && m.todo[p] == id
      && m.done + Trials(m.todo[..p], m.failed) < BATCH
    ensures Reaches(l, id)
  {
    TrialsFront(l.todo[..p + 1], l.failed);
    assert l.todo[..p + 1][1..] == m.todo[..p];
    assert l.todo[p + 1] == id;
  }

  /** A counter changed of an order that is not to come. */
  lemma {:induction false} CountedApart(l: Local, m: Local, p: nat, id: string)
    requires l.job.Some? && l.job.value.id !in l.todo && m.todo == l.todo && m.done == l.done
    requires forall k :: k != l.job.value.id ==> Count(m.failed, k) == Count(l.failed, k)
    requires !Exhausted(m.failed, id) && p < |m.todo| && m.todo[p] == id
      && m.done + Trials(m.todo[..p], m.failed) < BATCH
    ensures Reaches(l, id)
  {
    TrialsElsewhere(l.todo[..p], m.failed, l.failed);
    assert l.todo[p] == id;
  }

  /** What cannot be helped now cannot be helped after one step. */
  lemma {:induction false} BlockersStay(streams: map<string, string>, s: State, step: Step, id: string)
    requires Reachable(streams, s) && Enabled(s, step) && Unsynced(s.db.orders, id)
      && Unsynced(Next(s, step).db.orders, id)
    ensures Blockers(s, id) <= Blockers(Next(s, step), id)
  {
    hide Enabled, Next, Reachable, Registrable, Finishing, AwaitsHash;
    ReachableSafe(streams, s);
    ReachableWaits(streams, s);
    StepSafe(s, step);
    OrdersAt(s);
    hide Inv, WaitsOk, Grows;
    var t := Next(s, step);
    GrowsOrders(s, t);
    UnsyncedRow(streams, s, id);
    SameWrite(s.db.orders, t.db.orders, id);
    forall k | k in Blockers(s, id) ensures k in Blockers(t, id) {
      UnsyncedRow(streams, s, k);
      UnsyncedStays(s, step, k);
      SameWrite(s.db.orders, t.db.orders, k);
      if Registrable(t, k) { RegistrableBack(streams, s, step, k); }
      if Finishing(t, k) { FinishingBack(s, step, k); }
    }
  }

  /** Nobody can finish the order, and it is unfit to register, or no sweep will come to it. */
  ghost predicate Shut(s: State, id: string) {
    && Unsynced(s.db.orders, id) && !Finishing(s, id)
    && (!Registrable(s, id) || (!Upcoming(s, id) && |Blockers(s, id)| >= WINDOW))
  }

  lemma {:induction false} ShutStep(streams: map<string, string>, s: State, step: Step, id: string)
    requires Reachable(streams, s) && Enabled(s, step) && Shut(s, id)
    ensures Shut(Next(s, step), id)
  {
    hide Enabled, Next, Reachable, Registrable, Finishing, AwaitsHash, Blockers, Upcoming, IsSweepQuery;
    ReachableSafe(streams, s);
    ReachableWaits(streams, s);
    hide Inv, WaitsOk;
    var t := Next(s, step);
    UnsyncedRow(streams, s, id);
    UnsyncedStays(s, step, id);
    if Registrable(t, id) {
      RegistrableBack(streams, s, step, id);
      BlockersStay(streams, s, step, id);
      SubsetSize(Blockers(s, id), Blockers(t, id));
      if Upcoming(t, id) {
        UpcomingBack(s, step, id);
        NotFound(s, step, id);
      }
    }
    if Finishing(t, id) {
      if step.TryNext? && Registrable(s, id) { TriedIsUpcoming(s, step.w, id); }
      FinishingBack(s, step, id);
    }
  }

  lemma {:induction false} NotFound(s: State, step: Step, id: string)
    requires Enabled(s, step) && step.Sweep? && id in s.db.orders && |Blockers(s, id)| >= WINDOW
    ensures !Has(step.rows, id)
  {
    QueryWithout(s.db.orders, step.rows, id, Blockers(s, id));
  }

  lemma {:induction false} TriedIsUpcoming(s: State, w: string, id: string)
    requires Enabled(s, TryNext(w))
    ensures s.watchers[w].todo[0] == id ==> Upcoming(s, id)
  {
    assert s.watchers[w].todo[..0] == [];
  }

  /**
   * An order that nobody can finish gets no hash in any run, through any restart of any process, if it is unfit to
   * register, or if no sweep under way will come to it and twenty older orders never get theirs.
   */
  lemma {:induction false} ShutForever(streams: map<string, string>, s: State, run: seq<Step>, id: string)
    requires Reachable(streams, s) && Legal(s, run) && Shut(s, id)
    ensures Shut(Exec(s, run), id)
    decreases |run|
  {
    if run != [] {
      hide Reachable, Enabled, Next, Shut;
      ShutStep(streams, s, run[0], id);
      ReachStep(streams, s, run[0]);
      ShutForever(streams, Next(s, run[0]), run[1..], id);
    }
  }

  /**
   * Once the ledger is taken, a settled order without a hash can still get it if and only if some process is writing
   * it and can get through, or it can be registered and a sweep under way will come to it or fewer than twenty older
   * orders are beyond help.
   */
  lemma {:induction false} RecoverableIff(streams: map<string, string>, s: State, id: string)
    requires Reachable(streams, s) && AllSeen(s) && s.watchers != map[] && Unsynced(s.db.orders, id)
    ensures Recoverable(s, id) <==>
            Finishing(s, id) || (Registrable(s, id) && (Upcoming(s, id) || |Blockers(s, id)| < WINDOW))
  {
    hide Reachable, AllSeen, Registrable, Finishing, Upcoming, Blockers, AwaitsHash;
    if Finishing(s, id) {
      FinishingRecovers(streams, s, id);
    } else if Shut(s, id) {
      forall run | Legal(s, run) ensures Unsynced(Exec(s, run).db.orders, id) { ShutForever(streams, s, run, id); }
    } else if Upcoming(s, id) {
      UpcomingRecovers(streams, s, id);
    } else {
      SweepsRecover(streams, s, id);
    }
  }
}
